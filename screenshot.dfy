/** The `screenshot` directive of the `sphinxcontrib/screenshot` package:
    how one directive turns its target, its options and the build
    configuration into a capture request, a digest-named image and the
    figure nodes that show it, and how `color-scheme: auto` produces a
    light and a dark screenshot. */
module Screenshot {
  import opened Errors
  import opened Text
  import opened Paths
  import opened Substitutions
  import opened Headers
  import opened StatusCodes
  import opened Nodes
  import opened Targets
  import opened Artifacts

  // ---------------------------------------------------------------------
  // Inputs

  /** The `screenshot_*` configuration values the directive reads. */
  datatype Config = Config(
    initScript: Option<string>,
    defaultViewportWidth: nat,
    defaultViewportHeight: nat,
    defaultBrowser: string,
    defaultFullPage: bool,
    defaultColorScheme: string,
    contexts: map<string, string>,
    defaultHeaders: map<string, string>,
    defaultDeviceScaleFactor: nat,
    defaultLocale: Option<string>,
    defaultTimezone: Option<string>)

  /** The defaults the extension registers. */
  const DefaultConfig: Config :=
    Config(Some(""), 1280, 960, "chromium", false, "null", map[], map[], 1, None, None)

  /** The directive's own options, absent ones as `None`; the flags `pdf`
      and `full-page` are present or not. `figure` holds the options the
      directive inherits from `figure` (`align`, `figclass`, `alt`, …),
      which only the figure construction reads. */
  datatype Options = Options(
    browser: Option<string>,
    viewportHeight: Option<nat>,
    viewportWidth: Option<nat>,
    interactions: Option<string>,
    pdf: bool,
    colorScheme: Option<string>,
    fullPage: bool,
    context: Option<string>,
    headers: Option<string>,
    locale: Option<string>,
    timezone: Option<string>,
    deviceScaleFactor: Option<nat>,
    statusCode: Option<string>,
    figure: map<string, string>)

  /** What the directive's surroundings provide. The functions stand for
      code outside the model: the MD5 hex digest of the fingerprint,
      `os.path.relpath`, the status of the response a page gives (`None`
      when there is none), and the figure construction the directive
      inherits, which builds nodes from the arguments, the figure options
      and the content block (caption and legend) and may consume options. */
  datatype Env = Env(
    srcdir: string,
    docdir: string,
    outdir: string,
    docname: string,
    substitutions: SubstitutionDefs,
    content: seq<string>,
    md5: string -> Digest,
    relpath: (string, string) -> string,
    response: string -> Option<nat>,
    figure: (seq<string>, map<string, string>, seq<string>) -> (seq<Node>, map<string, string>))

  // ---------------------------------------------------------------------
  // Option defaulting

  /** The settings of one capture. */
  datatype Settings = Settings(
    interactions: string,
    browser: string,
    viewportHeight: nat,
    viewportWidth: nat,
    colorScheme: string,
    pdf: bool,
    fullPage: bool,
    locale: Option<string>,
    timezone: Option<string>,
    context: string,
    headers: string,
    deviceScaleFactor: nat,
    statusCode: Option<string>)

  /** Each option falls back to its configured default; a non-empty colour
      scheme passed in by the dual-theme dispatch comes first. */
  function ResolveSettings(opts: Options, cfg: Config, colorOverride: Option<string>): Settings {
    Settings(
      opts.interactions.GetOr(""),
      opts.browser.GetOr(cfg.defaultBrowser),
      opts.viewportHeight.GetOr(cfg.defaultViewportHeight),
      opts.viewportWidth.GetOr(cfg.defaultViewportWidth),
      if colorOverride.Some? && colorOverride.value != "" then colorOverride.value
      else opts.colorScheme.GetOr(cfg.defaultColorScheme),
      opts.pdf,
      opts.fullPage || cfg.defaultFullPage,
      if opts.locale.Some? then opts.locale else cfg.defaultLocale,
      if opts.timezone.Some? then opts.timezone else cfg.defaultTimezone,
      opts.context.GetOr(""),
      opts.headers.GetOr(""),
      opts.deviceScaleFactor.GetOr(cfg.defaultDeviceScaleFactor),
      opts.statusCode)
  }

  // ---------------------------------------------------------------------
  // Fingerprint

  /** The values the artifact name is derived from. */
  datatype Key = Key(
    rawPath: string,
    browser: string,
    viewportHeight: nat,
    viewportWidth: nat,
    colorScheme: string,
    context: string,
    interactions: string,
    fullPage: bool,
    deviceScaleFactor: nat,
    statusCode: string)

  /** The key of a capture: the target as written (before substitution)
      and the settings that change the picture; the status whitelist
      counts as written, an absent one as "". */
  function KeyOf(rawPath: string, s: Settings): Key {
    Key(rawPath, s.browser, s.viewportHeight, s.viewportWidth, s.colorScheme, s.context,
        s.interactions, s.fullPage, s.deviceScaleFactor, s.statusCode.GetOr(""))
  }

  /** The ten fingerprint fields as strings, in their fixed order. */
  function Fields(k: Key): (f: seq<string>)
    ensures |f| == 10
  {
    [k.rawPath, k.browser, NatToString(k.viewportHeight), NatToString(k.viewportWidth), k.colorScheme,
     k.context, k.interactions, BoolToString(k.fullPage), NatToString(k.deviceScaleFactor), k.statusCode]
  }

  /** The string whose MD5 digest names the artifact. */
  function HashInput(k: Key): string {
    Join(Fields(k), "_")
  }

  // ---------------------------------------------------------------------
  // One capture

  /** The arguments `take_screenshot` is submitted with. */
  datatype CaptureJob = CaptureJob(
    url: string,
    browser: string,
    viewportWidth: nat,
    viewportHeight: nat,
    filepath: string,
    initScript: string,
    interactions: string,
    pdf: bool,
    colorScheme: string,
    fullPage: bool,
    contextBuilder: Option<(string, string)>,
    headers: map<string, string>,
    deviceScaleFactor: nat,
    locale: Option<string>,
    timezone: Option<string>,
    statusCode: Option<string>,
    docname: string)

  type State = Artifacts<CaptureJob>

  /** The capture a directive asks for and the name of its image. */
  datatype Plan = Plan(job: CaptureJob, filename: string)

  /** Everything decided before the cache is consulted, in the order the
      errors surface: the target, the headers, then the context builder. */
  function PlanCapture(env: Env, cfg: Config, rawPath: string, opts: Options, colorOverride: Option<string>): Result<Plan> {
    var url :- ResolveTarget(Substituted(env.substitutions, rawPath), env.srcdir, env.docdir);
    var s := ResolveSettings(opts, cfg, colorOverride);
    var headers :- MergedHeaders(cfg.defaultHeaders, s.headers);
    var filename := ImageName(env.md5(HashInput(KeyOf(rawPath, s))));
    var filepath := PathJoin(ScreenshotDir(env.outdir), filename);
    var builder :- ContextBuilder(cfg.contexts, s.context);
    Ok(Plan(
      CaptureJob(url, s.browser, s.viewportWidth, s.viewportHeight, filepath, cfg.initScript.GetOr(""),
                 s.interactions, s.pdf, s.colorScheme, s.fullPage, builder, headers, s.deviceScaleFactor,
                 s.locale, s.timezone, s.statusCode, env.docname),
      filename))
  }

  /** What `take_screenshot` does to the build: the whitelist is parsed
      before the browser starts, so a malformed one fails the capture and
      writes nothing; otherwise an unexpected status is logged and the
      image, with its PDF when asked for, is written. */
  function Captured(a: State, job: CaptureJob, response: Option<nat>): Result<State> {
    var warning :- CheckStatus(job.url, response, job.statusCode);
    Ok(Recorded(a, CaptureOutputs(job.filepath, job.pdf), job, warning))
  }

  /** The cache decision: an image already on disk is reused untouched. */
  function CachedOrCaptured(a: State, job: CaptureJob, response: Option<nat>): Result<State> {
    if job.filepath in a.files then Ok(a) else Captured(a, job, response)
  }

  /** The directive's result and the state it leaves: its nodes (or the
      error it raised), its arguments and options, and the build state. */
  datatype Outcome = Outcome(nodes: Result<seq<Node>>, arguments: seq<string>, options: Options, artifacts: State)

  /** `_generate_single_screenshot`. A failure leaves arguments, options and
      build state as they were; on success the argument names the image
      relative to the document and the figure is built from it. */
  function SingleOutcome(env: Env, cfg: Config, args: seq<string>, opts: Options, colorOverride: Option<string>, a: State): Outcome
    requires |args| >= 1
  {
    match PlanCapture(env, cfg, args[0], opts, colorOverride)
    case Err(e) => Outcome(Err(e), args, opts, a)
    case Ok(plan) =>
      match CachedOrCaptured(a, plan.job, env.response(plan.job.url))
      case Err(e) => Outcome(Err(e), args, opts, a)
      case Ok(after) =>
        var rel := RelativeReference(env.relpath(ScreenshotDir(env.outdir), env.docdir), plan.filename);
        var built := env.figure(args[0 := rel], opts.figure, env.content);
        Outcome(Ok(built.0), args[0 := rel], opts.(figure := built.1), after)
  }

  /** `_generate_dual_theme_screenshots`: a light run and a dark run from
      the same arguments and options, the light nodes (tagged `only-light`)
      followed by the dark ones (tagged `only-dark`); arguments and options
      end as they started. */
  function DualOutcome(env: Env, cfg: Config, args: seq<string>, opts: Options, a: State): Outcome
    requires |args| >= 1
  {
    var light := SingleOutcome(env, cfg, args, opts, Some("light"), a);
    if light.nodes.Err? then light
    else
      var dark := SingleOutcome(env, cfg, args, opts, Some("dark"), light.artifacts);
      if dark.nodes.Err? then dark
      else
        Outcome(Ok(TagAll(light.nodes.value, "only-light") + TagAll(dark.nodes.value, "only-dark")),
                args, opts, dark.artifacts)
  }

  /** The colour scheme `run` dispatches on: the option, else the default. */
  function RequestedScheme(opts: Options, cfg: Config): string {
    opts.colorScheme.GetOr(cfg.defaultColorScheme)
  }

  /** `run`: two themed screenshots for `auto`, one screenshot otherwise. */
  function RunOutcome(env: Env, cfg: Config, args: seq<string>, opts: Options, a: State): Outcome
    requires |args| >= 1
  {
    if RequestedScheme(opts, cfg) == "auto" then DualOutcome(env, cfg, args, opts, a)
    else SingleOutcome(env, cfg, args, opts, None, a)
  }

  // ---------------------------------------------------------------------
  // The directive

  /** `take_screenshot`, reduced to its effect on the build. */
  method TakeScreenshot(store: ArtifactStore<CaptureJob>, job: CaptureJob, response: Option<nat>) returns (error: Option<Error>)
    modifies store
    ensures Captured(old(store.State()), job, response) == if error.None? then Ok(store.State()) else Err(error.value)
    ensures error.Some? ==> store.State() == old(store.State())
  {
    var warning := CheckStatus(job.url, response, job.statusCode);
    if warning.Err? {
      return Some(warning.error);
    }
    store.Record(CaptureOutputs(job.filepath, job.pdf), job, warning.value);
    error := None;
  }

  class ScreenshotDirective {
    var arguments: seq<string>
    var options: Options
    const env: Env
    const config: Config
    const store: ArtifactStore<CaptureJob>

    constructor (env: Env, config: Config, arguments: seq<string>, options: Options, store: ArtifactStore<CaptureJob>)
      ensures this.env == env && this.config == config && this.store == store
      ensures this.arguments == arguments && this.options == options
    {
      this.env := env;
      this.config := config;
      this.arguments := arguments;
      this.options := options;
      this.store := store;
    }

    /** The part of `_generate_single_screenshot` before the cache check:
        substitution, resolution, defaulting, the header loop, the
        fingerprint and the context lookup. */
    method PrepareCapture(rawPath: string, colorOverride: Option<string>) returns (p: Result<Plan>)
      ensures p == PlanCapture(env, config, rawPath, options, colorOverride)
    {
      var target := EvaluateSubstitutions(env.substitutions, rawPath);
      var resolved := ResolveTarget(target, env.srcdir, env.docdir);
      if resolved.Err? {
        return Err(resolved.error);
      }
      var url := resolved.value;
      var s := ResolveSettings(options, config, colorOverride);
      var headers := MergeHeaders(config.defaultHeaders, s.headers);
      if headers.Err? {
        return Err(headers.error);
      }
      var filename := ImageName(env.md5(HashInput(KeyOf(rawPath, s))));
      var filepath := PathJoin(ScreenshotDir(env.outdir), filename);
      var builder := ContextBuilder(config.contexts, s.context);
      if builder.Err? {
        return Err(builder.error);
      }
      var job := CaptureJob(url, s.browser, s.viewportWidth, s.viewportHeight, filepath, config.initScript.GetOr(""),
                            s.interactions, s.pdf, s.colorScheme, s.fullPage, builder.value, headers.value,
                            s.deviceScaleFactor, s.locale, s.timezone, s.statusCode, env.docname);
      p := Ok(Plan(job, filename));
    }

    /** The cache check: captures only when the image is not on disk yet. */
    method CaptureUnlessCached(job: CaptureJob) returns (error: Option<Error>)
      modifies store
      ensures CachedOrCaptured(old(store.State()), job, env.response(job.url))
              == if error.None? then Ok(store.State()) else Err(error.value)
      ensures error.Some? ==> store.State() == old(store.State())
    {
      error := None;
      if !store.Exists(job.filepath) {
        error := TakeScreenshot(store, job, env.response(job.url));
      }
    }

    /** `_generate_single_screenshot`. */
    method GenerateSingleScreenshot(colorOverride: Option<string>) returns (r: Result<seq<Node>>)
      requires |arguments| >= 1
      modifies this, store
      ensures Outcome(r, arguments, options, store.State())
              == SingleOutcome(env, config, old(arguments), old(options), colorOverride, old(store.State()))
    {
      ghost var expected := SingleOutcome(env, config, arguments, options, colorOverride, store.State());
      var plan := PrepareCapture(arguments[0], colorOverride);
      if plan.Err? {
        assert expected == Outcome(Err(plan.error), arguments, options, store.State());
        return Err(plan.error);
      }
      ghost var before := store.State();
      var error := CaptureUnlessCached(plan.value.job);
      if error.Some? {
        assert expected == Outcome(Err(error.value), arguments, options, before);
        return Err(error.value);
      }
      var rel := RelativeReference(env.relpath(ScreenshotDir(env.outdir), env.docdir), plan.value.filename);
      arguments := arguments[0 := rel];
      var built := env.figure(arguments, options.figure, env.content);
      options := options.(figure := built.1);
      r := Ok(built.0);
    }

    /** `_generate_dual_theme_screenshots`. */
    method GenerateDualThemeScreenshots() returns (r: Result<seq<Node>>)
      requires |arguments| >= 1
      modifies this, store
      ensures Outcome(r, arguments, options, store.State())
              == DualOutcome(env, config, old(arguments), old(options), old(store.State()))
    {
      var originalArguments := arguments;
      var originalOptions := options;

      var light := GenerateSingleScreenshot(Some("light"));
      if light.Err? {
        return light;
      }
      var lightNodes := AddCssClass(light.value, "only-light");

      arguments := originalArguments;
      options := originalOptions;

      var dark := GenerateSingleScreenshot(Some("dark"));
      if dark.Err? {
        return dark;
      }
      var darkNodes := AddCssClass(dark.value, "only-dark");

      arguments := originalArguments;
      options := originalOptions;
      r := Ok(lightNodes + darkNodes);
    }

    /** `run`. */
    method Run() returns (r: Result<seq<Node>>)
      requires |arguments| >= 1
      modifies this, store
      ensures Outcome(r, arguments, options, store.State())
              == RunOutcome(env, config, old(arguments), old(options), old(store.State()))
    {
      var colorScheme := options.colorScheme.GetOr(config.defaultColorScheme);
      if colorScheme == "auto" {
        r := GenerateDualThemeScreenshots();
      } else {
        r := GenerateSingleScreenshot(None);
      }
    }
  }
}
