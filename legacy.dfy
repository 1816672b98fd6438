/** The single-module variant of the `screenshot` directive
    (`sphinxcontrib/screenshot.py`). It resolves targets, merges headers,
    expands substitutions and consults the cache exactly as the package
    does, but fingerprints eight fields, has no device scale factor, no
    status whitelist and no `auto` colour scheme. */
module LegacyScreenshot {
  import opened Errors
  import opened Text
  import opened Paths
  import opened Substitutions
  import opened Headers
  import opened Nodes
  import opened Targets
  import opened Artifacts
  import Screenshot

  // ---------------------------------------------------------------------
  // Inputs

  /** The `screenshot_*` configuration values this variant reads. */
  datatype Config = Config(
    initScript: Option<string>,
    defaultViewportWidth: nat,
    defaultViewportHeight: nat,
    defaultBrowser: string,
    defaultFullPage: bool,
    defaultColorScheme: string,
    contexts: map<string, string>,
    defaultHeaders: map<string, string>,
    defaultLocale: Option<string>,
    defaultTimezone: Option<string>)

  /** The defaults this variant registers. */
  const DefaultConfig: Config :=
    Config(Some(""), 1280, 960, "chromium", false, "null", map[], map[], None, None)

  /** The directive's options, absent ones as `None`; `figure` holds the
      options inherited from `figure`. */
  datatype Options = Options(
    browser: Option<string>,
    viewportHeight: Option<nat>,
    viewportWidth: Option<nat>,
    interactions: Option<string>,
    pdf: bool,
    colorScheme: Option<string>,
    fullPage: bool,
    context: Option<string>,
    headers: Option<string>,
    locale: Option<string>,
    timezone: Option<string>,
    figure: map<string, string>)

  /** The settings of one capture. */
  datatype Settings = Settings(
    interactions: string,
    browser: string,
    viewportHeight: nat,
    viewportWidth: nat,
    colorScheme: string,
    pdf: bool,
    fullPage: bool,
    locale: Option<string>,
    timezone: Option<string>,
    context: string,
    headers: string)

  /** Each option falls back to its configured default. */
  function ResolveSettings(opts: Options, cfg: Config): Settings {
    Settings(
      opts.interactions.GetOr(""),
      opts.browser.GetOr(cfg.defaultBrowser),
      opts.viewportHeight.GetOr(cfg.defaultViewportHeight),
      opts.viewportWidth.GetOr(cfg.defaultViewportWidth),
      opts.colorScheme.GetOr(cfg.defaultColorScheme),
      opts.pdf,
      opts.fullPage || cfg.defaultFullPage,
      if opts.locale.Some? then opts.locale else cfg.defaultLocale,
      if opts.timezone.Some? then opts.timezone else cfg.defaultTimezone,
      opts.context.GetOr(""),
      opts.headers.GetOr(""))
  }

  // ---------------------------------------------------------------------
  // Fingerprint

  /** The eight values the artifact name is derived from. */
  datatype Key = Key(
    rawPath: string,
    browser: string,
    viewportHeight: nat,
    viewportWidth: nat,
    colorScheme: string,
    context: string,
    interactions: string,
    fullPage: bool)

  function KeyOf(rawPath: string, s: Settings): Key {
    Key(rawPath, s.browser, s.viewportHeight, s.viewportWidth, s.colorScheme, s.context, s.interactions, s.fullPage)
  }

  /** The eight fingerprint fields as strings, in their fixed order. */
  function Fields(k: Key): (f: seq<string>)
    ensures |f| == 8
  {
    [k.rawPath, k.browser, NatToString(k.viewportHeight), NatToString(k.viewportWidth), k.colorScheme,
     k.context, k.interactions, BoolToString(k.fullPage)]
  }

  /** The string whose MD5 digest names the artifact. */
  function HashInput(k: Key): string {
    Join(Fields(k), "_")
  }

  // ---------------------------------------------------------------------
  // One capture

  /** The arguments `take_screenshot` is submitted with. */
  datatype CaptureJob = CaptureJob(
    url: string,
    browser: string,
    viewportWidth: nat,
    viewportHeight: nat,
    filepath: string,
    initScript: string,
    interactions: string,
    pdf: bool,
    colorScheme: string,
    fullPage: bool,
    contextBuilder: Option<(string, string)>,
    headers: map<string, string>,
    locale: Option<string>,
    timezone: Option<string>)

  type State = Artifacts<CaptureJob>

  /** The capture a directive asks for and the name of its image. */
  datatype Plan = Plan(job: CaptureJob, filename: string)

  /** Everything decided before the cache is consulted, in the order the
      errors surface: the target, the headers, then the context builder. */
  function PlanCapture(env: Screenshot.Env, cfg: Config, rawPath: string, opts: Options): Result<Plan> {
    var url :- ResolveTarget(Substituted(env.substitutions, rawPath), env.srcdir, env.docdir);
    var s := ResolveSettings(opts, cfg);
    var headers :- MergedHeaders(cfg.defaultHeaders, s.headers);
    var filename := ImageName(env.md5(HashInput(KeyOf(rawPath, s))));
    var filepath := PathJoin(ScreenshotDir(env.outdir), filename);
    var builder :- ContextBuilder(cfg.contexts, s.context);
    Ok(Plan(
      CaptureJob(url, s.browser, s.viewportWidth, s.viewportHeight, filepath, cfg.initScript.GetOr(""),
                 s.interactions, s.pdf, s.colorScheme, s.fullPage, builder, headers, s.locale, s.timezone),
      filename))
  }

  /** The cache decision: an image on disk is reused untouched, a missing
      one is captured, with its PDF when asked for. */
  function CachedOrCaptured(a: State, job: CaptureJob): State {
    if job.filepath in a.files then a
    else Recorded(a, CaptureOutputs(job.filepath, job.pdf), job, None)
  }

  /** The directive's result and the state it leaves. */
  datatype Outcome = Outcome(nodes: Result<seq<Node>>, arguments: seq<string>, options: Options, artifacts: State)

  /** `run`. A failure leaves arguments, options and build state as they
      were; on success the argument names the image relative to the
      document and the figure is built from it. */
  function RunOutcome(env: Screenshot.Env, cfg: Config, args: seq<string>, opts: Options, a: State): Outcome
    requires |args| >= 1
  {
    match PlanCapture(env, cfg, args[0], opts)
    case Err(e) => Outcome(Err(e), args, opts, a)
    case Ok(plan) =>
      var after := CachedOrCaptured(a, plan.job);
      var rel := RelativeReference(env.relpath(ScreenshotDir(env.outdir), env.docdir), plan.filename);
      var built := env.figure(args[0 := rel], opts.figure, env.content);
      Outcome(Ok(built.0), args[0 := rel], opts.(figure := built.1), after)
  }

  // ---------------------------------------------------------------------
  // The directive

  /** `take_screenshot`, reduced to its effect on the build: the image and,
      when asked for, the PDF next to it are written. */
  method TakeScreenshot(store: ArtifactStore<CaptureJob>, job: CaptureJob)
    modifies store
    ensures store.State() == Recorded(old(store.State()), CaptureOutputs(job.filepath, job.pdf), job, None)
  {
    var outputs := {job.filepath};
    if job.pdf {
      outputs := outputs + {PdfPath(job.filepath)};
    }
    store.Record(outputs, job, None);
  }

  class ScreenshotDirective {
    var arguments: seq<string>
    var options: Options
    const env: Screenshot.Env
    const config: Config
    const store: ArtifactStore<CaptureJob>

    constructor (env: Screenshot.Env, config: Config, arguments: seq<string>, options: Options, store: ArtifactStore<CaptureJob>)
      ensures this.env == env && this.config == config && this.store == store
      ensures this.arguments == arguments && this.options == options
    {
      this.env := env;
      this.config := config;
      this.arguments := arguments;
      this.options := options;
      this.store := store;
    }

    /** The part of `run` before the cache check. */
    method PrepareCapture(rawPath: string) returns (p: Result<Plan>)
      ensures p == PlanCapture(env, config, rawPath, options)
    {
      var target := EvaluateSubstitutions(env.substitutions, rawPath);
      var resolved := ResolveTarget(target, env.srcdir, env.docdir);
      if resolved.Err? {
        return Err(resolved.error);
      }
      var url := resolved.value;
      var s := ResolveSettings(options, config);
      var headers := MergeHeaders(config.defaultHeaders, s.headers);
      if headers.Err? {
        return Err(headers.error);
      }
      var filename := ImageName(env.md5(HashInput(KeyOf(rawPath, s))));
      var filepath := PathJoin(ScreenshotDir(env.outdir), filename);
      var builder := ContextBuilder(config.contexts, s.context);
      if builder.Err? {
        return Err(builder.error);
      }
      var job := CaptureJob(url, s.browser, s.viewportWidth, s.viewportHeight, filepath, config.initScript.GetOr(""),
                            s.interactions, s.pdf, s.colorScheme, s.fullPage, builder.value, headers.value,
                            s.locale, s.timezone);
      p := Ok(Plan(job, filename));
    }

    /** `run`. */
    method Run() returns (r: Result<seq<Node>>)
      requires |arguments| >= 1
      modifies this, store
      ensures Outcome(r, arguments, options, store.State())
              == RunOutcome(env, config, old(arguments), old(options), old(store.State()))
    {
      ghost var expected := RunOutcome(env, config, arguments, options, store.State());
      var plan := PrepareCapture(arguments[0]);
      if plan.Err? {
        assert expected == Outcome(Err(plan.error), arguments, options, store.State());
        return Err(plan.error);
      }
      if !store.Exists(plan.value.job.filepath) {
        TakeScreenshot(store, plan.value.job);
      }
      var rel := RelativeReference(env.relpath(ScreenshotDir(env.outdir), env.docdir), plan.value.filename);
      arguments := arguments[0 := rel];
      var built := env.figure(arguments, options.figure, env.content);
      options := options.(figure := built.1);
      r := Ok(built.0);
    }
  }
}
