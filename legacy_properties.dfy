/** What the single-module directive promises: option precedence, an
    eight-field fingerprint sensitive to each field, the cache, the
    reference to the image and the PDF next to it, and how its
    fingerprint relates to the package's. */
module LegacyProperties {
  import opened Errors
  import opened Text
  import opened Paths
  import opened Substitutions
  import opened Targets
  import opened Artifacts
  import opened LegacyScreenshot
  import Screenshot

  /** An explicit option beats its configured default; `full-page` is the
      flag or the default; `pdf` is the flag alone. */
  lemma ExplicitOptionsWin(opts: Options, cfg: Config)
    ensures var s := ResolveSettings(opts, cfg);
            s.browser == (if opts.browser.Some? then opts.browser.value else cfg.defaultBrowser) &&
            s.viewportHeight == (if opts.viewportHeight.Some? then opts.viewportHeight.value else cfg.defaultViewportHeight) &&
            s.viewportWidth == (if opts.viewportWidth.Some? then opts.viewportWidth.value else cfg.defaultViewportWidth) &&
            s.colorScheme == (if opts.colorScheme.Some? then opts.colorScheme.value else cfg.defaultColorScheme) &&
            s.locale == (if opts.locale.Some? then opts.locale else cfg.defaultLocale) &&
            s.timezone == (if opts.timezone.Some? then opts.timezone else cfg.defaultTimezone) &&
            s.fullPage == (opts.fullPage || cfg.defaultFullPage) &&
            s.pdf == opts.pdf
  {
  }

  /** Two keys that differ in exactly one field. */
  predicate OneFieldApart(k1: Key, k2: Key) {
    k1 != k2 &&
    (k2 == k1.(rawPath := k2.rawPath) || k2 == k1.(browser := k2.browser) ||
     k2 == k1.(viewportHeight := k2.viewportHeight) || k2 == k1.(viewportWidth := k2.viewportWidth) ||
     k2 == k1.(colorScheme := k2.colorScheme) || k2 == k1.(context := k2.context) ||
     k2 == k1.(interactions := k2.interactions) || k2 == k1.(fullPage := k2.fullPage))
  }

  /** Changing any one of the eight fingerprinted values, the others fixed,
      changes the hash input. */
  lemma OneFieldChangesFingerprint(k1: Key, k2: Key)
    requires OneFieldApart(k1, k2)
    ensures HashInput(k1) != HashInput(k2)
  {
    var f1 := Fields(k1);
    var f2 := Fields(k2);
    var i: nat :=
      if k1.rawPath != k2.rawPath then 0
      else if k1.browser != k2.browser then 1
      else if k1.viewportHeight != k2.viewportHeight then 2
      else if k1.viewportWidth != k2.viewportWidth then 3
      else if k1.colorScheme != k2.colorScheme then 4
      else if k1.context != k2.context then 5
      else if k1.interactions != k2.interactions then 6
      else 7;
    if i == 2 {
      NatToStringDistinct(k1.viewportHeight, k2.viewportHeight);
    } else if i == 3 {
      NatToStringDistinct(k1.viewportWidth, k2.viewportWidth);
    }
    assert f1[i] != f2[i];
    assert f2 == f1[i := f2[i]];
    assert f1 == f1[i := f1[i]];
    JoinReplaceDistinct(f1, i, f1[i], f2[i], "_");
  }

  /** The locale, the timezone, the headers, the `pdf` flag, the figure
      options, the init script and the context table do not enter the
      fingerprint. */
  lemma FingerprintIgnores(rawPath: string, o1: Options, o2: Options, c1: Config, c2: Config)
    requires o2 == o1.(locale := o2.locale, timezone := o2.timezone, headers := o2.headers, pdf := o2.pdf, figure := o2.figure)
    requires c2 == c1.(initScript := c2.initScript, defaultHeaders := c2.defaultHeaders, defaultLocale := c2.defaultLocale,
                       defaultTimezone := c2.defaultTimezone, contexts := c2.contexts)
    ensures KeyOf(rawPath, ResolveSettings(o1, c1)) == KeyOf(rawPath, ResolveSettings(o2, c2))
  {
  }

  /** The package fingerprints the same eight fields first, then appends
      the device scale factor and the whitelist: the eight-field input is
      a prefix of the ten-field one. */
  lemma PackageExtendsFingerprint(k: Key, deviceScaleFactor: nat, statusCode: string)
    ensures Screenshot.HashInput(Screenshot.Key(k.rawPath, k.browser, k.viewportHeight, k.viewportWidth, k.colorScheme,
                                                k.context, k.interactions, k.fullPage, deviceScaleFactor, statusCode))
            == HashInput(k) + "_" + NatToString(deviceScaleFactor) + "_" + statusCode
  {
    var k10 := Screenshot.Key(k.rawPath, k.browser, k.viewportHeight, k.viewportWidth, k.colorScheme,
                              k.context, k.interactions, k.fullPage, deviceScaleFactor, statusCode);
    var tail := [NatToString(deviceScaleFactor), statusCode];
    assert Screenshot.Fields(k10) == Fields(k) + tail;
    JoinAppend(Fields(k), tail, "_");
    assert Join(tail, "_") == NatToString(deviceScaleFactor) + "_" + statusCode;
  }

  /** What a successful plan holds: the resolved URL, the image named after
      the fingerprint's digest under the screenshot directory, and the
      `pdf` flag as given. */
  lemma PlanFacts(env: Screenshot.Env, cfg: Config, rawPath: string, opts: Options)
    requires PlanCapture(env, cfg, rawPath, opts).Ok?
    ensures var plan := PlanCapture(env, cfg, rawPath, opts).value;
            var digest := env.md5(HashInput(KeyOf(rawPath, ResolveSettings(opts, cfg))));
            var url := ResolveTarget(Substituted(env.substitutions, rawPath), env.srcdir, env.docdir);
            url.Ok? && plan.job.url == url.value &&
            plan.filename == digest + ".png" &&
            plan.job.filepath == PathJoin(ScreenshotDir(env.outdir), digest + ".png") &&
            plan.job.pdf == opts.pdf
  {
  }

  /** A directive in terms of its plan. */
  lemma RunSteps(env: Screenshot.Env, cfg: Config, args: seq<string>, opts: Options, a: State)
    requires |args| >= 1
    ensures var p := PlanCapture(env, cfg, args[0], opts);
            var o := RunOutcome(env, cfg, args, opts, a);
            (p.Err? ==> o == Outcome(Err(p.error), args, opts, a)) &&
            (p.Ok? ==> o.nodes.Ok? && o.artifacts == CachedOrCaptured(a, p.value.job) &&
                       o.arguments == args[0 := RelativeReference(env.relpath(ScreenshotDir(env.outdir), env.docdir), p.value.filename)])
  {
  }

  /** A directive fails exactly when its plan does; the build state is then
      untouched. A capture never fails here: there is no whitelist. */
  lemma RunFailsOnlyWhenPlanning(env: Screenshot.Env, cfg: Config, args: seq<string>, opts: Options, a: State)
    requires |args| >= 1
    ensures var o := RunOutcome(env, cfg, args, opts, a);
            var plan := PlanCapture(env, cfg, args[0], opts);
            (o.nodes.Err? <==> plan.Err?) &&
            (plan.Err? ==> o.nodes.error == plan.error && o.arguments == args && o.options == opts && o.artifacts == a)
  {
  }

  /** The cache decision: an image already on disk is reused and nothing
      is captured or written; a missing one is captured once, and no file
      disappears. */
  lemma CaptureOnlyWhenAbsent(env: Screenshot.Env, cfg: Config, args: seq<string>, opts: Options, a: State)
    requires |args| >= 1
    requires PlanCapture(env, cfg, args[0], opts).Ok?
    ensures var job := PlanCapture(env, cfg, args[0], opts).value.job;
            var o := RunOutcome(env, cfg, args, opts, a);
            o.nodes.Ok? && job.filepath in o.artifacts.files && a.files <= o.artifacts.files &&
            o.artifacts.warnings == a.warnings &&
            (job.filepath in a.files ==> o.artifacts == a) &&
            (job.filepath !in a.files ==> o.artifacts.captures == a.captures + [job])
  {
  }

  /** Running an identical directive a second time captures nothing and
      returns the same nodes. */
  lemma SecondRunIsCacheHit(env: Screenshot.Env, cfg: Config, args: seq<string>, opts: Options, a: State)
    requires |args| >= 1
    requires RunOutcome(env, cfg, args, opts, a).nodes.Ok?
    ensures RunOutcome(env, cfg, args, opts, RunOutcome(env, cfg, args, opts, a).artifacts)
            == RunOutcome(env, cfg, args, opts, a)
  {
    CaptureOnlyWhenAbsent(env, cfg, args, opts, a);
  }

  /** On success the directive's argument is replaced by the reference to
      the image relative to the document, which ends in the image's name;
      nothing else in the arguments changes. */
  lemma ReferenceNamesImage(env: Screenshot.Env, cfg: Config, args: seq<string>, opts: Options, a: State)
    requires |args| >= 1
    requires RunOutcome(env, cfg, args, opts, a).nodes.Ok?
    ensures var digest := env.md5(HashInput(KeyOf(args[0], ResolveSettings(opts, cfg))));
            var o := RunOutcome(env, cfg, args, opts, a);
            |o.arguments| == |args| && o.arguments[1..] == args[1..] &&
            o.arguments[0] == PathJoin(env.relpath(ScreenshotDir(env.outdir), env.docdir), digest + ".png") &&
            EndsWith(o.arguments[0], digest + ".png")
  {
    RunSteps(env, cfg, args, opts, a);
    var p := PlanCapture(env, cfg, args[0], opts);
    assert p.Ok?;
    PlanFacts(env, cfg, args[0], opts);
    var rel := RelativeReference(env.relpath(ScreenshotDir(env.outdir), env.docdir), p.value.filename);
    var o := RunOutcome(env, cfg, args, opts, a);
    assert o.arguments == args[0 := rel];
    assert o.arguments[1..] == args[1..];
  }

  /** A fresh capture with `pdf` writes `<digest>.pdf` next to
      `<digest>.png` in the screenshot directory. */
  lemma PdfWrittenNextToImage(env: Screenshot.Env, cfg: Config, args: seq<string>, opts: Options, a: State)
    requires |args| >= 1
    requires opts.pdf
    requires PlanCapture(env, cfg, args[0], opts).Ok?
    ensures var digest := env.md5(HashInput(KeyOf(args[0], ResolveSettings(opts, cfg))));
            var o := RunOutcome(env, cfg, args, opts, a);
            var image := PathJoin(ScreenshotDir(env.outdir), digest + ".png");
            image in o.artifacts.files &&
            (image !in a.files ==> PathJoin(ScreenshotDir(env.outdir), digest) + ".pdf" in o.artifacts.files)
  {
    var digest := env.md5(HashInput(KeyOf(args[0], ResolveSettings(opts, cfg))));
    var job := PlanCapture(env, cfg, args[0], opts).value.job;
    PlanFacts(env, cfg, args[0], opts);
    PdfSibling(ScreenshotDir(env.outdir), digest);
    if job.filepath !in a.files {
      assert CachedOrCaptured(a, job).files == a.files + CaptureOutputs(job.filepath, true);
    }
  }
}
