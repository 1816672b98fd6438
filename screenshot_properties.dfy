/** What the package directive promises, stated over its specification:
    option precedence, what the fingerprint does and does not depend on,
    the cache, the status warning, the PDF sibling and the dual-theme
    dispatch. */
module ScreenshotProperties {
  import opened Errors
  import opened Text
  import opened Paths
  import opened Substitutions
  import opened Headers
  import opened StatusCodes
  import opened Nodes
  import opened Targets
  import opened Artifacts
  import opened Screenshot

  // ---------------------------------------------------------------------
  // Option defaulting

  /** An explicit option beats its configured default; `full-page` is the
      flag or the default; `pdf` is the flag alone; a colour scheme passed
      in by the dual-theme dispatch beats both. */
  lemma ExplicitOptionsWin(opts: Options, cfg: Config, colorOverride: Option<string>)
    ensures var s := ResolveSettings(opts, cfg, colorOverride);
            s.browser == (if opts.browser.Some? then opts.browser.value else cfg.defaultBrowser) &&
            s.viewportHeight == (if opts.viewportHeight.Some? then opts.viewportHeight.value else cfg.defaultViewportHeight) &&
            s.viewportWidth == (if opts.viewportWidth.Some? then opts.viewportWidth.value else cfg.defaultViewportWidth) &&
            s.locale == (if opts.locale.Some? then opts.locale else cfg.defaultLocale) &&
            s.timezone == (if opts.timezone.Some? then opts.timezone else cfg.defaultTimezone) &&
            s.deviceScaleFactor == (if opts.deviceScaleFactor.Some? then opts.deviceScaleFactor.value else cfg.defaultDeviceScaleFactor) &&
            s.fullPage == (opts.fullPage || cfg.defaultFullPage) &&
            s.pdf == opts.pdf &&
            (colorOverride == Some("light") || colorOverride == Some("dark") ==> s.colorScheme == colorOverride.value) &&
            (colorOverride.None? ==> s.colorScheme == (if opts.colorScheme.Some? then opts.colorScheme.value else cfg.defaultColorScheme))
  {
  }

  // ---------------------------------------------------------------------
  // Fingerprint

  /** Two keys that differ in exactly one field. */
  predicate OneFieldApart(k1: Key, k2: Key) {
    k1 != k2 &&
    (k2 == k1.(rawPath := k2.rawPath) || k2 == k1.(browser := k2.browser) ||
     k2 == k1.(viewportHeight := k2.viewportHeight) || k2 == k1.(viewportWidth := k2.viewportWidth) ||
     k2 == k1.(colorScheme := k2.colorScheme) || k2 == k1.(context := k2.context) ||
     k2 == k1.(interactions := k2.interactions) || k2 == k1.(fullPage := k2.fullPage) ||
     k2 == k1.(deviceScaleFactor := k2.deviceScaleFactor) || k2 == k1.(statusCode := k2.statusCode))
  }

  /** Changing any one fingerprinted value, the others fixed, changes the
      hash input. (Distinct digests would further need MD5 to be
      collision-free, which the model does not assume.) */
  lemma OneFieldChangesFingerprint(k1: Key, k2: Key)
    requires OneFieldApart(k1, k2)
    ensures HashInput(k1) != HashInput(k2)
  {
    var f1 := Fields(k1);
    var f2 := Fields(k2);
    var i: nat :=
      if k1.rawPath != k2.rawPath then 0
      else if k1.browser != k2.browser then 1
      else if k1.viewportHeight != k2.viewportHeight then 2
      else if k1.viewportWidth != k2.viewportWidth then 3
      else if k1.colorScheme != k2.colorScheme then 4
      else if k1.context != k2.context then 5
      else if k1.interactions != k2.interactions then 6
      else if k1.fullPage != k2.fullPage then 7
      else if k1.deviceScaleFactor != k2.deviceScaleFactor then 8
      else 9;
    if i == 2 {
      NatToStringDistinct(k1.viewportHeight, k2.viewportHeight);
    } else if i == 3 {
      NatToStringDistinct(k1.viewportWidth, k2.viewportWidth);
    } else if i == 8 {
      NatToStringDistinct(k1.deviceScaleFactor, k2.deviceScaleFactor);
    }
    assert f1[i] != f2[i];
    assert f2 == f1[i := f2[i]];
    assert f1 == f1[i := f1[i]];
    JoinReplaceDistinct(f1, i, f1[i], f2[i], "_");
  }

  /** The fingerprint is not injective: the `_` separator can move between
      neighbouring fields, so two captures that differ in two fields can
      share an image (context `a_b` without interactions and context `a`
      with interactions `b_`, say). */
  lemma TwoFieldsCanCollide(k: Key, c: string, d: string, e: string)
    ensures var k1 := k.(context := c + "_" + d, interactions := e);
            var k2 := k.(context := c, interactions := d + "_" + e);
            k1 != k2 && HashInput(k1) == HashInput(k2)
  {
    var k1 := k.(context := c + "_" + d, interactions := e);
    var k2 := k.(context := c, interactions := d + "_" + e);
    assert |k1.context| > |k2.context|;
    var tail := [BoolToString(k.fullPage), NatToString(k.deviceScaleFactor), k.statusCode];
    var head := [k.rawPath, k.browser, NatToString(k.viewportHeight), NatToString(k.viewportWidth), k.colorScheme];
    assert Fields(k1) == head + ([c + "_" + d, e] + tail);
    assert Fields(k2) == head + ([c, d + "_" + e] + tail);
    JoinMovesSeparator(head, c, d, e, tail, "_");
  }

  /** The caption, the locale, the timezone, the headers, the `pdf` flag,
      the figure options, the init script and the context table do not
      enter the fingerprint. */
  lemma FingerprintIgnores(rawPath: string, o1: Options, o2: Options, c1: Config, c2: Config, colorOverride: Option<string>)
    requires o2 == o1.(locale := o2.locale, timezone := o2.timezone, headers := o2.headers, pdf := o2.pdf, figure := o2.figure)
    requires c2 == c1.(initScript := c2.initScript, defaultHeaders := c2.defaultHeaders, defaultLocale := c2.defaultLocale,
                       defaultTimezone := c2.defaultTimezone, contexts := c2.contexts)
    ensures KeyOf(rawPath, ResolveSettings(o1, c1, colorOverride)) == KeyOf(rawPath, ResolveSettings(o2, c2, colorOverride))
  {
  }

  /** Two directives that differ only in their caption point at the same
      image and leave the same build state. */
  lemma CaptionDoesNotChangeImage(env: Env, cfg: Config, args: seq<string>, opts: Options, colorOverride: Option<string>,
                                  a: State, content: seq<string>)
    requires |args| >= 1
    ensures SingleOutcome(env.(content := content), cfg, args, opts, colorOverride, a).arguments
            == SingleOutcome(env, cfg, args, opts, colorOverride, a).arguments
    ensures SingleOutcome(env.(content := content), cfg, args, opts, colorOverride, a).artifacts
            == SingleOutcome(env, cfg, args, opts, colorOverride, a).artifacts
  {
    var captioned := env.(content := content);
    assert captioned.substitutions == env.substitutions && captioned.srcdir == env.srcdir &&
           captioned.docdir == env.docdir && captioned.outdir == env.outdir && captioned.docname == env.docname &&
           captioned.md5 == env.md5 && captioned.response == env.response && captioned.relpath == env.relpath;
    assert PlanCapture(captioned, cfg, args[0], opts, colorOverride) == PlanCapture(env, cfg, args[0], opts, colorOverride);
    SingleSteps(captioned, cfg, args, opts, colorOverride, a);
    SingleSteps(env, cfg, args, opts, colorOverride, a);
  }

  /** The root-relative and the document-relative spelling of one local
      file capture the same URL, yet under different names, since the
      fingerprint uses the target as written. */
  lemma RootAndDocumentRelativeShareUrl(env: Env, cfg: Config, opts: Options, sub: string, file: string)
    requires env.substitutions == []
    requires env.srcdir != "" && env.srcdir[|env.srcdir| - 1] != '/'
    requires sub != "" && sub[0] != '/' && sub[|sub| - 1] != '/'
    requires file != "" && file[0] != '/' && Scheme(file) == ""
    requires env.docdir == env.srcdir + "/" + sub
    ensures var p1 := PlanCapture(env, cfg, "/" + sub + "/" + file, opts, None);
            var p2 := PlanCapture(env, cfg, file, opts, None);
            p1.Ok? == p2.Ok? && (p1.Ok? ==> p1.value.job.url == p2.value.job.url)
    ensures var s := ResolveSettings(opts, cfg, None);
            HashInput(KeyOf("/" + sub + "/" + file, s)) != HashInput(KeyOf(file, s))
  {
    var root := "/" + sub + "/" + file;
    RootAndDocumentRelativeAgree(env.srcdir, sub, file);
    assert Substituted(env.substitutions, root) == root && Substituted(env.substitutions, file) == file;
    PlansShareResolvedUrl(env, cfg, opts, None, root, file);
    var s := ResolveSettings(opts, cfg, None);
    assert |root| > |file|;
    OneFieldChangesFingerprint(KeyOf(root, s), KeyOf(file, s));
  }

  /** Two targets that resolve alike plan alike: both fail or both succeed,
      with the same URL. */
  lemma PlansShareResolvedUrl(env: Env, cfg: Config, opts: Options, colorOverride: Option<string>, raw1: string, raw2: string)
    requires ResolveTarget(Substituted(env.substitutions, raw1), env.srcdir, env.docdir)
             == ResolveTarget(Substituted(env.substitutions, raw2), env.srcdir, env.docdir)
    ensures var p1 := PlanCapture(env, cfg, raw1, opts, colorOverride);
            var p2 := PlanCapture(env, cfg, raw2, opts, colorOverride);
            p1.Ok? == p2.Ok? && (p1.Ok? ==> p1.value.job.url == p2.value.job.url)
  {
    var url := ResolveTarget(Substituted(env.substitutions, raw1), env.srcdir, env.docdir);
    var s := ResolveSettings(opts, cfg, colorOverride);
    var headers := MergedHeaders(cfg.defaultHeaders, s.headers);
    var builder := ContextBuilder(cfg.contexts, s.context);
    if url.Ok? && headers.Ok? && builder.Ok? {
      assert PlanCapture(env, cfg, raw1, opts, colorOverride).Ok?;
      assert PlanCapture(env, cfg, raw1, opts, colorOverride).value.job.url == url.value;
      assert PlanCapture(env, cfg, raw2, opts, colorOverride).Ok?;
      assert PlanCapture(env, cfg, raw2, opts, colorOverride).value.job.url == url.value;
    } else {
      assert PlanCapture(env, cfg, raw1, opts, colorOverride).Err?;
      assert PlanCapture(env, cfg, raw2, opts, colorOverride).Err?;
    }
  }

  /** The two halves of a dual-theme directive are fingerprinted apart. */
  lemma DualHalvesUseDifferentNames(rawPath: string, opts: Options, cfg: Config)
    ensures HashInput(KeyOf(rawPath, ResolveSettings(opts, cfg, Some("light"))))
            != HashInput(KeyOf(rawPath, ResolveSettings(opts, cfg, Some("dark"))))
  {
    OneFieldChangesFingerprint(KeyOf(rawPath, ResolveSettings(opts, cfg, Some("light"))),
                               KeyOf(rawPath, ResolveSettings(opts, cfg, Some("dark"))));
  }

  /** What a successful plan holds: the URL the target resolves to, the
      image named after the fingerprint's digest under the screenshot
      directory, and the `pdf` flag and whitelist as given. */
  lemma PlanFacts(env: Env, cfg: Config, rawPath: string, opts: Options, colorOverride: Option<string>)
    requires PlanCapture(env, cfg, rawPath, opts, colorOverride).Ok?
    ensures var plan := PlanCapture(env, cfg, rawPath, opts, colorOverride).value;
            var digest := env.md5(HashInput(KeyOf(rawPath, ResolveSettings(opts, cfg, colorOverride))));
            var url := ResolveTarget(Substituted(env.substitutions, rawPath), env.srcdir, env.docdir);
            url.Ok? && plan.job.url == url.value &&
            plan.filename == digest + ".png" &&
            plan.job.filepath == PathJoin(ScreenshotDir(env.outdir), digest + ".png") &&
            plan.job.pdf == opts.pdf && plan.job.statusCode == opts.statusCode
  {
  }

  /** A directive in terms of its plan and its cache decision. */
  lemma SingleSteps(env: Env, cfg: Config, args: seq<string>, opts: Options, colorOverride: Option<string>, a: State)
    requires |args| >= 1
    ensures var p := PlanCapture(env, cfg, args[0], opts, colorOverride);
            var o := SingleOutcome(env, cfg, args, opts, colorOverride, a);
            (p.Err? ==> o == Outcome(Err(p.error), args, opts, a)) &&
            (p.Ok? ==>
              var after := CachedOrCaptured(a, p.value.job, env.response(p.value.job.url));
              (after.Err? ==> o == Outcome(Err(after.error), args, opts, a)) &&
              (after.Ok? ==> o.nodes.Ok? && o.artifacts == after.value &&
                             o.arguments == args[0 := RelativeReference(env.relpath(ScreenshotDir(env.outdir), env.docdir), p.value.filename)]))
  {
  }

  // ---------------------------------------------------------------------
  // Cache

  /** The cache decision of one directive: an image already on disk is
      reused and nothing is captured; a missing one is captured once; on
      success the image is on disk and no file disappears. */
  lemma CaptureOnlyWhenAbsent(env: Env, cfg: Config, args: seq<string>, opts: Options, colorOverride: Option<string>, a: State)
    requires |args| >= 1
    requires PlanCapture(env, cfg, args[0], opts, colorOverride).Ok?
    ensures var job := PlanCapture(env, cfg, args[0], opts, colorOverride).value.job;
            var o := SingleOutcome(env, cfg, args, opts, colorOverride, a);
            (job.filepath in a.files ==> o.nodes.Ok? && o.artifacts == a) &&
            (o.nodes.Ok? ==> job.filepath in o.artifacts.files && a.files <= o.artifacts.files) &&
            (o.nodes.Ok? && job.filepath !in a.files ==> o.artifacts.captures == a.captures + [job])
  {
  }

  /** A directive whose image is on disk gives the same nodes, arguments
      and options as before, and leaves the build state alone. */
  lemma SingleReusesImage(env: Env, cfg: Config, args: seq<string>, opts: Options, colorOverride: Option<string>, a: State, b: State)
    requires |args| >= 1
    requires SingleOutcome(env, cfg, args, opts, colorOverride, a).nodes.Ok?
    requires PlanCapture(env, cfg, args[0], opts, colorOverride).Ok?
    requires PlanCapture(env, cfg, args[0], opts, colorOverride).value.job.filepath in b.files
    ensures SingleOutcome(env, cfg, args, opts, colorOverride, b)
            == SingleOutcome(env, cfg, args, opts, colorOverride, a).(artifacts := b)
  {
  }

  /** Running an identical directive a second time captures nothing and
      returns the same nodes: every image the first run needs is on disk. */
  lemma SecondRunIsCacheHit(env: Env, cfg: Config, args: seq<string>, opts: Options, a: State)
    requires |args| >= 1
    requires RunOutcome(env, cfg, args, opts, a).nodes.Ok?
    ensures RunOutcome(env, cfg, args, opts, RunOutcome(env, cfg, args, opts, a).artifacts)
            == RunOutcome(env, cfg, args, opts, a)
  {
    if RequestedScheme(opts, cfg) == "auto" {
      var light := SingleOutcome(env, cfg, args, opts, Some("light"), a);
      assert light.nodes.Ok?;
      var dark := SingleOutcome(env, cfg, args, opts, Some("dark"), light.artifacts);
      assert dark.nodes.Ok?;
      CaptureOnlyWhenAbsent(env, cfg, args, opts, Some("light"), a);
      CaptureOnlyWhenAbsent(env, cfg, args, opts, Some("dark"), light.artifacts);
      SingleReusesImage(env, cfg, args, opts, Some("light"), a, dark.artifacts);
      SingleReusesImage(env, cfg, args, opts, Some("dark"), light.artifacts, dark.artifacts);
    } else {
      var o := SingleOutcome(env, cfg, args, opts, None, a);
      CaptureOnlyWhenAbsent(env, cfg, args, opts, None, a);
      SingleReusesImage(env, cfg, args, opts, None, a, o.artifacts);
    }
  }

  // ---------------------------------------------------------------------
  // Status check

  /** A malformed whitelist fails a directive only when its image has to be
      captured: a cached image is reused without parsing it. */
  lemma MalformedWhitelistFailsOnlyOnMiss(env: Env, cfg: Config, args: seq<string>, opts: Options, colorOverride: Option<string>, a: State)
    requires |args| >= 1
    requires PlanCapture(env, cfg, args[0], opts, colorOverride).Ok?
    requires ParseExpectedStatusCodes(ExpectedCodesText(opts.statusCode)).Err?
    ensures var job := PlanCapture(env, cfg, args[0], opts, colorOverride).value.job;
            var o := SingleOutcome(env, cfg, args, opts, colorOverride, a);
            (o.nodes.Ok? <==> job.filepath in a.files) &&
            (o.nodes.Err? ==> o.nodes.error.InvalidStatusCode? && o.artifacts == a)
  {
    var plan := PlanCapture(env, cfg, args[0], opts, colorOverride).value;
    assert plan.job.statusCode == opts.statusCode;
    var r := ParseExpectedStatusCodes(ExpectedCodesText(opts.statusCode));
    var segments := Split(ExpectedCodesText(opts.statusCode), ',');
    InvalidSegmentError(segments);
  }

  /** A failed whitelist parse always reports a segment. */
  lemma {:induction false} InvalidSegmentError(segments: seq<string>)
    requires ParseSegments(segments).Err?
    ensures ParseSegments(segments).error.InvalidStatusCode?
  {
    if ParseNat(Strip(segments[0])).Some? {
      InvalidSegmentError(segments[1..]);
    }
  }

  /** A fresh capture whose page answers outside the whitelist logs the
      warning for that status and still succeeds. */
  lemma UnexpectedStatusIsLogged(env: Env, cfg: Config, args: seq<string>, opts: Options, colorOverride: Option<string>,
                                 a: State, valid: seq<nat>, status: nat)
    requires |args| >= 1
    requires PlanCapture(env, cfg, args[0], opts, colorOverride).Ok?
    requires PlanCapture(env, cfg, args[0], opts, colorOverride).value.job.filepath !in a.files
    requires ParseExpectedStatusCodes(ExpectedCodesText(opts.statusCode)) == Ok(valid)
    requires env.response(PlanCapture(env, cfg, args[0], opts, colorOverride).value.job.url) == Some(status)
    requires status !in valid
    ensures var url := PlanCapture(env, cfg, args[0], opts, colorOverride).value.job.url;
            var o := SingleOutcome(env, cfg, args, opts, colorOverride, a);
            o.nodes.Ok? && o.artifacts.warnings == a.warnings + [StatusWarning(url, status, ExpectedCodesText(opts.statusCode))]
  {
    var job := PlanCapture(env, cfg, args[0], opts, colorOverride).value.job;
    PlanFacts(env, cfg, args[0], opts, colorOverride);
    var warning := StatusWarning(job.url, status, ExpectedCodesText(opts.statusCode));
    assert CheckStatus(job.url, Some(status), job.statusCode) == Ok(Some(warning));
    assert CachedOrCaptured(a, job, Some(status)) == Ok(Recorded(a, CaptureOutputs(job.filepath, job.pdf), job, Some(warning)));
  }

  /** A fresh capture whose page gives no response, or an expected status,
      logs nothing. */
  lemma ExpectedStatusIsSilent(env: Env, cfg: Config, args: seq<string>, opts: Options, colorOverride: Option<string>,
                               a: State, valid: seq<nat>)
    requires |args| >= 1
    requires PlanCapture(env, cfg, args[0], opts, colorOverride).Ok?
    requires ParseExpectedStatusCodes(ExpectedCodesText(opts.statusCode)) == Ok(valid)
    requires var response := env.response(PlanCapture(env, cfg, args[0], opts, colorOverride).value.job.url);
             response.None? || response.value in valid
    ensures var o := SingleOutcome(env, cfg, args, opts, colorOverride, a);
            o.nodes.Ok? && o.artifacts.warnings == a.warnings
  {
    var job := PlanCapture(env, cfg, args[0], opts, colorOverride).value.job;
    PlanFacts(env, cfg, args[0], opts, colorOverride);
    var response := env.response(job.url);
    assert CheckStatus(job.url, response, job.statusCode) == Ok(None);
    assert CachedOrCaptured(a, job, response).Ok? && CachedOrCaptured(a, job, response).value.warnings == a.warnings;
  }

  // ---------------------------------------------------------------------
  // Artifacts

  /** A fresh capture with `pdf` writes `<digest>.pdf` next to
      `<digest>.png` in the screenshot directory. */
  lemma PdfWrittenNextToImage(env: Env, cfg: Config, args: seq<string>, opts: Options, colorOverride: Option<string>, a: State)
    requires |args| >= 1
    requires opts.pdf
    requires PlanCapture(env, cfg, args[0], opts, colorOverride).Ok?
    requires PlanCapture(env, cfg, args[0], opts, colorOverride).value.job.filepath !in a.files
    requires SingleOutcome(env, cfg, args, opts, colorOverride, a).nodes.Ok?
    ensures var digest := env.md5(HashInput(KeyOf(args[0], ResolveSettings(opts, cfg, colorOverride))));
            var o := SingleOutcome(env, cfg, args, opts, colorOverride, a);
            PathJoin(ScreenshotDir(env.outdir), digest + ".png") in o.artifacts.files &&
            PathJoin(ScreenshotDir(env.outdir), digest) + ".pdf" in o.artifacts.files
  {
    var digest := env.md5(HashInput(KeyOf(args[0], ResolveSettings(opts, cfg, colorOverride))));
    var job := PlanCapture(env, cfg, args[0], opts, colorOverride).value.job;
    PlanFacts(env, cfg, args[0], opts, colorOverride);
    SingleSteps(env, cfg, args, opts, colorOverride, a);
    PdfSibling(ScreenshotDir(env.outdir), digest);
    var after := CachedOrCaptured(a, job, env.response(job.url));
    assert after.Ok?;
    assert after == Captured(a, job, env.response(job.url));
    assert after.value.files == a.files + CaptureOutputs(job.filepath, true);
  }

  /** On success the directive's argument is replaced by a reference that
      ends in the image's name; nothing else in the arguments changes. */
  lemma ReferenceNamesImage(env: Env, cfg: Config, args: seq<string>, opts: Options, colorOverride: Option<string>, a: State)
    requires |args| >= 1
    requires SingleOutcome(env, cfg, args, opts, colorOverride, a).nodes.Ok?
    ensures var digest := env.md5(HashInput(KeyOf(args[0], ResolveSettings(opts, cfg, colorOverride))));
            var o := SingleOutcome(env, cfg, args, opts, colorOverride, a);
            |o.arguments| == |args| && EndsWith(o.arguments[0], digest + ".png") && o.arguments[1..] == args[1..]
  {
    SingleSteps(env, cfg, args, opts, colorOverride, a);
    var p := PlanCapture(env, cfg, args[0], opts, colorOverride);
    assert p.Ok?;
    PlanFacts(env, cfg, args[0], opts, colorOverride);
    var rel := RelativeReference(env.relpath(ScreenshotDir(env.outdir), env.docdir), p.value.filename);
    var o := SingleOutcome(env, cfg, args, opts, colorOverride, a);
    assert o.arguments == args[0 := rel];
    assert o.arguments[1..] == args[1..];
  }

  // ---------------------------------------------------------------------
  // Dual theme

  /** The directive's arguments and options end an `auto` run as they
      started, whether or not a run failed. */
  lemma DualRestoresDirective(env: Env, cfg: Config, args: seq<string>, opts: Options, a: State)
    requires |args| >= 1
    ensures var o := DualOutcome(env, cfg, args, opts, a);
            o.arguments == args && o.options == opts
  {
    var light := SingleOutcome(env, cfg, args, opts, Some("light"), a);
    SingleSteps(env, cfg, args, opts, Some("light"), a);
    if light.nodes.Ok? {
      SingleSteps(env, cfg, args, opts, Some("dark"), light.artifacts);
    }
  }

  /** On success, `auto` shows the light images first, then the dark ones:
      the images the two runs built. */
  lemma DualLightThenDark(env: Env, cfg: Config, args: seq<string>, opts: Options, a: State)
    requires |args| >= 1
    ensures var o := DualOutcome(env, cfg, args, opts, a);
            var light := SingleOutcome(env, cfg, args, opts, Some("light"), a);
            o.nodes.Ok? ==>
              light.nodes.Ok? &&
              var dark := SingleOutcome(env, cfg, args, opts, Some("dark"), light.artifacts);
              dark.nodes.Ok? &&
              |o.nodes.value| == |light.nodes.value| + |dark.nodes.value| &&
              ImageUris(o.nodes.value) == ImageUris(light.nodes.value) + ImageUris(dark.nodes.value)
  {
    var o := DualOutcome(env, cfg, args, opts, a);
    var light := SingleOutcome(env, cfg, args, opts, Some("light"), a);
    if light.nodes.Ok? {
      var dark := SingleOutcome(env, cfg, args, opts, Some("dark"), light.artifacts);
      if dark.nodes.Ok? {
        var l := TagAll(light.nodes.value, "only-light");
        var d := TagAll(dark.nodes.value, "only-dark");
        ImageUrisAppend(l, d);
        TagKeepsImages(light.nodes.value, "only-light");
        TagKeepsImages(dark.nodes.value, "only-dark");
      }
    }
  }
}
