# sphinxcontrib-screenshot: request resolution of the `screenshot` directive

`sphinxcontrib-screenshot` is a Sphinx extension. Its `screenshot`
directive embeds a browser screenshot of a web page or a local HTML file.
Before the browser runs, the directive does the following:
- expands substitution references `|name|` in its target;
- turns a scheme-less target into a `file://` URL, root-relative against
  the source directory or document-relative against the document's
  directory, and rejects schemes other than http, https and file;
- merges the configured default request headers with the `headers`
  option's `Name Value` lines;
- lets each explicit option override its `screenshot_default_*` value;
- fingerprints the capture by an `_`-joined list of fields and names the
  image after the MD5 digest of that string;
- captures only when that image is not on disk yet, writing a PDF next
  to it when asked;
- checks the page's response status against a comma-separated whitelist
  and logs a warning when the status is not listed;
- replaces its argument by the image's path relative to the document and
  builds a figure from it.

With `color-scheme: auto` it does all this twice, light then dark. It tags
the two node lists `only-light` and `only-dark` and restores its arguments
and options in between. `setup_apps` starts the configured WSGI apps and
adds a `|name|` substitution per app to the prolog, expanding to the app's
local URL.

Two variants are modelled:
- the package `sphinxcontrib/screenshot/__init__.py`, modelled by modules
  `Screenshot` and `ScreenshotProperties`;
- the older single module `sphinxcontrib/screenshot.py`, modelled by
  modules `LegacyScreenshot` and `LegacyProperties`.

The older module has an eight-field fingerprint. It has no device scale
factor, no status whitelist and no `auto` scheme. Both variants share the
modules below:

| module | file | what it models |
|---|---|---|
| `Errors` | `errors.dfy` | `Option`, `Result` and the errors the directive raises (invalid URL, bad status segment, header line without a space, unknown context, malformed `module:method` path) |
| `Text` | `text.dfy` | the Python string operations the code uses: `split`, `join`, `strip`, `lstrip`, `replace`, `str(int)`, `int(str)`, `str(bool)` |
| `Paths` | `paths.dfy` | the scheme `urlparse` finds, and `posixpath.join`, `normpath` and `splitext` |
| `Substitutions` | `substitutions.dfy` | `evaluate_substitutions` |
| `StatusCodes` | `status_codes.dfy` | `parse_expected_status_codes` and the status check of `take_screenshot` |
| `Headers` | `headers.dfy` | the header merge loop |
| `Nodes` | `nodes.dfy` | the node tree and `_add_css_class_to_nodes` |
| `Targets` | `targets.dfy` | target resolution, the `module:method` split and the context lookup |
| `Artifacts` | `artifacts.dfy` | the screenshot directory, image and PDF names, the relative reference, and the build state as a class `ArtifactStore` |
| `Apps` | `apps.dfy` | `setup_apps` (identical in both variants) |

Where the code changes state, the model does too:
- the directive is a class with `arguments` and `options` fields and a
  reference to the build's `ArtifactStore`;
- `setup_apps` updates a class holding `rst_prolog` and `app_threads`;
- loops carry invariants: substitution, the class pass over nodes and
  the app loop are `for` loops, the header loop is a `while` loop.

Each method is proved equal to a specification function (`SingleOutcome`,
`DualOutcome`, `RunOutcome`, `SetupOutcome`, `MergedHeaders`,
`Substituted`, `TagAll`). The properties are lemmas over those functions.

The following stand for code outside the model and are fields of
`Screenshot.Env`:
- `md5`: the MD5 hex digest;
- `relpath`: `os.path.relpath`;
- `response`: the status of the response a URL gives, or none;
- `figure`: the figure construction the directive inherits. It builds
  nodes from the arguments, the figure options and the content block, and
  may consume options.

The set of files already on disk is the `files` field of the
`ArtifactStore`. A capture adds its image (and its PDF) to that set,
appends its job to `captures` and its warning, if any, to `warnings`.

## Model

| member | source | states |
|---|---|---|
| `StatusCodes.ParseSegmentsValues` | sphinxcontrib/screenshot/__init__.py:61 | a successful parse has one code per segment, in order, each the integer value of the whitespace-stripped segment |
| `StatusCodes.ParseSegmentsFails` | sphinxcontrib/screenshot/__init__.py:61 | the parse fails exactly when some segment is not an integer (e.g. empty) |
| `StatusCodes.FormatParseRoundTrip` | sphinxcontrib/screenshot/__init__.py:52-61 | any non-empty list of codes, written comma-separated, parses back to itself |
| `StatusCodes.DefaultStatusCodes` | sphinxcontrib/screenshot/__init__.py:196-199 | the default whitelist `"200,302"` parses to `[200, 302]` |
| `StatusCodes.CheckStatus` | sphinxcontrib/screenshot/__init__.py:196-237 | fails exactly when the whitelist (default `"200,302"`) does not parse; otherwise warns exactly when there is a response whose status is not listed, with the message for that URL, status and unparsed whitelist |
| `StatusCodes.StatusWarningMentions` | sphinxcontrib/screenshot/__init__.py:232-234 | the warning starts with `Page <url>` and contains the actual status and the whitelist as written |
| `StatusCodes.NotFoundWarns` | tests/test_status_code.py:32-34 | a 404 under the default whitelist is warned about, and the warning names 404 and `200,302` |
| `StatusCodes.DefaultCodesPass` | sphinxcontrib/screenshot/__init__.py:196-199 | 200 and 302 pass the default whitelist without a warning |
| `Substitutions.Token` | sphinxcontrib/screenshot/__init__.py:262 | the reference replaced is the name between two bars: two characters longer, a bar at each end, the name in between |
| `Substitutions.EvaluateSubstitutions` | sphinxcontrib/screenshot/__init__.py:259-263 | the loop yields every definition applied in definition order; with no definitions the text is unchanged |
| `Substitutions.SubstitutedAppend` | sphinxcontrib/screenshot/__init__.py:261-262 | definitions are applied in order: applying `a + b` applies `a`, then `b` to its result |
| `Substitutions.SubstitutedUntouched` | sphinxcontrib/screenshot/__init__.py:259-263 | a text containing none of the defined references is returned unchanged |
| `Substitutions.SubstitutedLeadingToken` | sphinxcontrib/screenshot/__init__.py:262 | a leading reference is replaced by its definition's text and the rest is kept |
| `Substitutions.SubstitutedEveryReference` | sphinxcontrib/screenshot/__init__.py:259-263 | every occurrence is replaced, wherever it stands: a text made of bar-free pieces separated by the reference to `name` becomes those pieces separated by the definition's text |
| `Text.ReplaceAfterPrefix` | sphinxcontrib/screenshot/__init__.py:262 | `str.replace` copies a prefix holding no occurrence, replaces the first occurrence and continues after it |
| `Text.ReplaceJoin` | sphinxcontrib/screenshot/__init__.py:262 | `str.replace` on pieces joined by the pattern, none containing the pattern's first character, rejoins them with the replacement |
| `Headers.SplitHeaderLine` | sphinxcontrib/screenshot/__init__.py:352 | succeeds exactly when the line holds a space; the name is the text before the first space and the value the rest |
| `Headers.SplitHeaderLineRoundTrip` | sphinxcontrib/screenshot/__init__.py:352 | a space-free name and any value come back from `name + " " + value` |
| `Headers.ParseHeaderLinesSemantics` | sphinxcontrib/screenshot/__init__.py:351-352 | one pair per line, each the split of that line; an error exactly when some line has no space |
| `Headers.ParseHeaderLinesPrefixFails` | sphinxcontrib/screenshot/__init__.py:351-352 | the first failing line decides the error: lines after it do not matter |
| `Headers.OverrideKeys` | sphinxcontrib/screenshot/__init__.py:349-353 | the merged keys are the default keys plus every header name given |
| `Headers.OverrideLastWins` | sphinxcontrib/screenshot/__init__.py:353 | a header line not overridden by a later one gives its name's value, whatever the defaults say |
| `Headers.OverrideKeepsDefault` | sphinxcontrib/screenshot/__init__.py:349 | a default no line names keeps its value |
| `Headers.MergedHeaders` | sphinxcontrib/screenshot/__init__.py:349-353 | no option gives the defaults; an error exactly when the stripped option has a line without a space |
| `Headers.OverrideLines` | sphinxcontrib/screenshot/__init__.py:349-353 | the loop writes the lines' pairs over the defaults in order, or stops with the first malformed line's error |
| `Headers.MergeHeaders` | sphinxcontrib/screenshot/__init__.py:349-353 | the merge method computes `MergedHeaders` |
| `Targets.ResolveTarget` | sphinxcontrib/screenshot/__init__.py:311-325 | a scheme-less target becomes `file://` plus the normalised local path; a target with http, https or file is kept; an error exactly when the scheme is another non-empty one; a success always has an allowed scheme |
| `Targets.RootAndDocumentRelativeAgree` | tests/test_root.py:53-57 | `/sub/file` from the source root and `file` from a document in `sub` resolve to the same URL, for any relative `file` without a scheme |
| `Targets.RootAndDocumentRelativePath` | sphinxcontrib/screenshot/__init__.py:313-318 | `/sub/file` joined onto the source root and `file` joined onto the document directory `srcdir/sub` name the same local path |
| `Targets.SameLocalPathSameUrl` | sphinxcontrib/screenshot/__init__.py:311-319 | two scheme-less targets naming the same local path resolve to the same URL |
| `Targets.LocalFileUrlIsAbsolute` | sphinxcontrib/screenshot/__init__.py:311-319 | against absolute directories a local target gives `file:///…` with no `.` or `..` component |
| `Targets.SplitImportPath` | sphinxcontrib/screenshot/__init__.py:435 | succeeds exactly when the path has one `:`; the parts rejoin to the path |
| `Targets.SplitImportPathRoundTrip` | sphinxcontrib/screenshot/__init__.py:435 | `module:method` splits back into its two names |
| `Targets.ContextBuilder` | sphinxcontrib/screenshot/__init__.py:367-371 | no context gives no builder; an unknown context is an error; a known one gives its split path or the split's error |
| `Paths.SchemeWithoutColon` | sphinxcontrib/screenshot/__init__.py:311 | a target without a `:`, such as `page.html`, has no scheme and is treated as a path |
| `Paths.NormPathIdempotent` | sphinxcontrib/screenshot/__init__.py:319 | normalising a normalised path changes nothing |
| `Paths.NormPathDropsCurrentDir` | sphinxcontrib/screenshot/__init__.py:319 | a `./` component does not change the normalised path |
| `Paths.SplitExtOfStem` | sphinxcontrib/screenshot/__init__.py:251 | `splitext` of `<dir><stem><.ext>` is the path up to the extension and the extension |
| `Artifacts.ImageName` | sphinxcontrib/screenshot/__init__.py:364 | the image name's stem is the digest and its extension `.png` |
| `Artifacts.PdfPath` | sphinxcontrib/screenshot/__init__.py:251-255 | the PDF path ends in `.pdf` |
| `Artifacts.PdfSibling` | tests/test_pdf.py:30-34 | the PDF of `<dir>/<digest>.png` is `<dir>/<digest>.pdf` |
| `Artifacts.CaptureOutputs` | sphinxcontrib/screenshot/__init__.py:248-255 | a capture writes the image, and the PDF exactly when asked |
| `Artifacts.RelativeReference` | sphinxcontrib/screenshot/__init__.py:385-386 | the reference is the relative directory joined with the file name and ends with the file name |
| `Artifacts.ArtifactStore.constructor` | sphinxcontrib/screenshot/__init__.py:374 | a build starts with the files already on disk and no capture or warning |
| `Artifacts.ArtifactStore.Record` | sphinxcontrib/screenshot/__init__.py:374-383 | a capture adds its files, appends its job and appends its warning, if any |
| `Nodes.TagAll` | sphinxcontrib/screenshot/__init__.py:265-285 | the tagged list keeps its length |
| `Nodes.TagChildren` | sphinxcontrib/screenshot/__init__.py:281-284 | image children get the class appended after their classes; other children are unchanged |
| `Nodes.AddCssClass` | sphinxcontrib/screenshot/__init__.py:265-285 | same length and order; images and figures get the class after their existing ones, image children of figures too, other nodes unchanged |
| `Nodes.TagKeepsImages` | sphinxcontrib/screenshot/__init__.py:265-285 | tagging keeps the images shown and their order |
| `Nodes.TagChildrenKeepsImages` | sphinxcontrib/screenshot/__init__.py:281-284 | tagging a figure's children keeps its images |
| `Nodes.ImageUrisAppend` | sphinxcontrib/screenshot/__init__.py:412 | the images of the joined light and dark lists are the light images, then the dark ones |
| `Screenshot.Fields` | sphinxcontrib/screenshot/__init__.py:356-363 | the fingerprint has exactly ten fields |
| `Screenshot.TakeScreenshot` | sphinxcontrib/screenshot/__init__.py:196-255 | a capture fails with the whitelist's parse error and changes nothing, or records its outputs and warning |
| `Screenshot.ScreenshotDirective.constructor` | sphinxcontrib/screenshot/__init__.py:64 | the directive holds its arguments, options, environment, configuration and build state |
| `Screenshot.ScreenshotDirective.PrepareCapture` | sphinxcontrib/screenshot/__init__.py:307-371 | substitution, resolution, defaulting, header loop, fingerprint and context lookup compute `PlanCapture`, with errors in that order |
| `Screenshot.ScreenshotDirective.CaptureUnlessCached` | sphinxcontrib/screenshot/__init__.py:373-383 | captures exactly when the image is not on disk; a failed capture leaves the build state unchanged |
| `Screenshot.ScreenshotDirective.GenerateSingleScreenshot` | sphinxcontrib/screenshot/__init__.py:287-389 | result, arguments, options and build state are `SingleOutcome` of the old ones |
| `Screenshot.ScreenshotDirective.GenerateDualThemeScreenshots` | sphinxcontrib/screenshot/__init__.py:391-412 | result, arguments, options and build state are `DualOutcome` of the old ones |
| `Screenshot.ScreenshotDirective.Run` | sphinxcontrib/screenshot/__init__.py:414-428 | the two-theme path exactly when the resolved scheme is `auto`, the single path otherwise |
| `ScreenshotProperties.ExplicitOptionsWin` | sphinxcontrib/screenshot/__init__.py:327-348 | each explicit option beats its default; `full-page` is the flag or the default; `pdf` is the flag; a light or dark scheme from the two-theme run beats both |
| `ScreenshotProperties.OneFieldChangesFingerprint` | sphinxcontrib/screenshot/__init__.py:356-363 | keys differing in exactly one of the ten fields have different hash inputs |
| `ScreenshotProperties.TwoFieldsCanCollide` | sphinxcontrib/screenshot/__init__.py:356-363 | the `_` join is not injective: for any strings c, d, e, context `c_d` with interactions `e` and context `c` with interactions `d_e` are different keys with the same hash input |
| `ScreenshotProperties.FingerprintIgnores` | sphinxcontrib/screenshot/__init__.py:356-363 | locale, timezone, headers, `pdf`, the figure options, the init script and the context table do not enter the fingerprint |
| `ScreenshotProperties.CaptionDoesNotChangeImage` | tests/test_it.py:51-54 | two directives differing only in their caption get the same reference and leave the same build state |
| `ScreenshotProperties.RootAndDocumentRelativeShareUrl` | tests/test_root.py:53-57 | root- and document-relative spellings of one file (any relative name without a scheme) capture the same URL under different fingerprints |
| `ScreenshotProperties.DualHalvesUseDifferentNames` | tests/test_color_scheme.py:83-84 | the light and dark halves have different hash inputs |
| `ScreenshotProperties.PlanFacts` | sphinxcontrib/screenshot/__init__.py:364-365 | a plan captures the resolved URL into `<screenshot dir>/<digest>.png`, with `pdf` and the whitelist as given |
| `ScreenshotProperties.CaptureOnlyWhenAbsent` | sphinxcontrib/screenshot/__init__.py:373-383 | an image on disk is reused with the build state untouched; after a success the image is on disk, no file is lost, and a fresh image adds exactly its job |
| `ScreenshotProperties.SingleReusesImage` | sphinxcontrib/screenshot/__init__.py:373-383 | with the image on disk, a directive gives the same nodes, arguments and options in any build state and changes nothing |
| `ScreenshotProperties.SecondRunIsCacheHit` | sphinxcontrib/screenshot/__init__.py:414-428 | running an identical directive again, single or two-theme, returns the same outcome and captures nothing |
| `ScreenshotProperties.MalformedWhitelistFailsOnlyOnMiss` | sphinxcontrib/screenshot/__init__.py:199 | a malformed whitelist fails a directive exactly when its image must be captured, with a segment error and no change |
| `ScreenshotProperties.InvalidSegmentError` | sphinxcontrib/screenshot/__init__.py:61 | a failed whitelist parse reports a segment |
| `ScreenshotProperties.UnexpectedStatusIsLogged` | sphinxcontrib/screenshot/__init__.py:231-237 | a fresh capture answered outside the whitelist logs the warning for that status and still succeeds |
| `ScreenshotProperties.ExpectedStatusIsSilent` | sphinxcontrib/screenshot/__init__.py:231 | no response, or a listed status, logs nothing |
| `ScreenshotProperties.PdfWrittenNextToImage` | sphinxcontrib/screenshot/__init__.py:249-255 | a fresh capture with `pdf` writes `<digest>.pdf` next to `<digest>.png` |
| `ScreenshotProperties.ReferenceNamesImage` | sphinxcontrib/screenshot/__init__.py:385-388 | the first argument becomes a reference ending in `<digest>.png`; other arguments stay |
| `ScreenshotProperties.DualRestoresDirective` | sphinxcontrib/screenshot/__init__.py:391-412 | arguments and options end an `auto` run as they started, whether or not a run failed |
| `ScreenshotProperties.DualLightThenDark` | sphinxcontrib/screenshot/__init__.py:391-412 | on success both runs succeeded, and the images are the light run's, then the dark run's |
| `Apps.AppUrl` | sphinxcontrib/screenshot/__init__.py:449 | the app URL has scheme http |
| `Apps.AppRegistry.constructor` | sphinxcontrib/screenshot/__init__.py:431 | the registry starts with the given prolog and no app |
| `Apps.AppRegistry.SetupApps` | sphinxcontrib/screenshot/__init__.py:441-455 | the loop leaves the prolog, running apps and error of `SetupOutcome` |
| `Apps.SetupExtendsProlog` | sphinxcontrib/screenshot/__init__.py:447-449 | the old prolog stays a prefix; with no apps it is unchanged |
| `Apps.SetupFailsOnMalformedPath` | sphinxcontrib/screenshot/__init__.py:450 | the loop fails exactly when some app's path does not split into `module:method` |
| `Apps.SetupReportsFirstMalformedPath` | sphinxcontrib/screenshot/__init__.py:450 | a failed loop reports the first app whose path does not split |
| `Apps.SetupStartsEveryApp` | sphinxcontrib/screenshot/__init__.py:445-455 | when all paths split (and names, being dictionary keys, are distinct), the loop succeeds and each app runs on the port picked for it |
| `Apps.SetupKeepsOtherEntries` | sphinxcontrib/screenshot/__init__.py:445-455 | an app thread no configured app is named after is kept, whether or not the loop fails |
| `Apps.SetupAddsOnlyApps` | sphinxcontrib/screenshot/__init__.py:445-455 | every running app ran before or is a configured one |
| `Apps.AppTargetResolves` | sphinxcontrib/screenshot/__init__.py:447-449 | the prolog line defines the app's substitution reference, and that reference followed by a path expands and resolves to `http://localhost:<port>` followed by the path |
| `LegacyScreenshot.Fields` | sphinxcontrib/screenshot.py:258-263 | the fingerprint has exactly eight fields |
| `LegacyScreenshot.TakeScreenshot` | sphinxcontrib/screenshot.py:186-193 | a capture writes the image, and the PDF next to it when asked, without a warning |
| `LegacyScreenshot.ScreenshotDirective.constructor` | sphinxcontrib/screenshot.py:47 | the directive holds its arguments, options, environment, configuration and build state |
| `LegacyScreenshot.ScreenshotDirective.PrepareCapture` | sphinxcontrib/screenshot.py:211-271 | substitution, resolution, defaulting, header loop, fingerprint and context lookup compute `PlanCapture`, with errors in that order |
| `LegacyScreenshot.ScreenshotDirective.Run` | sphinxcontrib/screenshot.py:203-288 | result, arguments, options and build state are `RunOutcome` of the old ones |
| `LegacyProperties.ExplicitOptionsWin` | sphinxcontrib/screenshot.py:232-249 | each explicit option beats its default; `full-page` is the flag or the default; `pdf` is the flag |
| `LegacyProperties.OneFieldChangesFingerprint` | sphinxcontrib/screenshot.py:258-263 | keys differing in exactly one of the eight fields have different hash inputs |
| `LegacyProperties.FingerprintIgnores` | sphinxcontrib/screenshot.py:258-263 | locale, timezone, headers, `pdf`, the figure options, the init script and the context table do not enter the fingerprint |
| `LegacyProperties.PackageExtendsFingerprint` | sphinxcontrib/screenshot.py:258-263 | the eight-field input followed by `_<scale>_<whitelist>` is the package's ten-field input |
| `LegacyProperties.PlanFacts` | sphinxcontrib/screenshot.py:264-265 | a plan captures the resolved URL into `<screenshot dir>/<digest>.png`, with `pdf` as given |
| `LegacyProperties.RunFailsOnlyWhenPlanning` | sphinxcontrib/screenshot.py:215-271 | a directive fails exactly when resolution, headers or context fail, and then changes nothing |
| `LegacyProperties.CaptureOnlyWhenAbsent` | sphinxcontrib/screenshot.py:273-281 | an image on disk is reused with the build state untouched; otherwise it is captured once; nothing is lost and nothing is logged |
| `LegacyProperties.SecondRunIsCacheHit` | sphinxcontrib/screenshot.py:273-288 | running an identical directive again returns the same outcome and captures nothing |
| `LegacyProperties.ReferenceNamesImage` | sphinxcontrib/screenshot.py:283-287 | the first argument becomes the relative reference ending in `<digest>.png`; other arguments stay |
| `LegacyProperties.PdfWrittenNextToImage` | sphinxcontrib/screenshot.py:189-193 | a fresh capture with `pdf` writes `<digest>.pdf` next to `<digest>.png` |

## Left out

- Browser work in `take_screenshot` is not modelled: launching, contexts, navigation, scripts, waits, rendering and timeout errors all belong to Playwright. A capture is an abstract action that writes its files.
- The thread pool and `fut.result()` are not modelled; captures run one after the other.
- MD5 is an uninterpreted function `Env.md5` into 32-hex-digit strings. Digest distinctness is never assumed, only the distinctness of hash inputs.
- Filesystem I/O is not modelled: `os.makedirs`, `copy_static_files` and the `os.path.exists` call beyond membership in the store's file set.
- `teardown_apps` is not modelled; neither are the WSGI servers, threads and `pick_unused_port`. The ports are an input to `SetupApps`.
- The importlib/`getattr` part of `resolve_python_method` and the call of the app builder are not modelled, only the `module:method` split.
- `super().run()` (the docutils figure construction) is the abstract function `Env.figure`.
- `os.path.relpath` is the abstract function `Env.relpath`, and `os.path.dirname(doc2path(docname))` is the input `Env.docdir`.
- The response status is `Env.response`, a function of the URL alone; a page answering differently on different loads is not modelled.
- Nodes are values. The in-place update of `node['classes']` and any aliasing between node objects are not modelled.
- `Text.ParseNat`: accepts plain ASCII digits only. Python's `int` also accepts a sign, underscores and other Unicode digits.
- `Text.Strip`: strips ASCII whitespace only, not all Unicode whitespace.
- `Paths.Scheme`: it follows `urlparse`'s scheme rule. The stripping of leading C0 control characters and spaces, and the removal of tabs and newlines, are not modelled.
- `positive_int` validation of the viewport options is not modelled: sizes are any `nat`.
- `os.sep` is `/` (POSIX); Windows separators are not modelled.
- The substitution definitions are `(name, text)` pairs; the docutils nodes they come from are not modelled.
