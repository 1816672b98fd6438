/** The files a capture produces and the build state they live in: the
    screenshot directory, the digest-named image, its PDF sibling, the
    reference the document uses, and the set of files already on disk. */
module Artifacts {
  import opened Errors
  import opened Text
  import opened Paths

  predicate IsHexDigit(c: char) {
    '0' <= c <= '9' || 'a' <= c <= 'f'
  }

  /** What `hexdigest()` of an MD5 hash looks like: 32 lower-case hex digits. */
  predicate IsHexDigest(s: string) {
    |s| == 32 && forall i :: 0 <= i < |s| ==> IsHexDigit(s[i])
  }

  type Digest = s: string | IsHexDigest(s) witness "00000000000000000000000000000000"

  /** `<outdir>/_static/screenshots`. */
  function ScreenshotDir(outdir: string): string {
    PathJoin(PathJoin(outdir, "_static"), "screenshots")
  }

  /** The image file name, `<digest>.png`: its stem is the digest. */
  function ImageName(digest: Digest): (name: string)
    ensures SplitExt(name) == (digest, ".png")
  {
    SplitExtOfStem("", digest, ".png");
    assert "" + digest + ".png" == digest + ".png";
    digest + ".png"
  }

  /** The PDF path `take_screenshot` derives from the image path: the same
      root with `.pdf` in place of the extension. */
  function PdfPath(filepath: string): (r: string)
    ensures EndsWith(r, ".pdf")
  {
    SplitExt(filepath).0 + ".pdf"
  }

  /** The PDF of a capture sits next to its image, under the same digest. */
  lemma PdfSibling(dir: string, digest: Digest)
    ensures PdfPath(PathJoin(dir, ImageName(digest))) == PathJoin(dir, digest) + ".pdf"
  {
    assert digest[0] != '/';
    var prefix := if dir == "" || dir[|dir| - 1] == '/' then dir else dir + "/";
    assert PathJoin(dir, ImageName(digest)) == prefix + digest + ".png";
    assert PathJoin(dir, digest) == prefix + digest;
    SplitExtOfStem(prefix, digest, ".png");
  }

  /** The files one capture writes: the image, and the PDF when asked for. */
  function CaptureOutputs(filepath: string, pdf: bool): (files: set<string>)
    ensures filepath in files
    ensures pdf ==> PdfPath(filepath) in files
    ensures !pdf ==> files == {filepath}
  {
    if pdf then {filepath, PdfPath(filepath)} else {filepath}
  }

  /** The reference the document's image points at: the image path relative
      to the document's directory, with the platform separator turned into
      `/` (which, on POSIX, changes nothing). */
  function RelativeReference(relDir: string, filename: string): (r: string)
    ensures r == PathJoin(relDir, filename)
    ensures EndsWith(r, filename)
  {
    ReplaceBySelf(PathJoin(relDir, filename), "/");
    ReplaceAll(PathJoin(relDir, filename), "/", "/")
  }

  /** Build state a capture changes: the files on disk, the captures
      submitted (each described by the job it ran), and the warnings
      logged, in order. */
  datatype Artifacts<J> = Artifacts(files: set<string>, captures: seq<J>, warnings: seq<string>)

  /** The state after one capture that wrote `outputs` and may have logged
      a warning. */
  function Recorded<J>(a: Artifacts<J>, outputs: set<string>, job: J, warning: Option<string>): Artifacts<J> {
    Artifacts(a.files + outputs, a.captures + [job], a.warnings + if warning.Some? then [warning.value] else [])
  }

  /** The build's output directory and log, as far as captures touch them. */
  class ArtifactStore<J> {
    var files: set<string>
    var captures: seq<J>
    var warnings: seq<string>

    function State(): Artifacts<J>
      reads this
    {
      Artifacts(files, captures, warnings)
    }

    /** A build starting over an output directory that already holds `existing`. */
    constructor (existing: set<string>)
      ensures State() == Artifacts(existing, [], [])
    {
      files := existing;
      captures := [];
      warnings := [];
    }

    /** `os.path.exists(path)`. */
    function Exists(path: string): bool
      reads this
    {
      path in files
    }

    /** A finished capture: its files are written and its warning logged. */
    method Record(outputs: set<string>, job: J, warning: Option<string>)
      modifies this
      ensures State() == Recorded(old(State()), outputs, job, warning)
    {
      if warning.Some? {
        warnings := warnings + [warning.value];
      }
      files := files + outputs;
      captures := captures + [job];
    }
  }
}
