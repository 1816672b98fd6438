/** The URL and POSIX path functions the directive calls: the scheme that
    `urllib.parse.urlparse` reports, and `posixpath.join`, `posixpath.normpath`
    and `posixpath.splitext`. */
module Paths {
  import opened Text

  // ---------------------------------------------------------------------
  // urlparse(url).scheme

  predicate IsAsciiLetter(c: char) {
    'a' <= c <= 'z' || 'A' <= c <= 'Z'
  }

  predicate IsLowerWord(s: string) {
    |s| >= 1 && forall i :: 0 <= i < |s| ==> 'a' <= s[i] <= 'z'
  }

  /** Characters allowed in a URL scheme: letters, digits, `+`, `-` and `.`. */
  predicate IsSchemeChar(c: char) {
    IsAsciiLetter(c) || IsDigit(c) || c == '+' || c == '-' || c == '.'
  }

  function ToLowerAscii(s: string): (r: string)
    ensures |r| == |s|
  {
    seq(|s|, i requires 0 <= i < |s| => if 'A' <= s[i] <= 'Z' then ((s[i] as int) + 32) as char else s[i])
  }

  /** `urlparse(url).scheme`: the lower-cased text before the first `:`
      when it starts with an ASCII letter and consists of scheme characters,
      and the empty string otherwise. */
  function Scheme(url: string): (scheme: string)
    ensures scheme != "" ==> |url| > 0 && IsAsciiLetter(url[0]) && |scheme| < |url|
  {
    var i := IndexOf(url, ':');
    if 0 < i < |url| && IsAsciiLetter(url[0]) && (forall k :: 0 <= k < i ==> IsSchemeChar(url[k]))
    then ToLowerAscii(url[..i])
    else ""
  }

  /** A target starting with anything but a letter (a path such as
      `/static/x.html` or `./x.html`) has no scheme. */
  lemma SchemeOfPath(url: string)
    requires url == [] || !IsAsciiLetter(url[0])
    ensures Scheme(url) == ""
  {
  }

  /** A target without a `:` (a relative path such as `page.html`) has no
      scheme. */
  lemma SchemeWithoutColon(url: string)
    requires ':' !in url
    ensures Scheme(url) == ""
  {
    assert IndexOf(url, ':') == |url|;
  }

  /** `urlparse(w + ":" + rest).scheme == w` for a lower-case word `w`. */
  lemma SchemeOfPrefix(w: string, rest: string)
    requires IsLowerWord(w)
    ensures Scheme(w + ":" + rest) == w
  {
    var url := w + ":" + rest;
    var i := IndexOf(url, ':');
    assert url[|w|] == ':';
    assert url[..i] == w;
    assert ToLowerAscii(w) == w;
  }

  // ---------------------------------------------------------------------
  // posixpath.join(a, b)

  /** `os.path.join(a, b)`: an absolute `b` replaces `a`; otherwise `b` is
      appended after a single `/`. */
  function PathJoin(a: string, b: string): (r: string)
    ensures EndsWith(r, b)
  {
    if |b| > 0 && b[0] == '/' then b
    else if a == "" || a[|a| - 1] == '/' then a + b
    else a + "/" + b
  }

  /** Joining a relative path onto an absolute directory stays absolute. */
  lemma PathJoinAbsolute(a: string, b: string)
    requires StartsWith(a, "/") && (b == "" || b[0] != '/')
    ensures StartsWith(PathJoin(a, b), "/")
  {
    var r := PathJoin(a, b);
    assert r[0] == a[0];
  }

  // ---------------------------------------------------------------------
  // posixpath.normpath(p)

  /** `'/' * k`. */
  function Slashes(k: nat): (s: string)
    ensures |s| == k && forall i :: 0 <= i < k ==> s[i] == '/'
  {
    seq(k, _ => '/')
  }

  /** `k` empty components, as `split('/')` yields for `k` leading slashes. */
  function Empties(k: nat): (s: seq<string>)
    ensures |s| == k && forall i :: 0 <= i < k ==> s[i] == ""
  {
    seq(k, _ => "")
  }

  /** POSIX keeps exactly two leading slashes and folds one, or three or
      more, into one. */
  function InitialSlashes(p: string): (k: nat)
    ensures k <= 2
  {
    if |p| >= 1 && p[0] == '/' then
      if |p| >= 2 && p[1] == '/' && !(|p| >= 3 && p[2] == '/') then 2 else 1
    else 0
  }

  /** One iteration of normpath's loop over components. */
  function NormStep(acc: seq<string>, comp: string, absolute: bool): seq<string> {
    if comp == "" || comp == "." then acc
    else if comp != ".." || (!absolute && acc == []) || (acc != [] && acc[|acc| - 1] == "..") then acc + [comp]
    else if acc != [] then acc[..|acc| - 1]
    else acc
  }

  /** normpath's loop: folds `comps` into the kept components `acc`. */
  function NormComponents(comps: seq<string>, acc: seq<string>, absolute: bool): seq<string>
    decreases |comps|
  {
    if comps == [] then acc
    else NormComponents(comps[1..], NormStep(acc, comps[0], absolute), absolute)
  }

  /** `os.path.normpath(p)`. */
  function NormPath(p: string): (r: string)
    ensures r != ""
  {
    if p == "" then "."
    else
      var k := InitialSlashes(p);
      var q := Slashes(k) + Join(NormComponents(Split(p, '/'), [], k > 0), "/");
      if q == "" then "." else q
  }

  /** A component normpath keeps: not empty, not `.`, and without `/`. */
  predicate NormalComponent(c: string) {
    c != "" && c != "." && '/' !in c
  }

  /** The components normpath produces: normal, `..` only in a leading run,
      and no `..` at all under the root. */
  predicate NormalComponents(cs: seq<string>, absolute: bool) {
    && (forall i :: 0 <= i < |cs| ==> NormalComponent(cs[i]))
    && (forall i, j :: 0 <= i < j < |cs| && cs[j] == ".." ==> cs[i] == "..")
    && (absolute ==> forall i :: 0 <= i < |cs| ==> cs[i] != "..")
  }

  lemma NormStepNormal(acc: seq<string>, comp: string, absolute: bool)
    requires NormalComponents(acc, absolute) && '/' !in comp
    ensures NormalComponents(NormStep(acc, comp, absolute), absolute)
  {
    var r := NormStep(acc, comp, absolute);
    if comp == ".." && acc != [] && acc[|acc| - 1] == ".." {
      assert forall i :: 0 <= i < |acc| ==> acc[i] == "..";
      assert forall i :: 0 <= i < |r| ==> r[i] == "..";
    }
  }

  lemma {:induction false} NormComponentsNormal(comps: seq<string>, acc: seq<string>, absolute: bool)
    requires NormalComponents(acc, absolute)
    requires forall i :: 0 <= i < |comps| ==> '/' !in comps[i]
    ensures NormalComponents(NormComponents(comps, acc, absolute), absolute)
    decreases |comps|
  {
    if comps != [] {
      NormStepNormal(acc, comps[0], absolute);
      NormComponentsNormal(comps[1..], NormStep(acc, comps[0], absolute), absolute);
    }
  }

  /** The loop is a left fold: processing `x + y` is processing `x`, then `y`. */
  lemma {:induction false} NormComponentsAppend(x: seq<string>, y: seq<string>, acc: seq<string>, absolute: bool)
    ensures NormComponents(x + y, acc, absolute) == NormComponents(y, NormComponents(x, acc, absolute), absolute)
    decreases |x|
  {
    if x != [] {
      assert (x + y)[0] == x[0];
      assert (x + y)[1..] == x[1..] + y;
      NormComponentsAppend(x[1..], y, NormStep(acc, x[0], absolute), absolute);
    } else {
      assert x + y == y;
    }
  }

  /** Components that are already normal pass through the loop unchanged. */
  lemma {:induction false} NormComponentsOfNormal(cs: seq<string>, acc: seq<string>, absolute: bool)
    requires NormalComponents(acc + cs, absolute)
    ensures NormComponents(cs, acc, absolute) == acc + cs
    decreases |cs|
  {
    if cs != [] {
      var all := acc + cs;
      assert cs[0] == all[|acc|];
      if cs[0] == ".." && acc != [] {
        assert acc[|acc| - 1] == all[|acc| - 1];
      }
      assert NormStep(acc, cs[0], absolute) == acc + [cs[0]];
      assert (acc + [cs[0]]) + cs[1..] == all;
      NormComponentsOfNormal(cs[1..], acc + [cs[0]], absolute);
    }
  }

  lemma {:induction false} NormComponentsSkipsEmpties(k: nat, x: seq<string>, acc: seq<string>, absolute: bool)
    ensures NormComponents(Empties(k) + x, acc, absolute) == NormComponents(x, acc, absolute)
    decreases k
  {
    if k > 0 {
      assert (Empties(k) + x)[0] == "";
      assert (Empties(k) + x)[1..] == Empties(k - 1) + x;
      NormComponentsSkipsEmpties(k - 1, x, acc, absolute);
    } else {
      assert Empties(k) + x == x;
    }
  }

  lemma {:induction false} SplitLeadingSlashes(k: nat, t: string)
    ensures Split(Slashes(k) + t, '/') == Empties(k) + Split(t, '/')
    decreases k
  {
    if k > 0 {
      assert (Slashes(k) + t)[1..] == Slashes(k - 1) + t;
      SplitLeadingSlashes(k - 1, t);
      assert Empties(k) == [""] + Empties(k - 1);
    } else {
      assert Slashes(k) + t == t;
      assert Empties(k) + Split(t, '/') == Split(t, '/');
    }
  }

  lemma JoinStartsWithFirst(cs: seq<string>, sep: string)
    requires |cs| >= 1 && |cs[0]| >= 1
    ensures |Join(cs, sep)| >= 1 && Join(cs, sep)[0] == cs[0][0]
  {
  }

  /** The shape of a normalised path: `k` slashes followed by normal
      components joined by `/`, and the count `k` is recovered from it. */
  lemma NormPathShape(p: string)
    requires p != ""
    ensures var k := InitialSlashes(p);
            var cs := NormComponents(Split(p, '/'), [], k > 0);
            && NormalComponents(cs, k > 0)
            && (Slashes(k) + Join(cs, "/") != "" ==> InitialSlashes(Slashes(k) + Join(cs, "/")) == k)
            && Split(Slashes(k) + Join(cs, "/"), '/') == Empties(k) + (if cs == [] then [""] else cs)
  {
    var k := InitialSlashes(p);
    var cs := NormComponents(Split(p, '/'), [], k > 0);
    NormComponentsNormal(Split(p, '/'), [], k > 0);
    var q := Slashes(k) + Join(cs, "/");
    SplitLeadingSlashes(k, Join(cs, "/"));
    if cs != [] {
      SplitJoin(cs, '/');
      JoinStartsWithFirst(cs, "/");
      assert q[k] == cs[0][0];
    }
  }

  /** normpath is idempotent: a normalised path is its own normal form. */
  lemma NormPathIdempotent(p: string)
    ensures NormPath(NormPath(p)) == NormPath(p)
  {
    SplitNoSeparator(".", '/');
    if p != "" {
      var k := InitialSlashes(p);
      var cs := NormComponents(Split(p, '/'), [], k > 0);
      var q := Slashes(k) + Join(cs, "/");
      NormPathShape(p);
      if q != "" {
        assert NormPath(p) == q;
        NormComponentsSkipsEmpties(k, if cs == [] then [""] else cs, [], k > 0);
        if cs != [] {
          NormComponentsOfNormal(cs, [], k > 0);
          assert [] + cs == cs;
        }
      }
    }
  }

  /** Under the root, the normal form keeps its leading slash and has no `.`
      or `..` component left: it cannot climb above `/`. */
  lemma NormPathAbsolute(p: string)
    requires StartsWith(p, "/")
    ensures StartsWith(NormPath(p), "/")
    ensures forall c :: c in Split(NormPath(p), '/') ==> c != "." && c != ".."
  {
    var k := InitialSlashes(p);
    var cs := NormComponents(Split(p, '/'), [], k > 0);
    var q := Slashes(k) + Join(cs, "/");
    NormPathShape(p);
    assert k >= 1 && q[0] == '/';
    assert NormPath(p) == q;
    var parts := Empties(k) + (if cs == [] then [""] else cs);
    assert Split(q, '/') == parts;
    forall c | c in parts
      ensures c != "." && c != ".."
    {
      var i :| 0 <= i < |parts| && parts[i] == c;
      if i >= k && cs != [] {
        assert c == cs[i - k];
      }
    }
  }

  lemma InitialSlashesAfterDir(a: string, x: string, y: string)
    requires a != "" && a[|a| - 1] != '/'
    ensures InitialSlashes(a + "/" + x) == InitialSlashes(a + "/" + y)
  {
    var u, v := a + "/" + x, a + "/" + y;
    assert u[0] == v[0] == a[0];
    if |a| >= 2 {
      assert u[1] == v[1] == a[1];
    } else {
      assert u[1] == v[1] == '/';
    }
    if |a| >= 3 {
      assert u[2] == v[2] == a[2];
    } else if |a| == 2 {
      assert u[2] == v[2] == '/';
    }
  }

  /** A `.` segment in the middle of a path is dropped by normpath. */
  lemma NormPathDropsCurrentDir(a: string, b: string)
    requires a != "" && a[|a| - 1] != '/'
    ensures NormPath(a + "/./" + b) == NormPath(a + "/" + b)
  {
    var long, short := a + "/./" + b, a + "/" + b;
    assert long == a + "/" + ("./" + b) == a + ['/'] + (['.'] + ['/'] + b);
    assert short == a + ['/'] + b;
    InitialSlashesAfterDir(a, "./" + b, b);
    var k := InitialSlashes(short);
    assert InitialSlashes(long) == k;
    SplitAtSeparator(a, ['.'] + ['/'] + b, '/');
    SplitAtSeparator(['.'], b, '/');
    SplitNoSeparator(['.'], '/');
    SplitAtSeparator(a, b, '/');
    var sa := Split(a, '/');
    var sb := Split(b, '/');
    assert Split(long, '/') == sa + (["."] + sb);
    assert Split(short, '/') == sa + sb;
    NormComponentsAppend(sa, ["."] + sb, [], k > 0);
    var acc := NormComponents(sa, [], k > 0);
    NormComponentsAppend(["."], sb, acc, k > 0);
    assert NormComponents(["."], acc, k > 0) == NormComponents([], acc, k > 0) == acc;
    NormComponentsAppend(sa, sb, [], k > 0);
    assert NormComponents(Split(long, '/'), [], k > 0) == NormComponents(Split(short, '/'), [], k > 0);
  }

  // ---------------------------------------------------------------------
  // posixpath.splitext(p)

  /** `os.path.splitext(p)`: splits at the last `.` of the last component,
      unless that component consists of dots up to it (a hidden file). */
  function SplitExt(p: string): (r: (string, string))
    ensures r.0 + r.1 == p
  {
    var sepIndex := RFind(p, '/');
    var dotIndex := RFind(p, '.');
    if dotIndex > sepIndex && exists k :: sepIndex < k < dotIndex && p[k] != '.'
    then (p[..dotIndex], p[dotIndex..])
    else (p, "")
  }

  /** A stem without `.` or `/` keeps its extension apart, whatever directory precedes it. */
  lemma SplitExtOfStem(dir: string, stem: string, ext: string)
    requires |stem| >= 1 && '.' !in stem && '/' !in stem
    requires |ext| >= 1 && ext[0] == '.' && '.' !in ext[1..] && '/' !in ext
    ensures SplitExt(dir + stem + ext) == (dir + stem, ext)
  {
    var p := dir + stem + ext;
    var d := |dir| + |stem|;
    assert p[d] == '.';
    assert forall k :: d < k < |p| ==> p[k] == ext[1..][k - d - 1];
    assert RFind(p, '.') == d;
    assert forall k :: |dir| <= k < |p| ==> p[k] != '/' by {
      forall k | |dir| <= k < |p| ensures p[k] != '/' {
        if k < d { assert p[k] == stem[k - |dir|]; } else { assert p[k] == ext[k - d]; }
      }
    }
    var sepIndex := RFind(p, '/');
    assert sepIndex < |dir|;
    assert p[d - 1] == stem[|stem| - 1] != '.';
    assert p[..d] == dir + stem;
    assert p[d..] == ext;
  }
}
