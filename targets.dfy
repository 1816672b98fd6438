/** Where a capture points: the URL a directive's target resolves to, and
    the `module:method` paths naming context builders and WSGI apps. */
module Targets {
  import opened Errors
  import opened Text
  import opened Paths

  /** The schemes a capture accepts. */
  predicate AllowedScheme(scheme: string) {
    scheme == "http" || scheme == "https" || scheme == "file"
  }

  /** The file a scheme-less target names: a root-relative target (leading
      `/`, all leading slashes dropped) under the source directory, any
      other under the document's directory. */
  function LocalPath(target: string, srcdir: string, docdir: string): string {
    if StartsWith(target, "/") then PathJoin(srcdir, LStripChar(target, '/'))
    else PathJoin(docdir, target)
  }

  /** The `file://` URL of the normalised local path. */
  function LocalFileUrl(target: string, srcdir: string, docdir: string): string {
    "file://" + NormPath(LocalPath(target, srcdir, docdir))
  }

  /** The `file://` URL of a local path has the `file` scheme. */
  lemma LocalFileUrlScheme(target: string, srcdir: string, docdir: string)
    ensures Scheme(LocalFileUrl(target, srcdir, docdir)) == "file"
  {
    var rest := "//" + NormPath(LocalPath(target, srcdir, docdir));
    SchemeOfPrefix("file", rest);
    assert LocalFileUrl(target, srcdir, docdir) == "file" + ":" + rest;
  }

  /** Target resolution: a target without a scheme becomes a `file://` URL;
      then any scheme other than http, https or file is rejected (a
      `file://` URL always passes that check). */
  function ResolveTarget(target: string, srcdir: string, docdir: string): (r: Result<string>)
    ensures r.Ok? ==> AllowedScheme(Scheme(r.value))
    ensures Scheme(target) == "" ==> r == Ok(LocalFileUrl(target, srcdir, docdir))
    ensures Scheme(target) != "" && AllowedScheme(Scheme(target)) ==> r == Ok(target)
    ensures r.Err? <==> Scheme(target) != "" && !AllowedScheme(Scheme(target))
    ensures r.Err? ==> r.error == InvalidUrl(target)
  {
    if Scheme(target) == "" then
      LocalFileUrlScheme(target, srcdir, docdir);
      Ok(LocalFileUrl(target, srcdir, docdir))
    else if AllowedScheme(Scheme(target)) then Ok(target)
    else Err(InvalidUrl(target))
  }

  /** Stripping the slashes of `/t` gives `t` when `t` starts otherwise. */
  lemma LStripOneSlash(t: string)
    requires t != "" && t[0] != '/'
    ensures LStripChar("/" + t, '/') == t
  {
    var s := "/" + t;
    var r := LStripChar(s, '/');
    assert s[0] == '/' && s[1] == t[0];
    assert |s| - |r| == 1;
    assert r == s[1..];
  }

  /** The root-relative and the document-relative spelling of the same
      file resolve to the same URL: `/sub/page.html` from the source root
      and `page.html` from a document in `sub`. */
  lemma RootAndDocumentRelativeAgree(srcdir: string, sub: string, file: string)
    requires srcdir != "" && srcdir[|srcdir| - 1] != '/'
    requires sub != "" && sub[0] != '/' && sub[|sub| - 1] != '/'
    requires file != "" && file[0] != '/' && Scheme(file) == ""
    ensures ResolveTarget("/" + sub + "/" + file, srcdir, srcdir + "/" + sub)
            == ResolveTarget(file, srcdir, srcdir + "/" + sub)
  {
    var root := "/" + sub + "/" + file;
    SchemeOfPath(root);
    RootAndDocumentRelativePath(srcdir, sub, file);
    SameLocalPathSameUrl(root, file, srcdir, srcdir + "/" + sub);
  }

  /** Both spellings name the same local file. */
  lemma RootAndDocumentRelativePath(srcdir: string, sub: string, file: string)
    requires srcdir != "" && srcdir[|srcdir| - 1] != '/'
    requires sub != "" && sub[0] != '/' && sub[|sub| - 1] != '/'
    requires file != "" && file[0] != '/'
    ensures LocalPath("/" + sub + "/" + file, srcdir, srcdir + "/" + sub)
            == LocalPath(file, srcdir, srcdir + "/" + sub)
  {
    var docdir := srcdir + "/" + sub;
    var rel := sub + "/" + file;
    var root := "/" + sub + "/" + file;
    assert root == "/" + rel;
    assert StartsWith(root, "/");
    assert LStripChar(root, '/') == rel by {
      LStripOneSlash(rel);
    }
    assert !StartsWith(file, "/");
    assert PathJoin(srcdir, rel) == srcdir + "/" + rel;
    assert PathJoin(docdir, file) == docdir + "/" + file;
    assert srcdir + "/" + rel == docdir + "/" + file;
  }

  /** Two scheme-less targets naming the same local file resolve alike. */
  lemma SameLocalPathSameUrl(t: string, u: string, srcdir: string, docdir: string)
    requires Scheme(t) == "" && Scheme(u) == ""
    requires LocalPath(t, srcdir, docdir) == LocalPath(u, srcdir, docdir)
    ensures ResolveTarget(t, srcdir, docdir) == ResolveTarget(u, srcdir, docdir)
  {
  }

  /** Resolving a scheme-less target against absolute directories gives a
      `file://` URL of an absolute path without `.` or `..` components. */
  lemma LocalFileUrlIsAbsolute(target: string, srcdir: string, docdir: string)
    requires StartsWith(srcdir, "/") && StartsWith(docdir, "/")
    ensures var url := LocalFileUrl(target, srcdir, docdir);
            StartsWith(url, "file:///") &&
            forall c :: c in Split(url[7..], '/') ==> c != "." && c != ".."
  {
    var p := LocalPath(target, srcdir, docdir);
    if StartsWith(target, "/") {
      var t := LStripChar(target, '/');
      PathJoinAbsolute(srcdir, t);
    } else {
      PathJoinAbsolute(docdir, target);
    }
    NormPathAbsolute(p);
    var url := LocalFileUrl(target, srcdir, docdir);
    assert url == "file://" + NormPath(p);
    assert url[7..] == NormPath(p);
  }

  /** `module_path, method_name = import_path.split(":")`: exactly one `:`
      is required. */
  function SplitImportPath(path: string): (r: Result<(string, string)>)
    ensures r.Ok? <==> |Split(path, ':')| == 2
    ensures r.Ok? ==> path == r.value.0 + ":" + r.value.1 && ':' !in r.value.0 && ':' !in r.value.1
    ensures r.Err? ==> r.error == MalformedImportPath(path)
  {
    var parts := Split(path, ':');
    if |parts| == 2 then
      JoinSplit(path, ':');
      Ok((parts[0], parts[1]))
    else Err(MalformedImportPath(path))
  }

  /** A module path and a method name without `:` come back from their path. */
  lemma SplitImportPathRoundTrip(modulePath: string, methodName: string)
    requires ':' !in modulePath && ':' !in methodName
    ensures SplitImportPath(modulePath + ":" + methodName) == Ok((modulePath, methodName))
  {
    SplitAtSeparator(modulePath, methodName, ':');
    SplitNoSeparator(modulePath, ':');
    SplitNoSeparator(methodName, ':');
    assert modulePath + ":" + methodName == modulePath + [':'] + methodName;
  }

  /** The context builder of a capture: none for an empty `context`; the
      configured `module:method` path otherwise, which must exist and split. */
  function ContextBuilder(contexts: map<string, string>, name: string): (r: Result<Option<(string, string)>>)
    ensures name == "" ==> r == Ok(None)
    ensures name != "" && name !in contexts ==> r == Err(UnknownContext(name))
    ensures name != "" && name in contexts ==>
              (r.Ok? <==> SplitImportPath(contexts[name]).Ok?) &&
              (r.Ok? ==> r.value == Some(SplitImportPath(contexts[name]).value))
  {
    if name == "" then Ok(None)
    else if name !in contexts then Err(UnknownContext(name))
    else
      var pair :- SplitImportPath(contexts[name]);
      Ok(Some(pair))
  }
}
