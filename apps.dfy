/** `setup_apps`: each configured WSGI app gets a port and a substitution
    `|name|` in the reStructuredText prolog that expands to its local URL,
    so a directive can point at `|name|/page`. The servers themselves are
    not modelled; an app is recorded by the port it listens on. */
module Apps {
  import opened Errors
  import opened Text
  import opened Paths
  import opened Substitutions
  import opened Targets

  /** The URL an app listening on `port` is reachable at. */
  function AppUrl(port: nat): (url: string)
    ensures Scheme(url) == "http"
  {
    var rest := "//localhost:" + NatToString(port);
    SchemeOfPrefix("http", rest);
    "http" + ":" + rest
  }

  /** The prolog line defining the app's substitution. */
  function PrologLine(name: string, port: nat): string {
    "\n.. " + Token(name) + " replace:: " + AppUrl(port) + "\n"
  }

  /** The state `setup_apps` leaves: the prolog, the running apps by name
      (each by its port), and the error that stopped the loop, if any. */
  datatype Setup = Setup(prolog: Option<string>, threads: map<string, nat>, error: Option<Error>)

  /** The apps in configuration order, each with the port picked for it.
      An app's line is appended before its import path is split, so a
      malformed path stops the loop with that app's line already in the
      prolog but without the app running. */
  function SetupOutcome(apps: seq<(string, string)>, ports: seq<nat>, prolog: Option<string>, threads: map<string, nat>): Setup
    requires |ports| == |apps|
    decreases |apps|
  {
    if apps == [] then Setup(prolog, threads, None)
    else
      var extended := Some(prolog.GetOr("") + PrologLine(apps[0].0, ports[0]));
      match SplitImportPath(apps[0].1)
      case Err(e) => Setup(extended, threads, Some(e))
      case Ok(_) => SetupOutcome(apps[1..], ports[1..], extended, threads[apps[0].0 := ports[0]])
  }

  /** The Python names `config.rst_prolog` and the module-level
      `app_threads`, as far as `setup_apps` changes them. */
  class AppRegistry {
    var rstProlog: Option<string>
    var appThreads: map<string, nat>

    constructor (prolog: Option<string>)
      ensures rstProlog == prolog && appThreads == map[]
    {
      rstProlog := prolog;
      appThreads := map[];
    }

    /** `setup_apps`, with `ports[i]` the port picked for `apps[i]`. */
    method SetupApps(apps: seq<(string, string)>, ports: seq<nat>) returns (error: Option<Error>)
      requires |ports| == |apps|
      modifies this
      ensures Setup(rstProlog, appThreads, error) == SetupOutcome(apps, ports, old(rstProlog), old(appThreads))
    {
      error := None;
      for i := 0 to |apps|
        invariant SetupOutcome(apps[i..], ports[i..], rstProlog, appThreads)
                  == SetupOutcome(apps, ports, old(rstProlog), old(appThreads))
      {
        assert apps[i..][0] == apps[i] && ports[i..][0] == ports[i];
        assert apps[i..][1..] == apps[i + 1..] && ports[i..][1..] == ports[i + 1..];
        var name := apps[i].0;
        rstProlog := Some(rstProlog.GetOr("") + PrologLine(name, ports[i]));
        var builder := SplitImportPath(apps[i].1);
        if builder.Err? {
          return Some(builder.error);
        }
        appThreads := appThreads[name := ports[i]];
      }
    }
  }

  /** The prolog only grows: whatever it held stays its prefix, and with
      no apps configured it is left exactly as it was. */
  lemma {:induction false} SetupExtendsProlog(apps: seq<(string, string)>, ports: seq<nat>, prolog: Option<string>, threads: map<string, nat>)
    requires |ports| == |apps|
    ensures var r := SetupOutcome(apps, ports, prolog, threads);
            StartsWith(r.prolog.GetOr(""), prolog.GetOr("")) &&
            (apps == [] ==> r.prolog == prolog)
    decreases |apps|
  {
    if apps != [] {
      var extended := Some(prolog.GetOr("") + PrologLine(apps[0].0, ports[0]));
      if SplitImportPath(apps[0].1).Ok? {
        var threads' := threads[apps[0].0 := ports[0]];
        SetupExtendsProlog(apps[1..], ports[1..], extended, threads');
      }
    }
  }

  /** The loop fails exactly when some app's import path does not split
      into `module:method`. */
  lemma {:induction false} SetupFailsOnMalformedPath(apps: seq<(string, string)>, ports: seq<nat>, prolog: Option<string>, threads: map<string, nat>)
    requires |ports| == |apps|
    ensures SetupOutcome(apps, ports, prolog, threads).error.Some? <==>
            exists i :: 0 <= i < |apps| && SplitImportPath(apps[i].1).Err?
    decreases |apps|
  {
    if apps != [] && SplitImportPath(apps[0].1).Ok? {
      var extended := Some(prolog.GetOr("") + PrologLine(apps[0].0, ports[0]));
      var threads' := threads[apps[0].0 := ports[0]];
      var rest := apps[1..];
      SetupFailsOnMalformedPath(rest, ports[1..], extended, threads');
      assert SetupOutcome(apps, ports, prolog, threads) == SetupOutcome(rest, ports[1..], extended, threads');
      if exists i :: 0 <= i < |apps| && SplitImportPath(apps[i].1).Err? {
        var i :| 0 <= i < |apps| && SplitImportPath(apps[i].1).Err?;
        assert rest[i - 1] == apps[i];
      }
      if exists k :: 0 <= k < |rest| && SplitImportPath(rest[k].1).Err? {
        var k :| 0 <= k < |rest| && SplitImportPath(rest[k].1).Err?;
        assert rest[k] == apps[k + 1];
      }
    }
  }

  /** A failed loop reports the first app whose import path does not split. */
  lemma {:induction false} SetupReportsFirstMalformedPath(apps: seq<(string, string)>, ports: seq<nat>, prolog: Option<string>, threads: map<string, nat>)
    requires |ports| == |apps|
    requires SetupOutcome(apps, ports, prolog, threads).error.Some?
    ensures exists i :: 0 <= i < |apps| &&
                        SetupOutcome(apps, ports, prolog, threads).error == Some(MalformedImportPath(apps[i].1)) &&
                        forall j :: 0 <= j < i ==> SplitImportPath(apps[j].1).Ok?
    decreases |apps|
  {
    if SplitImportPath(apps[0].1).Ok? {
      var extended := Some(prolog.GetOr("") + PrologLine(apps[0].0, ports[0]));
      var threads' := threads[apps[0].0 := ports[0]];
      var rest := apps[1..];
      var r := SetupOutcome(apps, ports, prolog, threads);
      assert r == SetupOutcome(rest, ports[1..], extended, threads');
      SetupReportsFirstMalformedPath(rest, ports[1..], extended, threads');
      var k :| 0 <= k < |rest| && r.error == Some(MalformedImportPath(rest[k].1)) &&
               forall j :: 0 <= j < k ==> SplitImportPath(rest[j].1).Ok?;
      assert rest[k] == apps[k + 1];
      forall j | 0 <= j < k + 1
        ensures SplitImportPath(apps[j].1).Ok?
      {
        if j > 0 {
          assert rest[j - 1] == apps[j];
        }
      }
    } else {
      assert SetupOutcome(apps, ports, prolog, threads).error == Some(MalformedImportPath(apps[0].1));
    }
  }

  /** When every path splits, every app runs on the port picked for it
      (names are the keys of a dictionary, hence distinct). */
  lemma {:induction false} SetupStartsEveryApp(apps: seq<(string, string)>, ports: seq<nat>, prolog: Option<string>, threads: map<string, nat>)
    requires |ports| == |apps|
    requires forall i, j :: 0 <= i < j < |apps| ==> apps[i].0 != apps[j].0
    requires forall i :: 0 <= i < |apps| ==> SplitImportPath(apps[i].1).Ok?
    ensures var r := SetupOutcome(apps, ports, prolog, threads);
            r.error.None? &&
            forall i :: 0 <= i < |apps| ==> apps[i].0 in r.threads && r.threads[apps[i].0] == ports[i]
    decreases |apps|
  {
    if apps != [] {
      var extended := Some(prolog.GetOr("") + PrologLine(apps[0].0, ports[0]));
      var threads' := threads[apps[0].0 := ports[0]];
      var rest := apps[1..];
      forall i | 0 <= i < |rest| ensures SplitImportPath(rest[i].1).Ok? {
        assert rest[i] == apps[i + 1];
      }
      forall i, j | 0 <= i < j < |rest| ensures rest[i].0 != rest[j].0 {
        assert rest[i] == apps[i + 1] && rest[j] == apps[j + 1];
      }
      SetupStartsEveryApp(rest, ports[1..], extended, threads');
      var r := SetupOutcome(apps, ports, prolog, threads);
      assert r == SetupOutcome(rest, ports[1..], extended, threads');
      forall i | 0 <= i < |apps|
        ensures apps[i].0 in r.threads && r.threads[apps[i].0] == ports[i]
      {
        if i == 0 {
          forall k | 0 <= k < |rest| ensures rest[k].0 != apps[0].0 {
            assert rest[k] == apps[k + 1];
          }
          SetupKeepsOtherEntries(rest, ports[1..], extended, threads', apps[0].0);
        } else {
          assert rest[i - 1] == apps[i] && ports[1..][i - 1] == ports[i];
        }
      }
    }
  }

  /** An entry no app is named after keeps its value, whether or not the
      loop fails. */
  lemma {:induction false} SetupKeepsOtherEntries(apps: seq<(string, string)>, ports: seq<nat>, prolog: Option<string>,
                                                  threads: map<string, nat>, name: string)
    requires |ports| == |apps|
    requires name in threads
    requires forall i :: 0 <= i < |apps| ==> apps[i].0 != name
    ensures var r := SetupOutcome(apps, ports, prolog, threads);
            name in r.threads && r.threads[name] == threads[name]
    decreases |apps|
  {
    if apps != [] && SplitImportPath(apps[0].1).Ok? {
      var extended := Some(prolog.GetOr("") + PrologLine(apps[0].0, ports[0]));
      var rest := apps[1..];
      forall k | 0 <= k < |rest| ensures rest[k].0 != name {
        assert rest[k] == apps[k + 1];
      }
      SetupKeepsOtherEntries(rest, ports[1..], extended, threads[apps[0].0 := ports[0]], name);
    }
  }

  /** Every running app is either one that ran before or a configured one. */
  lemma {:induction false} SetupAddsOnlyApps(apps: seq<(string, string)>, ports: seq<nat>, prolog: Option<string>, threads: map<string, nat>)
    requires |ports| == |apps|
    ensures var r := SetupOutcome(apps, ports, prolog, threads);
            forall n :: n in r.threads ==> n in threads || exists i :: 0 <= i < |apps| && apps[i].0 == n
    decreases |apps|
  {
    if apps != [] && SplitImportPath(apps[0].1).Ok? {
      var extended := Some(prolog.GetOr("") + PrologLine(apps[0].0, ports[0]));
      var threads' := threads[apps[0].0 := ports[0]];
      var rest := apps[1..];
      SetupAddsOnlyApps(rest, ports[1..], extended, threads');
      var r := SetupOutcome(apps, ports, prolog, threads);
      assert r == SetupOutcome(rest, ports[1..], extended, threads');
      forall n | n in r.threads
        ensures n in threads || exists i :: 0 <= i < |apps| && apps[i].0 == n
      {
        if n !in threads' {
          var k :| 0 <= k < |rest| && rest[k].0 == n;
          assert apps[k + 1].0 == n;
        } else if n != apps[0].0 {
          assert n in threads;
        }
      }
    }
  }

  /** The line an app adds defines its reference: a directive target
      `|name|` followed by a path, expanded with that definition, resolves
      to the app's local URL followed by the path. */
  lemma AppTargetResolves(name: string, port: nat, path: string, srcdir: string, docdir: string)
    requires !Contains(path, Token(name))
    ensures StartsWith(PrologLine(name, port), "\n.. " + Token(name) + " replace:: ")
    ensures ResolveTarget(Substituted([(name, AppUrl(port))], Token(name) + path), srcdir, docdir)
            == Ok(AppUrl(port) + path)
  {
    SubstitutedLeadingToken(name, AppUrl(port), path);
    var rest := "//localhost:" + NatToString(port) + path;
    SchemeOfPrefix("http", rest);
    assert AppUrl(port) + path == "http" + ":" + rest;
  }
}
