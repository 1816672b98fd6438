/** The request headers of one capture: the build-wide defaults
    (`screenshot_default_headers`) overridden by the directive's
    newline-separated `Name Value` lines. */
module Headers {
  import opened Errors
  import opened Text

  /** `name, value = header.split(" ", 1)`: the line is cut at its first
      space; a line without a space cannot be unpacked. */
  function SplitHeaderLine(line: string): (r: Result<(string, string)>)
    ensures r.Ok? <==> ' ' in line
    ensures r.Ok? ==> ' ' !in r.value.0 && line == r.value.0 + " " + r.value.1
  {
    var i := IndexOf(line, ' ');
    if i == |line| then Err(MalformedHeader(line))
    else
      assert line == line[..i] + " " + line[i + 1..];
      Ok((line[..i], line[i + 1..]))
  }

  /** A name without spaces and any value come back from their line unchanged. */
  lemma SplitHeaderLineRoundTrip(name: string, value: string)
    requires ' ' !in name
    ensures SplitHeaderLine(name + " " + value) == Ok((name, value))
  {
    var line := name + " " + value;
    assert forall k :: 0 <= k < |name| ==> line[k] == name[k];
    assert line[|name|] == ' ';
    assert IndexOf(line, ' ') == |name|;
    assert line[..|name|] == name;
    assert line[|name| + 1..] == value;
  }

  /** The lines of a non-empty `headers` option: `headers.strip().split("\n")`. */
  function HeaderLines(option: string): seq<string> {
    Split(Strip(option), '\n')
  }

  /** Every line as a (name, value) pair; the first line without a space
      is the error. */
  function ParseHeaderLines(lines: seq<string>): Result<seq<(string, string)>>
    decreases |lines|
  {
    if lines == [] then Ok([])
    else
      var init :- ParseHeaderLines(lines[..|lines| - 1]);
      var pair :- SplitHeaderLine(lines[|lines| - 1]);
      Ok(init + [pair])
  }

  /** The lines parse exactly when each has a space, one pair per line, in
      order. */
  lemma {:induction false} ParseHeaderLinesSemantics(lines: seq<string>)
    ensures ParseHeaderLines(lines).Ok? ==> |ParseHeaderLines(lines).value| == |lines|
    ensures ParseHeaderLines(lines).Ok? ==>
              forall i :: 0 <= i < |lines| ==> SplitHeaderLine(lines[i]) == Ok(ParseHeaderLines(lines).value[i])
    ensures ParseHeaderLines(lines).Err? <==> exists i :: 0 <= i < |lines| && ' ' !in lines[i]
    decreases |lines|
  {
    if lines != [] {
      var init := lines[..|lines| - 1];
      ParseHeaderLinesSemantics(init);
      assert forall i :: 0 <= i < |init| ==> init[i] == lines[i];
    }
  }

  /** Once a prefix of the lines fails, all the lines fail with the same error. */
  lemma {:induction false} ParseHeaderLinesPrefixFails(lines: seq<string>, n: nat)
    requires n <= |lines| && ParseHeaderLines(lines[..n]).Err?
    ensures ParseHeaderLines(lines) == ParseHeaderLines(lines[..n])
    decreases |lines| - n
  {
    if n < |lines| {
      assert lines[..n + 1][..n] == lines[..n];
      ParseHeaderLinesPrefixFails(lines, n + 1);
    } else {
      assert lines[..n] == lines;
    }
  }

  /** One more line: its split is appended, or its error is the result. */
  lemma ParseHeaderLinesStep(lines: seq<string>, i: nat, pairs: seq<(string, string)>)
    requires i < |lines| && ParseHeaderLines(lines[..i]) == Ok(pairs)
    ensures SplitHeaderLine(lines[i]).Err? ==> ParseHeaderLines(lines[..i + 1]) == Err(SplitHeaderLine(lines[i]).error)
    ensures SplitHeaderLine(lines[i]).Ok? ==> ParseHeaderLines(lines[..i + 1]) == Ok(pairs + [SplitHeaderLine(lines[i]).value])
  {
    var prefix := lines[..i + 1];
    assert prefix[..i] == lines[..i] && prefix[i] == lines[i];
  }

  /** The headers after writing each pair in order into a copy of `m`. */
  function Override(m: map<string, string>, pairs: seq<(string, string)>): map<string, string>
    decreases |pairs|
  {
    if pairs == [] then m
    else
      var last := pairs[|pairs| - 1];
      Override(m, pairs[..|pairs| - 1])[last.0 := last.1]
  }

  /** Every default and every written name is a key of the result, and
      nothing else is. */
  lemma {:induction false} OverrideKeys(m: map<string, string>, pairs: seq<(string, string)>)
    ensures Override(m, pairs).Keys == m.Keys + set p | p in pairs :: p.0
    decreases |pairs|
  {
    if pairs != [] {
      var init := pairs[..|pairs| - 1];
      var last := pairs[|pairs| - 1];
      OverrideKeys(m, init);
      assert pairs == init + [last];
      assert (set p | p in pairs :: p.0) == (set p | p in init :: p.0) + {last.0};
    }
  }

  /** The last line naming a header decides its value. */
  lemma {:induction false} OverrideLastWins(m: map<string, string>, pairs: seq<(string, string)>, i: nat)
    requires i < |pairs|
    requires forall j :: i < j < |pairs| ==> pairs[j].0 != pairs[i].0
    ensures pairs[i].0 in Override(m, pairs) && Override(m, pairs)[pairs[i].0] == pairs[i].1
    decreases |pairs|
  {
    if i < |pairs| - 1 {
      var init := pairs[..|pairs| - 1];
      assert init[i] == pairs[i];
      OverrideLastWins(m, init, i);
    }
  }

  /** A default that no line names keeps its value. */
  lemma {:induction false} OverrideKeepsDefault(m: map<string, string>, pairs: seq<(string, string)>, k: string)
    requires k in m
    requires forall i :: 0 <= i < |pairs| ==> pairs[i].0 != k
    ensures k in Override(m, pairs) && Override(m, pairs)[k] == m[k]
    decreases |pairs|
  {
    if pairs != [] {
      var init := pairs[..|pairs| - 1];
      assert forall i :: 0 <= i < |init| ==> init[i] == pairs[i];
      OverrideKeepsDefault(m, init, k);
    }
  }

  /** The request headers for a `headers` option (empty when the option is
      absent): the defaults when it is empty, otherwise the defaults
      overridden line by line. */
  function MergedHeaders(defaults: map<string, string>, option: string): (r: Result<map<string, string>>)
    ensures option == "" ==> r == Ok(defaults)
    ensures r.Err? <==> option != "" && exists i :: 0 <= i < |HeaderLines(option)| && ' ' !in HeaderLines(option)[i]
  {
    if option == "" then Ok(defaults)
    else
      ParseHeaderLinesSemantics(HeaderLines(option));
      var pairs :- ParseHeaderLines(HeaderLines(option));
      Ok(Override(defaults, pairs))
  }

  /** The header loop over the option's lines: writes one entry per line
      into the copied defaults. */
  method OverrideLines(defaults: map<string, string>, lines: seq<string>) returns (r: Result<map<string, string>>)
    ensures ParseHeaderLines(lines).Err? ==> r == Err(ParseHeaderLines(lines).error)
    ensures ParseHeaderLines(lines).Ok? ==> r == Ok(Override(defaults, ParseHeaderLines(lines).value))
  {
    var requestHeaders := defaults;
    ghost var pairs: seq<(string, string)> := [];
    var i := 0;
    while i < |lines|
      invariant 0 <= i <= |lines|
      invariant ParseHeaderLines(lines[..i]) == Ok(pairs)
      invariant requestHeaders == Override(defaults, pairs)
    {
      ParseHeaderLinesStep(lines, i, pairs);
      var parsed := SplitHeaderLine(lines[i]);
      if parsed.Err? {
        ParseHeaderLinesPrefixFails(lines, i + 1);
        return Err(parsed.error);
      }
      requestHeaders := requestHeaders[parsed.value.0 := parsed.value.1];
      pairs := pairs + [parsed.value];
      i := i + 1;
    }
    assert lines[..i] == lines;
    r := Ok(requestHeaders);
  }

  /** The header merge of one capture. */
  method MergeHeaders(defaults: map<string, string>, option: string) returns (r: Result<map<string, string>>)
    ensures r == MergedHeaders(defaults, option)
  {
    if option == "" {
      r := Ok(defaults);
    } else {
      r := OverrideLines(defaults, HeaderLines(option));
    }
  }
}
