/** The expected-status whitelist of a capture and the warning raised when
    the page answers with another status. */
module StatusCodes {
  import opened Errors
  import opened Text

  /** The whitelist used when neither the directive nor the configuration
      gives one: OK and redirect. */
  const DefaultExpectedStatusCodes: string := "200,302"

  /** `int(code.strip())` for every segment, in order; the first segment
      that is not a decimal number is the error. */
  function ParseSegments(segments: seq<string>): Result<seq<nat>>
    decreases |segments|
  {
    if segments == [] then Ok([])
    else
      match ParseNat(Strip(segments[0]))
      case None => Err(InvalidStatusCode(segments[0]))
      case Some(code) =>
        var rest :- ParseSegments(segments[1..]);
        Ok([code] + rest)
  }

  /** A successful parse has one code per segment, in order, each the
      value of the stripped segment. */
  lemma {:induction false} ParseSegmentsValues(segments: seq<string>)
    requires ParseSegments(segments).Ok?
    ensures var codes := ParseSegments(segments).value;
            |codes| == |segments| &&
            forall i :: 0 <= i < |segments| ==> ParseNat(Strip(segments[i])) == Some(codes[i])
    decreases |segments|
  {
    if segments != [] {
      var rest := segments[1..];
      var head := ParseNat(Strip(segments[0]));
      var tail := ParseSegments(rest);
      assert head.Some? && tail.Ok?;
      ParseSegmentsValues(rest);
      var codes := ParseSegments(segments).value;
      assert codes == [head.value] + tail.value;
      forall i | 0 <= i < |segments|
        ensures ParseNat(Strip(segments[i])) == Some(codes[i])
      {
        if i > 0 {
          assert segments[i] == rest[i - 1];
        }
      }
    }
  }

  /** The parse fails exactly when some segment is not a number. */
  lemma {:induction false} ParseSegmentsFails(segments: seq<string>)
    ensures ParseSegments(segments).Err? <==> exists i :: 0 <= i < |segments| && ParseNat(Strip(segments[i])).None?
    decreases |segments|
  {
    if segments != [] {
      var rest := segments[1..];
      ParseSegmentsFails(rest);
      if ParseNat(Strip(segments[0])).Some? {
        assert ParseSegments(segments).Err? <==> ParseSegments(rest).Err?;
        if exists k :: 0 <= k < |rest| && ParseNat(Strip(rest[k])).None? {
          var k :| 0 <= k < |rest| && ParseNat(Strip(rest[k])).None?;
          assert segments[k + 1] == rest[k];
        }
        if exists i :: 0 <= i < |segments| && ParseNat(Strip(segments[i])).None? {
          var i :| 0 <= i < |segments| && ParseNat(Strip(segments[i])).None?;
          assert rest[i - 1] == segments[i];
        }
      }
    }
  }

  /** `parse_expected_status_codes`: the comma-separated codes, blanks
      around each code allowed. */
  function ParseExpectedStatusCodes(codes: string): Result<seq<nat>> {
    ParseSegments(Split(codes, ','))
  }

  /** The codes written back as a comma-separated string. */
  function FormatStatusCodes(codes: seq<nat>): string {
    Join(seq(|codes|, i requires 0 <= i < |codes| => NatToString(codes[i])), ",")
  }

  /** Segments that each parse to the corresponding code parse to the codes. */
  lemma ParseSegmentsAll(segments: seq<string>, codes: seq<nat>)
    requires |segments| == |codes|
    requires forall i :: 0 <= i < |segments| ==> ParseNat(Strip(segments[i])) == Some(codes[i])
    ensures ParseSegments(segments) == Ok(codes)
  {
    ParseSegmentsFails(segments);
    assert !exists i :: 0 <= i < |segments| && ParseNat(Strip(segments[i])).None?;
    var r := ParseSegments(segments);
    ParseSegmentsValues(segments);
    assert r.Ok? && |r.value| == |codes|;
    forall i | 0 <= i < |codes|
      ensures r.value[i] == codes[i]
    {
      assert ParseNat(Strip(segments[i])) == Some(codes[i]);
    }
    assert r.value == codes;
  }

  /** Any non-empty whitelist survives being written out and parsed back. */
  lemma FormatParseRoundTrip(codes: seq<nat>)
    requires |codes| >= 1
    ensures ParseExpectedStatusCodes(FormatStatusCodes(codes)) == Ok(codes)
  {
    var strs := seq(|codes|, i requires 0 <= i < |codes| => NatToString(codes[i]));
    forall i | 0 <= i < |strs|
      ensures ',' !in strs[i]
      ensures ParseNat(Strip(strs[i])) == Some(codes[i])
    {
      assert AllDigits(strs[i]);
      StripUnpadded(strs[i]);
      ParseNatToString(codes[i]);
    }
    SplitJoin(strs, ',');
    ParseSegmentsAll(strs, codes);
  }

  /** `str(200)` and `str(302)`. */
  lemma DefaultCodesText()
    ensures NatToString(200) == "200" && NatToString(302) == "302"
  {
    assert NatToString(20) == NatToString(2) + [DigitChar(0)];
    assert NatToString(200) == NatToString(20) + [DigitChar(0)];
    assert NatToString(30) == NatToString(3) + [DigitChar(0)];
    assert NatToString(302) == NatToString(30) + [DigitChar(2)];
  }

  /** The two default segments parse to 200 and 302. */
  lemma DefaultSegmentsParse(first: string, second: string)
    requires first == "200" && second == "302"
    ensures ParseSegments([first, second]) == Ok([200, 302])
  {
    DefaultCodesText();
    StripUnpadded(first);
    ParseNatToString(200);
    StripUnpadded(second);
    ParseNatToString(302);
    ParseSegmentsAll([first, second], [200, 302]);
  }

  /** The default whitelist text parses to 200 and 302. */
  lemma DefaultTextParses(text: string)
    requires text == DefaultExpectedStatusCodes
    ensures ParseExpectedStatusCodes(text) == Ok([200, 302])
  {
    var first, second := NatToString(200), NatToString(302);
    DefaultCodesText();
    assert Join([first, second], [',']) == text by {
      assert [first, second][1..] == [second];
    }
    SplitJoin([first, second], ',');
    DefaultSegmentsParse(first, second);
  }

  /** Without a whitelist a capture accepts 200 and 302. */
  lemma DefaultStatusCodes()
    ensures ParseExpectedStatusCodes(DefaultExpectedStatusCodes) == Ok([200, 302])
  {
    DefaultTextParses(DefaultExpectedStatusCodes);
  }

  /** The whitelist text in force: the directive's `status-code` option,
      else the default `200,302`. */
  function ExpectedCodesText(expected: Option<string>): string {
    expected.GetOr(DefaultExpectedStatusCodes)
  }

  /** The warning logged for an unexpected status. */
  function StatusWarning(url: string, status: nat, expected: string): string {
    "Page " + url + " returned status code " + NatToString(status) + ", expected one of: " + expected
  }

  /** The status check of `take_screenshot`: the whitelist is parsed before
      the page is visited, and a response whose status is not in it yields
      a warning. No response yields none. */
  function CheckStatus(url: string, response: Option<nat>, expected: Option<string>): (r: Result<Option<string>>)
    ensures r.Err? <==> ParseExpectedStatusCodes(ExpectedCodesText(expected)).Err?
    ensures r.Ok? ==>
              (r.value.Some? <==> response.Some? && response.value !in ParseExpectedStatusCodes(ExpectedCodesText(expected)).value)
  {
    var valid :- ParseExpectedStatusCodes(ExpectedCodesText(expected));
    if response.Some? && response.value !in valid then
      Ok(Some(StatusWarning(url, response.value, ExpectedCodesText(expected))))
    else Ok(None)
  }

  /** The warning names the status the page returned and the whitelist as
      written. */
  lemma StatusWarningMentions(url: string, status: nat, expected: string)
    ensures Contains(StatusWarning(url, status, expected), NatToString(status))
    ensures Contains(StatusWarning(url, status, expected), expected)
    ensures StartsWith(StatusWarning(url, status, expected), "Page " + url)
  {
    var head := "Page " + url + " returned status code ";
    var code := NatToString(status);
    var mid := ", expected one of: ";
    var msg := StatusWarning(url, status, expected);
    assert msg == head + code + mid + expected;
    assert msg[|head|..|head| + |code|] == code;
    assert OccursAt(msg, code, |head|);
    assert msg[|head + code + mid|..] == expected;
    assert OccursAt(msg, expected, |head + code + mid|);
  }

  /** A page answering 404 under the default whitelist is reported. */
  lemma NotFoundWarns(url: string)
    ensures CheckStatus(url, Some(404), None) == Ok(Some(StatusWarning(url, 404, "200,302")))
  {
    DefaultStatusCodes();
  }

  /** Under the default whitelist, 200 and 302 pass silently. */
  lemma DefaultCodesPass(url: string, status: nat)
    requires status == 200 || status == 302
    ensures CheckStatus(url, Some(status), None) == Ok(None)
  {
    DefaultStatusCodes();
  }
}
