/** Expansion of reStructuredText substitution references `|name|` in the
    directive's target argument (`evaluate_substitutions`). */
module Substitutions {
  import opened Text

  /** The document's substitution definitions in definition order: each name
      with the text of its replacement. */
  type SubstitutionDefs = seq<(string, string)>

  /** The reference `|name|` that a definition replaces. */
  function Token(name: string): (t: string)
    ensures |t| == |name| + 2 && t[0] == '|' && t[|t| - 1] == '|'
    ensures t[1..|t| - 1] == name
  {
    "|" + name + "|"
  }

  /** The text once every definition has been applied, one after the other,
      in definition order. */
  function Substituted(defs: SubstitutionDefs, text: string): string
    decreases |defs|
  {
    if defs == [] then text
    else
      var last := defs[|defs| - 1];
      ReplaceAll(Substituted(defs[..|defs| - 1], text), Token(last.0), last.1)
  }

  /** `evaluate_substitutions`: reassigns `text` once per definition. */
  method EvaluateSubstitutions(defs: SubstitutionDefs, text: string) returns (r: string)
    ensures r == Substituted(defs, text)
    ensures defs == [] ==> r == text
  {
    r := text;
    for i := 0 to |defs|
      invariant r == Substituted(defs[..i], text)
    {
      assert defs[..i + 1][..i] == defs[..i];
      r := ReplaceAll(r, Token(defs[i].0), defs[i].1);
    }
    assert defs[..|defs|] == defs;
  }

  /** Definitions are processed in order: applying `a + b` is applying `a`,
      then `b` to the result. */
  lemma {:induction false} SubstitutedAppend(a: SubstitutionDefs, b: SubstitutionDefs, text: string)
    ensures Substituted(a + b, text) == Substituted(b, Substituted(a, text))
    decreases |b|
  {
    if b == [] {
      assert a + b == a;
    } else {
      var ab := a + b;
      assert ab[..|ab| - 1] == a + b[..|b| - 1];
      assert ab[|ab| - 1] == b[|b| - 1];
      SubstitutedAppend(a, b[..|b| - 1], text);
    }
  }

  /** A text that mentions none of the defined references is left as it is. */
  lemma {:induction false} SubstitutedUntouched(defs: SubstitutionDefs, text: string)
    requires forall i :: 0 <= i < |defs| ==> !Contains(text, Token(defs[i].0))
    ensures Substituted(defs, text) == text
    decreases |defs|
  {
    if defs != [] {
      var last := defs[|defs| - 1];
      SubstitutedUntouched(defs[..|defs| - 1], text);
      ReplaceAbsent(text, Token(last.0), last.1);
    }
  }

  /** A target that starts with the reference of its only definition gets
      the definition's text in its place, the rest kept. */
  lemma SubstitutedLeadingToken(name: string, value: string, rest: string)
    requires !Contains(rest, Token(name))
    ensures Substituted([(name, value)], Token(name) + rest) == value + rest
  {
    var defs := [(name, value)];
    assert defs[..0] == [];
    ReplaceLeading(Token(name), rest, value);
    ReplaceAbsent(rest, Token(name), value);
  }

  /** Every reference of a definition is replaced, wherever it stands: a
      target that is text pieces without bars separated by `|name|`
      becomes those pieces separated by the definition's text. */
  lemma SubstitutedEveryReference(name: string, value: string, pieces: seq<string>)
    requires |pieces| >= 1
    requires forall i :: 0 <= i < |pieces| ==> '|' !in pieces[i]
    ensures Substituted([(name, value)], Join(pieces, Token(name))) == Join(pieces, value)
  {
    var defs := [(name, value)];
    assert defs[..0] == [];
    ReplaceJoin(pieces, Token(name), value);
  }
}
