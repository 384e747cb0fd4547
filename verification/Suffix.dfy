/** The thinking suffix of a model name, "name(value)", and what the resolver does with it. */
module Suffix {
  import opened Text

  datatype Parsed = Parsed(name: string, hasSuffix: bool, raw: string)

  /** Index of the last '(' or -1. */
  function LastOpen(s: string): (k: int)
    ensures -1 <= k < |s|
    ensures k >= 0 ==> s[k] == '('
    ensures forall i :: k < i < |s| ==> s[i] != '('
  {
    if s == "" then -1 else if s[|s| - 1] == '(' then |s| - 1 else LastOpen(s[..|s| - 1])
  }

  function ParseSuffix(model: string): Parsed {
    var k := LastOpen(model);
    if k < 0 || model[|model| - 1] != ')' then Parsed(model, false, "")
    else Parsed(model[..k], true, model[k + 1..|model| - 1])
  }

  /** The requested model without its suffix; also the name a selected model is looked up by. */
  function Canonical(model: string): string {
    TrimSpace(ParseSuffix(TrimSpace(model)).name)
  }

  /** The selected model with the suffix of the request put back. */
  function ApplySuffix(selected: string, requested: string): string {
    var model := TrimSpace(selected);
    var parsed := ParseSuffix(TrimSpace(requested));
    if model == "" then ""
    else if !parsed.hasSuffix || TrimSpace(parsed.raw) == "" then model
    else if ParseSuffix(model).hasSuffix then model
    else model + "(" + parsed.raw + ")"
  }

  lemma TrimmedStays(s: string)
    requires s == "" || (!IsSpace(s[0]) && !IsSpace(s[|s| - 1]))
    ensures TrimSpace(s) == s
  {
  }

  lemma LastOpenIs(s: string, k: nat)
    requires k < |s| && s[k] == '(' && forall i :: k < i < |s| ==> s[i] != '('
    ensures LastOpen(s) == k
  {
  }

  lemma ParseSuffixed(name: string, raw: string)
    requires '(' !in raw
    ensures ParseSuffix(name + "(" + raw + ")") == Parsed(name, true, raw)
  {
    var s := name + "(" + raw + ")";
    assert s[|name|] == '(' && s[..|name|] == name && s[|name| + 1..|s| - 1] == raw;
    forall i | |name| < i < |s|
      ensures s[i] != '('
    {
      if i < |s| - 1 {
        assert s[i] == raw[i - |name| - 1];
      }
    }
    LastOpenIs(s, |name|);
  }

  lemma RawHasNoOpen(s: string)
    ensures '(' !in ParseSuffix(s).raw
  {
  }

  /**
   * A report about the returned model finds the selected one, whatever suffix was put back,
   * if and only if the selected name does not itself end in a suffix.
   */
  lemma ReportFindsSelection(selected: string, requested: string)
    requires selected != "" && TrimSpace(selected) == selected
    ensures Canonical(ApplySuffix(selected, requested)) == selected <==> !ParseSuffix(selected).hasSuffix
  {
    var parsed := ParseSuffix(TrimSpace(requested));
    var full := selected + "(" + parsed.raw + ")";
    RawHasNoOpen(TrimSpace(requested));
    ParseSuffixed(selected, parsed.raw);
    assert full[0] == selected[0] && full[|full| - 1] == ')';
    TrimmedStays(full);
  }

  /** Stripping twice, as the keys do, is stripping once if and only if one suffix is all there was. */
  lemma CanonicalIsStable(model: string)
    ensures Canonical(Canonical(model)) == Canonical(model) <==> !ParseSuffix(Canonical(model)).hasSuffix
  {
    TrimTwice(ParseSuffix(TrimSpace(model)).name);
  }
}
