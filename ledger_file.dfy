/**
 * The name of the JSON file a script keeps its transaction history in:
 * `${base}${networkSuffix ? `-${networkSuffix}` : ""}.json`.
 * An absent suffix and an empty one (both falsy) give the same name.
 */
module LedgerFile {
  import opened Wrappers
  import opened Strings

  const Extension: string := ".json"

  /** The suffix as the template literal sees it: present and non-empty, or not. */
  function EffectiveSuffix(networkSuffix: Option<string>): (s: Option<string>)
    ensures s.Some? <==> networkSuffix.Some? && networkSuffix.value != ""
    ensures s.Some? ==> s == networkSuffix
  {
    if networkSuffix.Some? && networkSuffix.value != "" then networkSuffix else None
  }

  /** The ledger file name of script `base` on network `networkSuffix`. */
  function LedgerFileName(base: string, networkSuffix: Option<string>): (name: string)
    ensures StartsWith(name, base) && EndsWith(name, Extension)
    ensures EffectiveSuffix(networkSuffix).None? ==> |name| == |base| + |Extension|
    ensures EffectiveSuffix(networkSuffix).Some? ==>
      |name| == |base| + 1 + |networkSuffix.value| + |Extension|
      && name[|base|] == '-' && name[|base| + 1..|name| - |Extension|] == networkSuffix.value
  {
    var decoration := if networkSuffix.Some? && networkSuffix.value != "" then "-" + networkSuffix.value else "";
    var name := base + decoration + Extension;
    assert name[..|base|] == base;
    assert name[|name| - |Extension|..] == Extension;
    assert name[|base|..|name| - |Extension|] == decoration;
    name
  }

  /** For one script, two networks share a ledger file exactly when their effective suffixes agree. */
  lemma LedgerFileNameInjective(base: string, s1: Option<string>, s2: Option<string>)
    ensures LedgerFileName(base, s1) == LedgerFileName(base, s2) <==> EffectiveSuffix(s1) == EffectiveSuffix(s2)
  {
  }
}
