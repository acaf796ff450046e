/** String substitution as the storefront's message templates use it:
    JavaScript's `String.prototype.replace` with a string pattern, which
    replaces the first occurrence only and expands the `$` patterns of the
    replacement text (section 22.1.3.19 of ECMAScript 2024, with the
    substitution rules of GetSubstitution, section 22.1.3.19.1). */
module Text {
  import opened Options

  /** The pattern `pat` occurs in `s` starting at index `k`. */
  predicate OccursAt(s: string, pat: string, k: nat)
  {
    k + |pat| <= |s| && s[k..k + |pat|] == pat
  }

  /** The first index where `pat` occurs in `s` (`indexOf`). */
  function IndexOf(s: string, pat: string): (r: Option<nat>)
    ensures r.Some? ==> OccursAt(s, pat, r.value)
    ensures r.Some? ==> forall j: nat :: j < r.value ==> !OccursAt(s, pat, j)
    ensures r.None? ==> forall j: nat :: !OccursAt(s, pat, j)
    decreases |s|
  {
    if |s| < |pat| then None
    else if s[..|pat|] == pat then Some(0)
    else
      var rest := IndexOf(s[1..], pat);
      ShiftOccurs(s, pat);
      assert !OccursAt(s, pat, 0);
      if rest.Some? then Some(rest.value + 1) else None
  }

  /** An occurrence in `s[1..]` at `j` is an occurrence in `s` at `j + 1`. */
  lemma ShiftOccurs(s: string, pat: string)
    requires s != []
    ensures forall j: nat :: OccursAt(s[1..], pat, j) <==> OccursAt(s, pat, j + 1)
    ensures forall j: nat :: 0 < j ==> (OccursAt(s, pat, j) <==> OccursAt(s[1..], pat, j - 1))
  {
    forall j: nat
      ensures OccursAt(s[1..], pat, j) <==> OccursAt(s, pat, j + 1)
    {
      if j + |pat| <= |s| - 1 {
        assert s[1..][j..j + |pat|] == s[j + 1..j + 1 + |pat|];
      }
    }
  }

  /** The replacement text with its `$` patterns expanded: `$$` is a
      dollar sign, `$&` the matched text, `` $` `` the text before the match
      and `$'` the text after it; any other `$` is kept as it is (a string
      pattern has no capture groups). */
  function Expand(rep: string, matched: string, before: string, after: string): (r: string)
    ensures !('$' in rep) ==> r == rep
    ensures rep != [] && rep[0] != '$' ==> r != [] && r[0] == rep[0]
    decreases |rep|
  {
    if rep == [] then []
    else if rep[0] == '$' && |rep| >= 2 && rep[1] == '$' then "$" + Expand(rep[2..], matched, before, after)
    else if rep[0] == '$' && |rep| >= 2 && rep[1] == '&' then matched + Expand(rep[2..], matched, before, after)
    else if rep[0] == '$' && |rep| >= 2 && rep[1] == '`' then before + Expand(rep[2..], matched, before, after)
    else if rep[0] == '$' && |rep| >= 2 && rep[1] == '\'' then after + Expand(rep[2..], matched, before, after)
    else [rep[0]] + Expand(rep[1..], matched, before, after)
  }

  /** `s.replace(pat, rep)`: `s` with the first occurrence of `pat`
      replaced by the expansion of `rep`; `s` itself when `pat` does not
      occur. */
  function ReplaceFirst(s: string, pat: string, rep: string): (r: string)
    ensures (forall j: nat :: !OccursAt(s, pat, j)) ==> r == s
  {
    match IndexOf(s, pat)
    case None => s
    case Some(k) => s[..k] + Expand(rep, pat, s[..k], s[k + |pat|..]) + s[k + |pat|..]
  }

  /** Where the first occurrence is, the expanded replacement is spliced in
      its place and the rest of the template is kept; a replacement without
      `$` is spliced in as it is. */
  lemma ReplaceFirstAt(s: string, pat: string, rep: string, k: nat)
    requires OccursAt(s, pat, k)
    requires forall j: nat :: j < k ==> !OccursAt(s, pat, j)
    ensures ReplaceFirst(s, pat, rep) == s[..k] + Expand(rep, pat, s[..k], s[k + |pat|..]) + s[k + |pat|..]
    ensures !('$' in rep) ==> ReplaceFirst(s, pat, rep) == s[..k] + rep + s[k + |pat|..]
  {
    var i := IndexOf(s, pat);
    assert i.Some?;
    assert !(i.value < k) && !(k < i.value);
  }

  /** A non-empty template filled with a text that does not start with `$`
      never becomes the empty string. */
  lemma ReplaceFirstNonEmpty(s: string, pat: string, rep: string)
    requires s != [] && rep != [] && rep[0] != '$'
    ensures ReplaceFirst(s, pat, rep) != []
  {
  }

  /** The `$` patterns make a difference: with the bound text "5$&" the
      placeholder comes back after the 5 ("Min [min]" becomes
      "Min 5[min]", not "Min 5$&"). */
  lemma DollarPatternExpands(before: string, after: string)
    ensures Expand("5$&", "[min]", before, after) == "5[min]"
  {
  }
}
