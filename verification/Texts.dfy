/** Text and calendar facts several components share. */
module Texts {

  /** The white space that trimming removes, in the source language's Unicode sense. */
  predicate IsSpace(c: char) {
    || '\U{0009}' <= c <= '\U{000D}' || c == ' ' || c == '\U{0085}' || c == '\U{00A0}'
    || c == '\U{1680}' || '\U{2000}' <= c <= '\U{200A}' || c == '\U{2028}' || c == '\U{2029}'
    || c == '\U{202F}' || c == '\U{205F}' || c == '\U{3000}'
  }

  function TrimSpace(t: string): string {
    if t != "" && IsSpace(t[0]) then TrimSpace(t[1..])
    else if t != "" && IsSpace(t[|t| - 1]) then TrimSpace(t[..|t| - 1])
    else t
  }

  predicate IsBlank(t: string) {
    forall i :: 0 <= i < |t| ==> IsSpace(t[i])
  }

  /** Trimming leaves nothing exactly when nothing but space is there. */
  lemma {:induction false} BlankIsTrimmed(t: string)
    ensures TrimSpace(t) == "" <==> IsBlank(t)
    decreases |t|
  {
    if t != "" {
      var n := |t| - 1;
      BlankIsTrimmed(t[1..]);
      BlankIsTrimmed(t[..n]);
      assert t[0] == t[0..][0] && forall i :: 0 < i < |t| ==> t[i] == t[1..][i - 1];
      assert forall i :: 0 <= i < n ==> t[i] == t[..n][i];
    }
  }

  /** Korea's fixed offset from UTC. */
  const KST_OFFSET_NS := 9 * 3600 * 1_000_000_000

  const DAY_NS := 24 * 3600 * 1_000_000_000
}
