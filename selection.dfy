/**
 * The two selection policies of the report: the position of the first
 * largest value (pandas `idxmax`) and of the first smallest value
 * (pandas `idxmin`). They are kept apart on purpose: the best bowler is
 * a maximum, the best economy a minimum.
 */
module Selection {
  import opened Wrappers

  /** k is the first position holding the largest value of s. */
  ghost predicate IsFirstMax(s: seq<int>, k: nat) {
    && k < |s|
    && (forall j :: 0 <= j < |s| ==> s[j] <= s[k])
    && (forall j :: 0 <= j < k ==> s[j] < s[k])
  }

  /** k is the first position holding the smallest value of s. */
  ghost predicate IsFirstMin(s: seq<int>, k: nat) {
    && k < |s|
    && (forall j :: 0 <= j < |s| ==> s[k] <= s[j])
    && (forall j :: 0 <= j < k ==> s[k] < s[j])
  }

  /** idxmax: None for an empty column (pandas raises), else the first maximum. */
  function FirstArgMax(s: seq<int>): (r: Option<nat>)
    ensures r.None? <==> |s| == 0
    ensures r.Some? ==> IsFirstMax(s, r.value)
  {
    if |s| == 0 then None
    else
      match FirstArgMax(s[..|s| - 1])
      case None => Some(0)
      case Some(k) => if s[k] < s[|s| - 1] then Some(|s| - 1) else Some(k)
  }

  /** idxmin: None for an empty column (pandas raises), else the first minimum. */
  function FirstArgMin(s: seq<int>): (r: Option<nat>)
    ensures r.None? <==> |s| == 0
    ensures r.Some? ==> IsFirstMin(s, r.value)
  {
    if |s| == 0 then None
    else
      match FirstArgMin(s[..|s| - 1])
      case None => Some(0)
      case Some(k) => if s[|s| - 1] < s[k] then Some(|s| - 1) else Some(k)
  }

  /** The first-maximum position is unique, so FirstArgMax finds any position that has it. */
  lemma FirstMaxUnique(s: seq<int>, k: nat)
    requires IsFirstMax(s, k)
    ensures FirstArgMax(s) == Some(k)
  {
  }

  /** The first-minimum position is unique, so FirstArgMin finds any position that has it. */
  lemma FirstMinUnique(s: seq<int>, k: nat)
    requires IsFirstMin(s, k)
    ensures FirstArgMin(s) == Some(k)
  {
  }
}
