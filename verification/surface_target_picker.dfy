/** The checkbox group choosing which surfaces the colour change applies to. */
module SurfaceTargetPicker {
  import opened Wrappers
  import Seqs

  /** `SurfaceTarget`: the closed set of targets, so every emitted target is one of these three. */
  datatype SurfaceTarget = Walls | Floor | Ceiling

  /** The options in the order the picker lists them. */
  const SurfaceOptions: seq<SurfaceTarget> := [Walls, Floor, Ceiling]

  predicate NoDuplicates(targets: seq<SurfaceTarget>) {
    forall i, j :: 0 <= i < j < |targets| ==> targets[i] != targets[j]
  }

  /** `handleToggle`: the list passed to `onTargetsChange`, or `None` when nothing is emitted.
      Checking appends; unchecking removes the target unless it would empty the selection. */
  function HandleToggle(selected: seq<SurfaceTarget>, target: SurfaceTarget, checked: bool)
    : (r: Option<seq<SurfaceTarget>>)
    ensures checked ==> r == Some(selected + [target])
    ensures !checked && |selected| <= 1 ==> r == None
    ensures !checked && |selected| > 1 ==> r.Some? && target !in r.value
    ensures !checked && |selected| > 1 ==> r.Some? && Seqs.SubsequenceOf(r.value, selected)
    ensures !checked && |selected| > 1 ==>
      forall i :: 0 <= i < |selected| && selected[i] != target ==> selected[i] in r.value
  {
    if checked then Some(selected + [target])
    else if |selected| > 1 then
      Seqs.FilterIsSubsequence(selected, (t: SurfaceTarget) => t != target);
      Some(Seqs.Filter(selected, (t: SurfaceTarget) => t != target))
    else None
  }

  /** The emitting state: the selection after the toggle, unchanged when nothing is emitted. */
  function Apply(selected: seq<SurfaceTarget>, target: SurfaceTarget, checked: bool): seq<SurfaceTarget> {
    HandleToggle(selected, target, checked).GetOr(selected)
  }

  /** Unchecking never emits an empty selection when the selection has no duplicates. */
  lemma UncheckNeverEmpties(selected: seq<SurfaceTarget>, target: SurfaceTarget)
    requires NoDuplicates(selected)
    ensures var r := HandleToggle(selected, target, false); r.Some? ==> |r.value| >= 1
  {
    if |selected| > 1 {
      var k := if selected[0] != target then 0 else 1;
      assert selected[k] != target;
    }
  }

  /** A non-empty, duplicate-free selection stays so under any click a checkbox can make: checking
      only an unchecked target, unchecking only a checked one. */
  lemma SelectionInvariant(selected: seq<SurfaceTarget>, target: SurfaceTarget, checked: bool)
    requires |selected| >= 1 && NoDuplicates(selected)
    requires checked <==> target !in selected
    ensures |Apply(selected, target, checked)| >= 1
    ensures NoDuplicates(Apply(selected, target, checked))
  {
    UncheckNeverEmpties(selected, target);
    if !checked && |selected| > 1 {
      FilterKeepsNoDuplicates(selected, (t: SurfaceTarget) => t != target);
    }
  }

  lemma {:induction false} FilterKeepsNoDuplicates(s: seq<SurfaceTarget>, p: SurfaceTarget -> bool)
    requires NoDuplicates(s)
    ensures NoDuplicates(Seqs.Filter(s, p))
  {
    if s != [] {
      FilterKeepsNoDuplicates(s[1..], p);
      var rest := Seqs.Filter(s[1..], p);
      assert forall j :: 0 <= j < |rest| ==> rest[j] in s[1..];
      assert forall j :: 0 <= j < |rest| ==> rest[j] != s[0];
    }
  }

  /** A duplicate-free selection of these three targets never holds more than three. */
  lemma AtMostThree(selected: seq<SurfaceTarget>)
    requires NoDuplicates(selected)
    ensures |selected| <= 3
  {
    var all := {Walls, Floor, Ceiling};
    var elems := set i | 0 <= i < |selected| :: selected[i];
    forall x | x in elems
      ensures x in all
    {
      match x
      case Walls =>
      case Floor =>
      case Ceiling =>
    }
    assert |all| == 3;
    assert all == elems + (all - elems);
    assert |all| == |elems| + |all - elems|;
    assert |elems| == |selected| by {
      DistinctCount(selected);
    }
  }

  lemma {:induction false} DistinctCount(s: seq<SurfaceTarget>)
    requires NoDuplicates(s)
    ensures |set i | 0 <= i < |s| :: s[i]| == |s|
  {
    if s != [] {
      DistinctCount(s[1..]);
      var tail := set i | 0 <= i < |s[1..]| :: s[1..][i];
      assert (set i | 0 <= i < |s| :: s[i]) == {s[0]} + tail;
      assert s[0] !in tail;
    }
  }
}
