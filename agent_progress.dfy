/** The agent timeline: one row per step, active up to and including
    `activeIndex`, with the meta line only where it is truthy. */
module AgentProgress {
  import opened JsonValue

  datatype Step = Step(title: string, meta: Option<string>)

  datatype Row = Row(title: string, meta: Option<string>, active: bool)

  predicate ShowsMeta(meta: Option<string>) {
    meta.Some? && meta.value != ""
  }

  /** The rendered rows; `activeIndex` defaults to 0. */
  function View(steps: seq<Step>, activeIndex: int := 0): (r: seq<Row>)
    ensures |r| == |steps|
    ensures forall i :: 0 <= i < |r| ==> r[i].title == steps[i].title
    ensures forall i :: 0 <= i < |r| ==> (r[i].meta.Some? <==> ShowsMeta(steps[i].meta))
    ensures forall i :: 0 <= i < |r| && r[i].meta.Some? ==> r[i].meta == steps[i].meta
  {
    seq(|steps|, i requires 0 <= i < |steps| =>
      Row(steps[i].title, if ShowsMeta(steps[i].meta) then steps[i].meta else None, i <= activeIndex))
  }

  /** The number of active rows. */
  function ActiveCount(rows: seq<Row>): (n: nat)
    ensures n <= |rows|
    ensures n == 0 <==> forall i :: 0 <= i < |rows| ==> !rows[i].active
  {
    assert forall i :: 0 <= i < |rows| - 1 ==> rows[..|rows| - 1][i] == rows[i];
    if rows == [] then 0 else (if rows[|rows| - 1].active then 1 else 0) + ActiveCount(rows[..|rows| - 1])
  }

  function Clamp(x: int, lo: int, hi: int): int
    requires lo <= hi
  {
    if x < lo then lo else if x > hi then hi else x
  }

  /** The active rows are a prefix: a row is active exactly when every row
      before it is. */
  lemma ActiveRowsArePrefix(steps: seq<Step>, activeIndex: int, i: int, j: int)
    requires 0 <= i <= j < |steps|
    ensures View(steps, activeIndex)[j].active ==> View(steps, activeIndex)[i].active
    ensures View(steps, activeIndex)[i].active <==> i <= activeIndex
  {
  }

  /** ... of length `activeIndex + 1`, clamped to the number of steps. */
  lemma {:induction false} ActiveCountClamped(steps: seq<Step>, activeIndex: int)
    ensures ActiveCount(View(steps, activeIndex)) == Clamp(activeIndex + 1, 0, |steps|)
    decreases |steps|
  {
    if steps != [] {
      var n := |steps|;
      ActiveCountClamped(steps[..n - 1], activeIndex);
      assert View(steps, activeIndex)[..n - 1] == View(steps[..n - 1], activeIndex);
    }
  }

  /** With the default index only the first step is active. */
  lemma DefaultActivatesFirst(steps: seq<Step>)
    requires |steps| > 0
    ensures View(steps)[0].active
    ensures forall i :: 0 < i < |steps| ==> !View(steps)[i].active
    ensures ActiveCount(View(steps)) == 1
  {
    ActiveCountClamped(steps, 0);
  }
}
