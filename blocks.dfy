/** The eight flag blocks of `compute_risk` (app.py:66-96) as an algebra: each block adds a
    fixed delta when its flag is set, so the blocks commute, any order of them computes the
    closed-form `Adjustment`, and each flag changes the adjustment by exactly its own row of
    the table, whatever the other flags are. */
module Blocks {
  import opened Calculator

  // ---------------------------------------------------------------------------------
  // single blocks

  /** Two blocks commute. */
  lemma StepCommutes(acc: Risks, f: Features, x: Flag, y: Flag)
    ensures Step(Step(acc, f, x), f, y) == Step(Step(acc, f, y), f, x)
  {
  }

  /** A block commutes with adding a fixed amount to the totals. */
  lemma StepShifts(acc: Risks, d: Risks, f: Features, x: Flag)
    ensures Step(Plus(acc, d), f, x) == Plus(Step(acc, f, x), d)
  {
  }

  // ---------------------------------------------------------------------------------
  // runs of blocks

  /** Running `a ++ b` is running `a`, then `b`. */
  lemma {:induction false} ApplyInOrderAppend(acc: Risks, f: Features, a: seq<Flag>, b: seq<Flag>)
    ensures ApplyInOrder(acc, f, a + b) == ApplyInOrder(ApplyInOrder(acc, f, a), f, b)
    decreases |a|
  {
    if a == [] {
      assert a + b == b;
    } else {
      assert (a + b)[0] == a[0];
      assert (a + b)[1..] == a[1..] + b;
      ApplyInOrderAppend(Step(acc, f, a[0]), f, a[1..], b);
    }
  }

  /** A block can be moved from before a run of blocks to after it. */
  lemma {:induction false} StepPastBlocks(acc: Risks, f: Features, x: Flag, s: seq<Flag>)
    ensures ApplyInOrder(Step(acc, f, x), f, s) == Step(ApplyInOrder(acc, f, s), f, x)
    decreases |s|
  {
    if s != [] {
      StepCommutes(acc, f, x, s[0]);
      StepPastBlocks(Step(acc, f, s[0]), f, x, s[1..]);
    }
  }

  /** Adding a fixed amount before a run of blocks is adding it after. */
  lemma {:induction false} ShiftThroughBlocks(acc: Risks, d: Risks, f: Features, s: seq<Flag>)
    ensures ApplyInOrder(Plus(acc, d), f, s) == Plus(ApplyInOrder(acc, f, s), d)
    decreases |s|
  {
    if s != [] {
      StepShifts(acc, d, f, s[0]);
      ShiftThroughBlocks(Step(acc, f, s[0]), d, f, s[1..]);
    }
  }

  lemma RemoveOne(a: seq<Flag>, b: seq<Flag>, i: int)
    requires multiset(a) == multiset(b) && a != [] && 0 <= i < |b| && b[i] == a[0]
    ensures multiset(a[1..]) == multiset(b[..i] + b[i + 1..])
  {
    var x, rest := a[0], b[..i] + b[i + 1..];
    assert a == [x] + a[1..];
    assert b == b[..i] + [x] + b[i + 1..];
    assert multiset(a) == multiset{x} + multiset(a[1..]);
    assert multiset(b) == multiset{x} + multiset(rest);
    assert multiset(a[1..]) == multiset(a) - multiset{x};
  }

  /** The order of the blocks does not matter: two runs over the same flags (counted with
      multiplicity) leave the same totals. */
  lemma {:induction false} ApplyInOrderPermutation(acc: Risks, f: Features, a: seq<Flag>, b: seq<Flag>)
    requires multiset(a) == multiset(b)
    ensures ApplyInOrder(acc, f, a) == ApplyInOrder(acc, f, b)
    decreases |a|
  {
    if a == [] {
      assert |b| == |multiset(b)| == 0;
    } else {
      var x := a[0];
      assert x in multiset(b);
      var i :| 0 <= i < |b| && b[i] == x;
      var before, after := b[..i], b[i + 1..];
      assert b == before + ([x] + after);
      RemoveOne(a, b, i);
      ApplyInOrderPermutation(Step(acc, f, x), f, a[1..], before + after);
      ApplyInOrderAppend(acc, f, before, [x] + after);
      assert ([x] + after)[0] == x && ([x] + after)[1..] == after;
      StepPastBlocks(acc, f, x, before);
      ApplyInOrderAppend(Step(acc, f, x), f, before, after);
    }
  }

  // ---------------------------------------------------------------------------------
  // the eight blocks in the source's order

  function Unrolled(acc: Risks, f: Features): Risks {
    Step(Step(Step(Step(Step(Step(Step(Step(acc, f, UsesZk), f, UsesFhe), f, HasLightClient), f, HasMpcSigners),
      f, HasTimelock), f, HasAudits), f, HasFormalSpecs), f, MultiChain)
  }

  lemma SourceOrderUnrolls(acc: Risks, f: Features)
    ensures ApplyInOrder(acc, f, SourceOrder) == Unrolled(acc, f)
  {
    var s := SourceOrder;
    var r1 := Step(acc, f, UsesZk);
    var r2 := Step(r1, f, UsesFhe);
    var r3 := Step(r2, f, HasLightClient);
    var r4 := Step(r3, f, HasMpcSigners);
    var r5 := Step(r4, f, HasTimelock);
    var r6 := Step(r5, f, HasAudits);
    var r7 := Step(r6, f, HasFormalSpecs);
    var r8 := Step(r7, f, MultiChain);
    assert s[8..] == [];
    assert ApplyInOrder(r8, f, s[8..]) == r8;
    assert ApplyInOrder(r7, f, s[7..]) == r8;
    assert ApplyInOrder(r6, f, s[6..]) == r8;
    assert ApplyInOrder(r5, f, s[5..]) == r8;
    assert ApplyInOrder(r4, f, s[4..]) == r8;
    assert ApplyInOrder(r3, f, s[3..]) == r8;
    assert ApplyInOrder(r2, f, s[2..]) == r8;
    assert ApplyInOrder(r1, f, s[1..]) == r8;
  }

  lemma UnrolledTechnical(acc: Risks, f: Features)
    ensures Unrolled(acc, f).technical == acc.technical + Adjustment(f).technical
  {
  }

  lemma UnrolledEconomic(acc: Risks, f: Features)
    ensures Unrolled(acc, f).economic == acc.economic + Adjustment(f).economic
  {
  }

  lemma UnrolledOperational(acc: Risks, f: Features)
    ensures Unrolled(acc, f).operational == acc.operational + Adjustment(f).operational
  {
  }

  /** The eight blocks, run in the source's order, add the closed-form adjustment. */
  lemma SourceOrderAdjustment(acc: Risks, f: Features)
    ensures ApplyInOrder(acc, f, SourceOrder) == Plus(acc, Adjustment(f))
  {
    SourceOrderUnrolls(acc, f);
    UnrolledTechnical(acc, f);
    UnrolledEconomic(acc, f);
    UnrolledOperational(acc, f);
  }

  /** Whatever order the eight blocks run in, they add the closed-form adjustment. */
  lemma OrderIndependent(acc: Risks, f: Features, order: seq<Flag>)
    requires multiset(order) == multiset(SourceOrder)
    ensures ApplyInOrder(acc, f, order) == Plus(acc, Adjustment(f))
  {
    ApplyInOrderPermutation(acc, f, order, SourceOrder);
    SourceOrderAdjustment(acc, f);
  }

  // ---------------------------------------------------------------------------------
  // additivity of a single flag

  /** Every flag has exactly one block. */
  lemma SourceOrderOnce(flag: Flag)
    ensures multiset(SourceOrder)[flag] == 1
  {
  }

  /** Runs over feature sets that agree on every flag the run contains leave the same totals. */
  lemma {:induction false} SameBlocks(acc: Risks, on: Features, off: Features, flag: Flag, s: seq<Flag>)
    requires multiset(s)[flag] == 0
    requires forall other :: other != flag ==> IsSet(on, other) == IsSet(off, other)
    ensures ApplyInOrder(acc, on, s) == ApplyInOrder(acc, off, s)
    decreases |s|
  {
    if s != [] {
      assert s == [s[0]] + s[1..];
      assert s[0] != flag;
      SameBlocks(Step(acc, on, s[0]), on, off, flag, s[1..]);
    }
  }

  /** In a run that contains `flag` once, turning `flag` on adds exactly its delta. */
  lemma {:induction false} FlipOne(acc: Risks, on: Features, off: Features, flag: Flag, s: seq<Flag>)
    requires multiset(s)[flag] == 1
    requires IsSet(on, flag) && !IsSet(off, flag)
    requires forall other :: other != flag ==> IsSet(on, other) == IsSet(off, other)
    ensures ApplyInOrder(acc, on, s) == Plus(ApplyInOrder(acc, off, s), DeltaOf(flag))
    decreases |s|
  {
    assert s == [s[0]] + s[1..];
    if s[0] == flag {
      assert multiset(s[1..])[flag] == 0;
      SameBlocks(Plus(acc, DeltaOf(flag)), on, off, flag, s[1..]);
      ShiftThroughBlocks(acc, DeltaOf(flag), off, s[1..]);
    } else {
      assert multiset(s[1..])[flag] == 1;
      FlipOne(Step(acc, off, s[0]), on, off, flag, s[1..]);
    }
  }

  /** Each flag is additive and independent of the others: for two feature sets that differ
      only in `flag`, the adjustment of the one with `flag` set is the other's plus the
      flag's own row of the table. */
  lemma FlagIsAdditive(on: Features, off: Features, flag: Flag)
    requires IsSet(on, flag) && !IsSet(off, flag)
    requires forall other :: other != flag ==> IsSet(on, other) == IsSet(off, other)
    ensures Adjustment(on) == Plus(Adjustment(off), DeltaOf(flag))
  {
    SourceOrderOnce(flag);
    FlipOne(Zero, on, off, flag, SourceOrder);
    SourceOrderAdjustment(Zero, on);
    SourceOrderAdjustment(Zero, off);
  }

  /** With no flag set there is no adjustment, and with a single flag set the adjustment is
      that flag's row of the table. */
  lemma SingleFlag(f: Features, flag: Flag)
    requires IsSet(f, flag)
    requires forall other :: other != flag ==> !IsSet(f, other)
    ensures Adjustment(NoFeatures) == Zero
    ensures Adjustment(f) == DeltaOf(flag)
  {
    FlagIsAdditive(f, NoFeatures, flag);
  }
}
