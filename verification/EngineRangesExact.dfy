/** The premise on clears of the ranges is exact: blocks that do not fit can be registered as they are. */
module EngineRangesExact {
  import opened Wrappers
  import opened Epoch
  import opened Engine
  import opened EngineRanges

  /** No resetter starts along these steps. */
  predicate NoZeroing(h: Hashing, s: State, steps: seq<Step>)
    requires Valid(h, s, steps)
    decreases |steps|
  {
    steps == [] ||
    (var before := steps[..|steps| - 1];
     NoZeroing(h, s, before) && !Leaves(Exec(h, s, before), steps[|steps| - 1], ZERO_COUNTER))
  }

  /** These steps end with no counter ahead and the registered ranges not apart. */
  ghost predicate BreaksApart(h: Hashing, s: State, steps: seq<Step>) {
    && Valid(h, s, steps) && NoZeroing(h, s, steps)
    && !CounterAhead(Exec(h, s, steps)) && !RangesApart(Exec(h, s, steps).sh)
  }

  // ---------- Blocks that fit stay apart ----------

  lemma FitStep(h: Hashing, s: State, step: Step)
    requires RangesApart(s.sh) && BlocksApart(s) && Enabled(h, s, step) && !Leaves(s, step, ZERO_COUNTER)
    ensures var s' := Apply(h, s, step); RangesApart(s'.sh) && BlocksApart(s')
  {
    if Leaves(s, step, CLEAR_RANGES) {
      ClearKeepsFit(h, s, step);
    } else if MovesRanges(step) {
      DispatchKeepsBlocks(h, s, step);
    } else {
      RangesUntouched(h, s, step);
      ApartUntouched(s, Apply(h, s, step));
    }
  }

  lemma {:induction false} FitRun(h: Hashing, s: State, steps: seq<Step>)
    requires RangesApart(s.sh) && BlocksApart(s) && Valid(h, s, steps) && NoZeroing(h, s, steps)
    ensures var t := Exec(h, s, steps); RangesApart(t.sh) && BlocksApart(t)
    decreases |steps|
  {
    if steps != [] {
      var before := steps[..|steps| - 1];
      FitRun(h, s, before);
      FitStep(h, Exec(h, s, before), steps[|steps| - 1]);
    }
  }

  // ---------- Blocks that do not fit ----------

  /** These steps lead from `s` to `t` without a zeroing, and leave the ranges empty and the blocks waiting. */
  ghost predicate Clears(h: Hashing, s: State, steps: seq<Step>, t: State) {
    && Valid(h, s, steps) && NoZeroing(h, s, steps) && Exec(h, s, steps) == t
    && t.sh.ranges == map[] && t.sh.nonce == s.sh.nonce && t.blocks == s.blocks
  }

  lemma Quietly(h: Hashing, s: State, steps: seq<Step>, t: State, step: Step) returns (longer: seq<Step>)
    requires Valid(h, s, steps) && NoZeroing(h, s, steps) && Exec(h, s, steps) == t
    requires Enabled(h, t, step) && !Leaves(t, step, ZERO_COUNTER)
    ensures longer == steps + [step] && Valid(h, s, longer) && NoZeroing(h, s, longer)
    ensures Exec(h, s, longer) == Apply(h, t, step)
  {
    longer := Extend(h, s, steps, t, step);
    assert longer[..|longer| - 1] == steps;
  }

  /** The resetters that have zeroed the counter clear the ranges in turn: the first `k` watchers. */
  lemma {:induction false} WatchersClear(h: Hashing, s: State, k: nat) returns (steps: seq<Step>, t: State)
    requires s.sh.ranges == map[] && k <= |s.watchers|
    ensures Clears(h, s, steps, t) && |t.watchers| == |s.watchers| && t.submitter == s.submitter
    ensures forall w | 0 <= w < k :: !(t.watchers[w].phase.Resetting? && t.watchers[w].phase.done == CLEAR_RANGES)
    ensures forall w | k <= w < |s.watchers| :: t.watchers[w] == s.watchers[w]
  {
    if k == 0 {
      steps, t := [], s;
    } else {
      var w := k - 1;
      var k1, t1 := WatchersClear(h, s, w);
      if t1.watchers[w].phase.Resetting? && t1.watchers[w].phase.done == CLEAR_RANGES {
        steps := Quietly(h, s, k1, t1, Watch(w, None));
        t := Apply(h, t1, Watch(w, None));
      } else {
        steps, t := k1, t1;
      }
    }
  }

  lemma AllClear(h: Hashing, s: State) returns (steps: seq<Step>, t: State)
    requires s.sh.ranges == map[]
    ensures Clears(h, s, steps, t) && !CounterAhead(t)
  {
    var k1, t1 := WatchersClear(h, s, |s.watchers|);
    if t1.submitter.Restoring? && t1.submitter.done == CLEAR_RANGES {
      steps := Quietly(h, s, k1, t1, Submit(Advance));
      t := Apply(h, t1, Submit(Advance));
      assert t.watchers == t1.watchers;
    } else {
      steps, t := k1, t1;
    }
  }

  lemma RegisterOnly(h: Hashing, s: State, k: nat)
    requires k < |s.blocks|
    ensures var t := Apply(h, s, Register(k));
            && (CounterAhead(t) <==> CounterAhead(s)) && t.sh == AddRange(s.sh, s.blocks[k].uuid, s.blocks[k].range)
            && t.blocks == s.blocks[..k] + s.blocks[k + 1..]
  {
  }

  /** A block that ends above the counter breaks what is promised as soon as it is registered. */
  lemma HighBlockBreaks(h: Hashing, s: State, steps: seq<Step>, t: State, k: nat) returns (longer: seq<Step>)
    requires Clears(h, s, steps, t) && !CounterAhead(t)
    requires k < |t.blocks| && t.blocks[k].range.end > t.sh.nonce
    ensures BreaksApart(h, s, longer)
  {
    longer := Quietly(h, s, steps, t, Register(k));
    RegisterOnly(h, t, k);
    assert Registered(Exec(h, s, longer).sh, t.blocks[k].uuid, 0);
  }

  /** Two blocks that overlap break it as soon as both are registered. */
  lemma OverlapBreaks(h: Hashing, s: State, steps: seq<Step>, t: State, k: nat, j: nat) returns (longer: seq<Step>)
    requires Clears(h, s, steps, t) && !CounterAhead(t)
    requires k < j < |t.blocks| && !Disjoint(t.blocks[k].range, t.blocks[j].range)
    ensures BreaksApart(h, s, longer)
  {
    var k1 := Quietly(h, s, steps, t, Register(j));
    var t1 := Apply(h, t, Register(j));
    RegisterOnly(h, t, j);
    assert t1.blocks[k] == t.blocks[k];
    longer := Quietly(h, s, k1, t1, Register(k));
    RegisterOnly(h, t1, k);
    BothRegistered(t.sh, t.blocks[j], t.blocks[k]);
  }

  lemma BothRegistered(sh: Shared, a: Block, b: Block)
    requires sh.ranges == map[] && !Disjoint(b.range, a.range)
    ensures !RangesApart(AddRange(AddRange(sh, a.uuid, a.range), b.uuid, b.range))
  {
    var sh' := AddRange(AddRange(sh, a.uuid, a.range), b.uuid, b.range);
    var i := if a.uuid == b.uuid then 1 else 0;
    assert Registered(sh', a.uuid, 0) && Registered(sh', b.uuid, i);
    assert sh'.ranges[a.uuid][0] == a.range && sh'.ranges[b.uuid][i] == b.range;
  }

  /** In any state, after a clear of the ranges and until another resetter starts: the registered ranges can
      come to overlap or to pass the counter, with no counter ahead, if and only if the blocks that wait at
      the clear do not fit. Other resetters may still have to clear, and do so first. */
  lemma OverlapExactlyAtUnfitClear(h: Hashing, s: State, step: Step)
    requires Enabled(h, s, step) && Leaves(s, step, CLEAR_RANGES)
    ensures (exists steps :: BreaksApart(h, Apply(h, s, step), steps)) <==> !BlocksFit(s)
  {
    var x := Apply(h, s, step);
    var c := LeavingEffect(h, s, step, CLEAR_RANGES);
    assert x.sh.ranges == map[] && x.sh.nonce == s.sh.nonce && x.blocks == s.blocks;
    if BlocksFit(s) {
      ClearKeepsFit(h, s, step);
      forall steps | Valid(h, x, steps) && NoZeroing(h, x, steps)
        ensures RangesApart(Exec(h, x, steps).sh)
      {
        FitRun(h, x, steps);
      }
    } else {
      var steps := UnfitBreaks(h, x);
      assert BreaksApart(h, x, steps);
    }
  }

  lemma UnfitBreaks(h: Hashing, x: State) returns (steps: seq<Step>)
    requires x.sh.ranges == map[] && !BlocksFit(x)
    ensures BreaksApart(h, x, steps)
  {
    var k0, t := AllClear(h, x);
    if k :| 0 <= k < |x.blocks| && x.blocks[k].range.end > x.sh.nonce {
      steps := HighBlockBreaks(h, x, k0, t, k);
    } else {
      var k, j :| 0 <= k < |x.blocks| && 0 <= j < |x.blocks| && k != j
                  && !Disjoint(x.blocks[k].range, x.blocks[j].range);
      steps := OverlapBreaks(h, x, k0, t, if k < j then k else j, if k < j then j else k);
    }
  }
}
