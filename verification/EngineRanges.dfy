/** Nonce ranges under any number of resetters and any delay between taking a block and registering it. */
module EngineRanges {
  import opened Wrappers
  import opened Words
  import opened Epoch
  import opened Engine

  // ---------- Ranges are disjoint between resets ----------

  /** Some resetter has done exactly `done` of its four steps. */
  ghost predicate ResetterAt(s: State, done: nat) {
    || (s.submitter.Restoring? && s.submitter.done == done)
    || exists w :: 0 <= w < |s.watchers| && s.watchers[w].phase.Resetting? && s.watchers[w].phase.done == done
  }

  /** Some resetter has zeroed the counter and not yet cleared the ranges. */
  ghost predicate CounterAhead(s: State) {
    ResetterAt(s, 1)
  }

  predicate Registered(sh: Shared, uuid: Uuid, i: int) {
    uuid in sh.ranges && 0 <= i < |sh.ranges[uuid]|
  }

  ghost predicate Disjoint(a: Range, b: Range) {
    forall n :: !(Contains(a, n) && Contains(b, n))
  }

  /** Every registered range lies below the counter and no two registrations overlap. */
  ghost predicate RangesApart(sh: Shared) {
    && (forall u, i | Registered(sh, u, i) :: sh.ranges[u][i].end <= sh.nonce)
    && (forall u, i, v, j | Registered(sh, u, i) && Registered(sh, v, j) && (u != v || i != j) ::
          Disjoint(sh.ranges[u][i], sh.ranges[v][j]))
  }

  /** A range that overlaps none registered. */
  ghost predicate ApartFromAll(sh: Shared, block: Range) {
    forall u, i | Registered(sh, u, i) :: Disjoint(sh.ranges[u][i], block)
  }

  lemma NextIsApart(sh: Shared)
    requires RangesApart(sh) && sh.nonce + NONCE_RANGE_SIZE <= U64_MAX
    ensures RangesApart(TakeNext(sh)) && ApartFromAll(TakeNext(sh), NextRange(sh.nonce))
    ensures NextRange(sh.nonce).end <= TakeNext(sh).nonce
  {
    forall u, i | Registered(TakeNext(sh), u, i)
      ensures Registered(sh, u, i)
    {
    }
  }

  lemma AddKeepsApart(sh: Shared, uuid: Uuid, block: Range)
    requires RangesApart(sh) && block.end <= sh.nonce && ApartFromAll(sh, block)
    ensures RangesApart(AddRange(sh, uuid, block))
  {
    var sh' := AddRange(sh, uuid, block);
    var last := |sh'.ranges[uuid]| - 1;
    AddedOrOld(sh, uuid, block);
    forall u, i, v, j | Registered(sh', u, i) && Registered(sh', v, j) && (u != v || i != j)
      ensures Disjoint(sh'.ranges[u][i], sh'.ranges[v][j])
    {
      if u == uuid && i == last {
        assert Registered(sh, v, j);
      } else if v == uuid && j == last {
        assert Registered(sh, u, i);
      } else {
        assert Registered(sh, u, i) && Registered(sh, v, j);
      }
    }
  }

  /** What is registered after a block was added is that block or was registered before. */
  lemma AddedOrOld(sh: Shared, uuid: Uuid, block: Range)
    ensures var sh' := AddRange(sh, uuid, block);
            forall u, i | Registered(sh', u, i) ::
              if u == uuid && i == |sh'.ranges[uuid]| - 1 then sh'.ranges[u][i] == block
              else Registered(sh, u, i) && sh'.ranges[u][i] == sh.ranges[u][i]
  {
  }

  lemma IssueKeepsApart(sh: Shared, uuid: Uuid)
    requires RangesApart(sh) && sh.nonce + NONCE_RANGE_SIZE <= U64_MAX
    ensures RangesApart(Issue(sh, uuid))
  {
    NextIsApart(sh);
    AddKeepsApart(TakeNext(sh), uuid, NextRange(sh.nonce));
  }

  // ---------- Blocks on their way to registration ----------

  /** The blocks waiting to be registered lie below the counter, and none overlaps another. */
  ghost predicate BlocksFit(s: State) {
    && (forall k | 0 <= k < |s.blocks| :: s.blocks[k].range.end <= s.sh.nonce)
    && (forall k, j | 0 <= k < |s.blocks| && 0 <= j < |s.blocks| && k != j ::
          Disjoint(s.blocks[k].range, s.blocks[j].range))
  }

  /** They overlap nothing registered, either. */
  ghost predicate BlocksApart(s: State) {
    && BlocksFit(s)
    && (forall k | 0 <= k < |s.blocks| :: ApartFromAll(s.sh, s.blocks[k].range))
  }

  /** A premise on a run: a clear of the ranges that leaves no counter ahead finds the waiting blocks fit. */
  ghost predicate ClearsFindFit(h: Hashing, s: State, steps: seq<Step>)
    requires Valid(h, s, steps)
    decreases |steps|
  {
    steps == [] ||
    (var before := Exec(h, s, steps[..|steps| - 1]);
     ClearsFindFit(h, s, steps[..|steps| - 1])
     && (Leaves(before, steps[|steps| - 1], CLEAR_RANGES) && !CounterAhead(Exec(h, s, steps)) ==> BlocksFit(before)))
  }

  lemma TakeKeepsBlocks(s: State, s': State, uuid: Uuid)
    requires RangesApart(s.sh) && BlocksApart(s) && s.sh.nonce + NONCE_RANGE_SIZE <= U64_MAX
    requires s'.sh == TakeNext(s.sh) && s'.blocks == s.blocks + [Block(uuid, NextRange(s.sh.nonce))]
    ensures RangesApart(s'.sh) && BlocksApart(s')
  {
    NextIsApart(s.sh);
    forall k | 0 <= k < |s.blocks|
      ensures ApartFromAll(s'.sh, s.blocks[k].range)
    {
      ApartStays(s.sh, s'.sh, s.blocks[k].range);
    }
    assert forall k | 0 <= k < |s.blocks| :: s'.blocks[k] == s.blocks[k];
  }

  lemma ApartStays(sh: Shared, sh': Shared, block: Range)
    requires ApartFromAll(sh, block) && sh'.ranges == sh.ranges
    ensures ApartFromAll(sh', block)
  {
    forall u, i | Registered(sh', u, i)
      ensures Disjoint(sh'.ranges[u][i], block)
    {
      assert Registered(sh, u, i);
    }
  }

  lemma ApartFromAdded(sh: Shared, uuid: Uuid, added: Range, block: Range)
    requires ApartFromAll(sh, block) && Disjoint(added, block)
    ensures ApartFromAll(AddRange(sh, uuid, added), block)
  {
    AddedOrOld(sh, uuid, added);
  }

  lemma RegisterKeepsBlocks(s: State, s': State, k: nat)
    requires RangesApart(s.sh) && BlocksApart(s) && k < |s.blocks|
    requires s'.sh == AddRange(s.sh, s.blocks[k].uuid, s.blocks[k].range)
    requires s'.blocks == s.blocks[..k] + s.blocks[k + 1..]
    ensures RangesApart(s'.sh) && BlocksApart(s')
  {
    AddKeepsApart(s.sh, s.blocks[k].uuid, s.blocks[k].range);
    forall j | 0 <= j < |s'.blocks|
      ensures s'.blocks[j].range.end <= s'.sh.nonce && ApartFromAll(s'.sh, s'.blocks[j].range)
    {
      var old_j := if j < k then j else j + 1;
      assert s'.blocks[j] == s.blocks[old_j];
      ApartFromAdded(s.sh, s.blocks[k].uuid, s.blocks[k].range, s.blocks[old_j].range);
    }
    assert forall j | 0 <= j < |s'.blocks| :: s'.blocks[j] == s.blocks[if j < k then j else j + 1];
  }

  lemma IssueKeepsBlocks(s: State, s': State, uuid: Uuid)
    requires RangesApart(s.sh) && BlocksApart(s) && s.sh.nonce + NONCE_RANGE_SIZE <= U64_MAX
    requires s'.sh == Issue(s.sh, uuid) && s'.blocks == s.blocks
    ensures RangesApart(s'.sh) && BlocksApart(s')
  {
    NextIsApart(s.sh);
    IssueKeepsApart(s.sh, uuid);
    var taken := TakeNext(s.sh);
    forall k | 0 <= k < |s'.blocks|
      ensures ApartFromAll(s'.sh, s'.blocks[k].range)
    {
      ApartStays(s.sh, taken, s.blocks[k].range);
      ApartFromAdded(taken, uuid, NextRange(s.sh.nonce), s.blocks[k].range);
    }
  }

  lemma ResetterStays(s: State, s': State, done: nat, mover: int)
    requires ResetterAt(s, done)
    requires mover == -1 || s'.submitter == s.submitter
    requires mover == -1 ==> !(s.submitter.Restoring? && s.submitter.done == done)
    requires |s.watchers| <= |s'.watchers|
    requires forall w | 0 <= w < |s.watchers| && w != mover :: s'.watchers[w].phase == s.watchers[w].phase
    requires 0 <= mover < |s.watchers| ==>
               !(s.watchers[mover].phase.Resetting? && s.watchers[mover].phase.done == done)
    ensures ResetterAt(s', done)
  {
    if !(s.submitter.Restoring? && s.submitter.done == done) {
      var w :| 0 <= w < |s.watchers| && s.watchers[w].phase.Resetting? && s.watchers[w].phase.done == done;
      assert s'.watchers[w].phase == s.watchers[w].phase;
    }
  }

  /** The next steps of a resetter: which phase it leaves and which it enters. */
  predicate Leaves(s: State, step: Step, done: nat) {
    || (step.Submit? && step.outcome.Advance? && s.submitter.Restoring? && s.submitter.done == done)
    || (step.Watch? && step.watcher < |s.watchers| && s.watchers[step.watcher].phase.Resetting?
        && s.watchers[step.watcher].phase.done == done)
  }

  lemma OthersStay(h: Hashing, s: State, step: Step, done: nat)
    requires Enabled(h, s, step) && ResetterAt(s, done) && !Leaves(s, step, done)
    ensures ResetterAt(Apply(h, s, step), done)
  {
    var s' := Apply(h, s, step);
    WatchersKept(h, s, step);
    match step {
      case Watch(w, answer) => ResetterStays(s, s', done, w);
      case Submit(o) => ResetterStays(s, s', done, -1);
      case _ => ResetterStays(s, s', done, -2);
    }
  }

  /** Only a watcher's own step moves it, and only the submitter's moves the submitter. */
  lemma WatchersKept(h: Hashing, s: State, step: Step)
    requires Enabled(h, s, step)
    ensures var s' := Apply(h, s, step);
            && |s.watchers| <= |s'.watchers|
            && (forall w | 0 <= w < |s.watchers| && !(step.Watch? && step.watcher == w) ::
                  s'.watchers[w].phase == s.watchers[w].phase)
            && (!step.Submit? ==> s'.submitter == s.submitter)
  {
  }

  /** A resetter that takes its step enters the next phase. */
  lemma NextPhase(h: Hashing, s: State, step: Step, done: nat)
    requires Enabled(h, s, step) && Leaves(s, step, done) && done < OPEN_WINDOW
    ensures ResetterAt(Apply(h, s, step), done + 1)
  {
    var s' := Apply(h, s, step);
    if step.Watch? {
      assert s'.watchers[step.watcher].phase.Resetting? && s'.watchers[step.watcher].phase.done == done + 1;
    }
  }

  /** What a resetter's step does to the shared state, whichever resetter it is. */
  lemma LeavingEffect(h: Hashing, s: State, step: Step, done: nat) returns (challenge: Option<Challenge>)
    requires Enabled(h, s, step) && Leaves(s, step, done)
    ensures done <= OPEN_WINDOW && Apply(h, s, step).sh == ResetStep(s.sh, done, challenge)
  {
    challenge := if step.Watch? then Some(s.watchers[step.watcher].phase.challenge) else s.submitter.to;
  }

  ghost predicate RangeInv(s: State) {
    !CounterAhead(s) ==> RangesApart(s.sh) && BlocksApart(s)
  }

  predicate MovesRanges(step: Step) {
    step.TakeBlock? || step.Register? || step.IssueTo?
  }

  lemma DispatchKeepsBlocks(h: Hashing, s: State, step: Step)
    requires RangesApart(s.sh) && BlocksApart(s) && Enabled(h, s, step) && MovesRanges(step)
    ensures var s' := Apply(h, s, step); RangesApart(s'.sh) && BlocksApart(s')
  {
    var s' := Apply(h, s, step);
    match step {
      case TakeBlock(uuid) => TakeKeepsBlocks(s, s', uuid);
      case Register(k) => RegisterKeepsBlocks(s, s', k);
      case IssueTo(uuid) => IssueKeepsBlocks(s, s', uuid);
    }
  }

  lemma ApartUntouched(s: State, s': State)
    requires RangesApart(s.sh) && BlocksApart(s)
    requires s'.sh.ranges == s.sh.ranges && s'.sh.nonce == s.sh.nonce && s'.blocks == s.blocks
    ensures RangesApart(s'.sh) && BlocksApart(s')
  {
    assert forall u, i :: Registered(s'.sh, u, i) <==> Registered(s.sh, u, i);
    forall k | 0 <= k < |s'.blocks|
      ensures ApartFromAll(s'.sh, s'.blocks[k].range)
    {
      ApartStays(s.sh, s'.sh, s.blocks[k].range);
    }
  }

  /** With the ranges gone, blocks that fit are apart from all that is registered. */
  lemma ClearKeepsFit(h: Hashing, s: State, step: Step)
    requires Enabled(h, s, step) && Leaves(s, step, CLEAR_RANGES) && BlocksFit(s)
    ensures var s' := Apply(h, s, step); RangesApart(s'.sh) && BlocksApart(s')
  {
    var s' := Apply(h, s, step);
    var c := LeavingEffect(h, s, step, CLEAR_RANGES);
    assert s'.sh.ranges == map[] && s'.sh.nonce == s.sh.nonce && s'.blocks == s.blocks;
    assert forall u, i :: !Registered(s'.sh, u, i);
  }

  lemma RangeStep(h: Hashing, s: State, step: Step)
    requires RangeInv(s) && Enabled(h, s, step)
    requires Leaves(s, step, CLEAR_RANGES) && !CounterAhead(Apply(h, s, step)) ==> BlocksFit(s)
    ensures RangeInv(Apply(h, s, step))
  {
    var s' := Apply(h, s, step);
    if CounterAhead(s') {
    } else if Leaves(s, step, 0) {
      NextPhase(h, s, step, 0);
    } else if Leaves(s, step, 1) {
      ClearKeepsFit(h, s, step);
    } else {
      if CounterAhead(s) {
        OthersStay(h, s, step, 1);
      }
      if MovesRanges(step) {
        DispatchKeepsBlocks(h, s, step);
      } else {
        RangesUntouched(h, s, step);
        ApartUntouched(s, s');
      }
    }
  }

  lemma RangesUntouched(h: Hashing, s: State, step: Step)
    requires Enabled(h, s, step) && !MovesRanges(step) && !Leaves(s, step, 0) && !Leaves(s, step, 1)
    ensures var s' := Apply(h, s, step);
            s'.sh.ranges == s.sh.ranges && s'.sh.nonce == s.sh.nonce && s'.blocks == s.blocks
  {
  }

  /** In every reachable state of a run whose clears find the waiting blocks fit: unless some resetter has
      zeroed the counter and not yet cleared the ranges, all registered ranges of all clients, and all blocks
      on their way to registration, are disjoint and below the counter. */
  lemma {:induction false} RangesStayApart(h: Hashing, s: State, steps: seq<Step>)
    requires Initial(s) && Valid(h, s, steps) && ClearsFindFit(h, s, steps)
    ensures var t := Exec(h, s, steps); !CounterAhead(t) ==> RangesApart(t.sh) && BlocksApart(t)
    decreases |steps|
  {
    if steps != [] {
      var before := steps[..|steps| - 1];
      RangesStayApart(h, s, before);
      RangeStep(h, Exec(h, s, before), steps[|steps| - 1]);
    }
  }

  /** A block taken and registered with nothing in between is issued in one step. */
  lemma IssueIsTakeAndRegister(h: Hashing, s: State, uuid: Uuid)
    requires Enabled(h, s, TakeBlock(uuid))
    ensures var t := Apply(h, s, TakeBlock(uuid));
            && Enabled(h, t, Register(|s.blocks|)) && Enabled(h, s, IssueTo(uuid))
            && Apply(h, t, Register(|s.blocks|)) == Apply(h, s, IssueTo(uuid))
  {
    var t := Apply(h, s, TakeBlock(uuid));
    assert t.blocks[..|s.blocks|] + t.blocks[|s.blocks| + 1..] == s.blocks;
  }

  lemma NoBlockStep(h: Hashing, s: State, step: Step)
    requires Enabled(h, s, step) && s.blocks == [] && !step.TakeBlock?
    ensures Apply(h, s, step).blocks == []
  {
  }

  /** Where every block is registered as it is taken, the premise holds. */
  lemma {:induction false} OneStepIssueIsEnough(h: Hashing, s: State, steps: seq<Step>)
    requires Initial(s) && Valid(h, s, steps) && forall i | 0 <= i < |steps| :: !steps[i].TakeBlock?
    ensures Exec(h, s, steps).blocks == [] && ClearsFindFit(h, s, steps)
    decreases |steps|
  {
    if steps != [] {
      var before := steps[..|steps| - 1];
      OneStepIssueIsEnough(h, s, before);
      NoBlockStep(h, Exec(h, s, before), steps[|steps| - 1]);
    }
  }

  lemma SubsUntouched(h: Hashing, s: State, step: Step)
    requires Enabled(h, s, step) && !step.Handle? && !Leaves(s, step, 2)
    ensures Apply(h, s, step).sh.hashes == s.sh.hashes
  {
  }

  /** No client loses a range. */
  predicate RangesGrow(sh: Shared, sh': Shared) {
    forall u | u in sh.ranges :: u in sh'.ranges && sh.ranges[u] <= sh'.ranges[u]
  }

  lemma DispatchGrows(h: Hashing, s: State, step: Step)
    requires Enabled(h, s, step) && MovesRanges(step)
    ensures var s' := Apply(h, s, step); RangesGrow(s.sh, s'.sh) && s'.sh.hashes == s.sh.hashes
  {
  }

  /** The tracked proof never goes back. */
  lemma ProofMovesForward(h: Hashing, s: State, step: Step)
    requires Enabled(h, s, step)
    ensures s.proof.challenge <= Apply(h, s, step).proof.challenge
  {
  }
}
