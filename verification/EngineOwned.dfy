/** Who owns a recorded nonce. */
module EngineOwned {
  import opened Wrappers
  import opened Epoch
  import opened Engine
  import opened EngineRanges
  import opened EngineCoarse

  /** Some reset has zeroed the counter and has not yet cleared the hashes. */
  ghost predicate HalfReset(s: State) {
    ResetterAt(s, 1) || ResetterAt(s, 2)
  }

  /** Every recorded nonce lies in a range registered to the client that submitted it. */
  predicate Owned(sh: Shared) {
    forall u | u in sh.hashes.subs :: u in sh.ranges && InRanges(sh.ranges[u], sh.hashes.subs[u].nonce)
  }

  /** That is, within the bounds of one of them. */
  lemma OwnedMeans(sh: Shared, u: Uuid)
    requires Owned(sh) && u in sh.hashes.subs
    ensures u in sh.ranges
    ensures exists i :: 0 <= i < |sh.ranges[u]|
                        && sh.ranges[u][i].start <= sh.hashes.subs[u].nonce < sh.ranges[u][i].end
  {
    var i :| 0 <= i < |sh.ranges[u]| && Contains(sh.ranges[u][i], sh.hashes.subs[u].nonce);
    assert sh.ranges[u][i].start <= sh.hashes.subs[u].nonce < sh.ranges[u][i].end;
  }

  ghost predicate OwnedInv(s: State) {
    RangeInv(s) && (!HalfReset(s) ==> Owned(s.sh))
  }

  lemma InGrown(rs: seq<Range>, rs': seq<Range>, n: nat)
    requires InRanges(rs, n) && rs <= rs'
    ensures InRanges(rs', n)
  {
    var i :| 0 <= i < |rs| && Contains(rs[i], n);
    assert rs'[i] == rs[i];
  }

  lemma GrowKeepsOwned(sh: Shared, sh': Shared)
    requires Owned(sh) && RangesGrow(sh, sh') && sh'.hashes.subs == sh.hashes.subs
    ensures Owned(sh')
  {
    forall u | u in sh'.hashes.subs
      ensures u in sh'.ranges && InRanges(sh'.ranges[u], sh'.hashes.subs[u].nonce)
    {
      InGrown(sh.ranges[u], sh'.ranges[u], sh.hashes.subs[u].nonce);
    }
  }

  lemma OwnedStep(h: Hashing, s: State, step: Step)
    requires OwnedInv(s) && Enabled(h, s, step) && !step.Handle?
    requires Leaves(s, step, CLEAR_RANGES) && !CounterAhead(Apply(h, s, step)) ==> BlocksFit(s)
    ensures OwnedInv(Apply(h, s, step))
  {
    var s' := Apply(h, s, step);
    RangeStep(h, s, step);
    if HalfReset(s') {
    } else if Leaves(s, step, 0) {
      NextPhase(h, s, step, 0);
    } else if Leaves(s, step, 1) {
      NextPhase(h, s, step, 1);
    } else if Leaves(s, step, 2) {
      var c := LeavingEffect(h, s, step, 2);
      assert s'.sh.hashes.subs == map[];
    } else {
      if ResetterAt(s, 1) {
        OthersStay(h, s, step, 1);
      }
      if ResetterAt(s, 2) {
        OthersStay(h, s, step, 2);
      }
      SubsUntouched(h, s, step);
      if MovesRanges(step) {
        DispatchGrows(h, s, step);
        GrowKeepsOwned(s.sh, s'.sh);
      } else {
        RangesUntouched(h, s, step);
      }
    }
  }

  lemma OwnedAccept(h: Hashing, s: State, c: Coarse)
    requires OwnedInv(s) && c.Accept?
    ensures OwnedInv(CoarseApply(h, s, c))
  {
    var s' := CoarseApply(h, s, c);
    assert s'.submitter == s.submitter && s'.watchers == s.watchers && s'.sh.ranges == s.sh.ranges;
    assert HalfReset(s) <==> HalfReset(s');
    assert CounterAhead(s) <==> CounterAhead(s');
    if !CounterAhead(s) {
      ApartUntouched(s, s');
    }
  }

  /** The premise of RangesStayApart on a coarse run. */
  ghost predicate CoarseClearsFindFit(h: Hashing, s: State, cs: seq<Coarse>)
    requires CoarseValid(h, s, cs)
    decreases |cs|
  {
    cs == [] ||
    (var before, c := CoarseExec(h, s, cs[..|cs| - 1]), cs[|cs| - 1];
     CoarseClearsFindFit(h, s, cs[..|cs| - 1])
     && (c.Fine? && Leaves(before, c.step, CLEAR_RANGES) && !CounterAhead(CoarseExec(h, s, cs)) ==> BlocksFit(before)))
  }

  /** Where every block is registered as it is taken, a coarse run meets it. */
  lemma {:induction false} CoarseOneStepIssueIsEnough(h: Hashing, s: State, cs: seq<Coarse>)
    requires Initial(s) && CoarseValid(h, s, cs)
    requires forall i | 0 <= i < |cs| && cs[i].Fine? :: !cs[i].step.TakeBlock?
    ensures CoarseExec(h, s, cs).blocks == [] && CoarseClearsFindFit(h, s, cs)
    decreases |cs|
  {
    if cs != [] {
      var before, c := cs[..|cs| - 1], cs[|cs| - 1];
      CoarseOneStepIssueIsEnough(h, s, before);
      if c.Fine? {
        NoBlockStep(h, CoarseExec(h, s, before), c.step);
      }
    }
  }

  lemma {:induction false} OwnedRun(h: Hashing, s: State, cs: seq<Coarse>)
    requires Initial(s) && CoarseValid(h, s, cs) && CoarseClearsFindFit(h, s, cs)
    ensures OwnedInv(CoarseExec(h, s, cs))
    decreases |cs|
  {
    if cs != [] {
      var before := cs[..|cs| - 1];
      var c := cs[|cs| - 1];
      OwnedRun(h, s, before);
      if c.Fine? {
        OwnedStep(h, CoarseExec(h, s, before), c.step);
      } else {
        OwnedAccept(h, CoarseExec(h, s, before), c);
      }
    }
  }

  /** With each message handled in one step: whenever no reset is half done, every recorded nonce lies
      in its own client's ranges, and no two clients have recorded the same nonce. */
  lemma NoncesAreOwned(h: Hashing, s: State, cs: seq<Coarse>)
    requires Initial(s) && CoarseValid(h, s, cs) && CoarseClearsFindFit(h, s, cs)
    requires !HalfReset(CoarseExec(h, s, cs))
    ensures var sh := CoarseExec(h, s, cs).sh;
            && Owned(sh)
            && forall u, v | u in sh.hashes.subs && v in sh.hashes.subs && u != v ::
                 sh.hashes.subs[u].nonce != sh.hashes.subs[v].nonce
  {
    OwnedRun(h, s, cs);
    var sh := CoarseExec(h, s, cs).sh;
    forall u, v | u in sh.hashes.subs && v in sh.hashes.subs && u != v
      ensures sh.hashes.subs[u].nonce != sh.hashes.subs[v].nonce
    {
      DistinctOwners(sh, u, v);
    }
  }

  // ---------- The same with handlers interleaved ----------

  predicate Entitled(sh: Shared, w: Handler) {
    w.uuid in sh.ranges && InRanges(sh.ranges[w.uuid], w.sol.nonce)
  }

  /** A handler past its range check that may still record its solution: if it has not compared it with the
      tracked challenge, the solution is hard enough and answers that challenge or one to come. */
  ghost predicate MayRecord(h: Hashing, s: State, w: Handler) {
    || w.phase.Checked? || w.phase.Replacing?
    || (w.phase.InRange? && h.difficulty(w.sol) >= MIN_DIFF
        && exists c :: s.proof.challenge <= c && h.valid(w.sol, c))
  }

  ghost predicate RecordersEntitled(h: Hashing, s: State) {
    forall t | 0 <= t < |s.handlers| && MayRecord(h, s, s.handlers[t]) :: Entitled(s.sh, s.handlers[t])
  }

  /** A premise on a run that allows any interleaving: whenever a clear of the hashes leaves no reset half
      done, each handler that may still record holds a nonce of a range registered to its client. */
  ghost predicate ClearsFindEntitled(h: Hashing, s: State, steps: seq<Step>)
    requires Valid(h, s, steps)
    decreases |steps|
  {
    steps == [] ||
    (var before := Exec(h, s, steps[..|steps| - 1]);
     ClearsFindEntitled(h, s, steps[..|steps| - 1])
     && (Leaves(before, steps[|steps| - 1], CLEAR_HASHES) && !HalfReset(Exec(h, s, steps))
         ==> RecordersEntitled(h, before)))
  }

  ghost predicate EntitledInv(h: Hashing, s: State) {
    OwnedInv(s) && (!HalfReset(s) ==> RecordersEntitled(h, s))
  }

  lemma EntitledHandle(h: Hashing, s: State, t: nat, miner: Option<MinerId>)
    requires EntitledInv(h, s) && Enabled(h, s, Handle(t, miner))
    ensures EntitledInv(h, Apply(h, s, Handle(t, miner)))
  {
    var s' := Apply(h, s, Handle(t, miner));
    assert s'.submitter == s.submitter && s'.watchers == s.watchers;
    assert s'.sh.ranges == s.sh.ranges && s'.sh.nonce == s.sh.nonce && s'.blocks == s.blocks;
    assert HalfReset(s) <==> HalfReset(s');
    assert CounterAhead(s) <==> CounterAhead(s');
    if !CounterAhead(s) {
      ApartUntouched(s, s');
    }
    if !HalfReset(s) {
      HandleKeepsEntitled(h, s, t, miner);
    }
  }

  lemma HandleKeepsEntitled(h: Hashing, s: State, t: nat, miner: Option<MinerId>)
    requires Owned(s.sh) && RecordersEntitled(h, s) && Enabled(h, s, Handle(t, miner))
    ensures var s' := Apply(h, s, Handle(t, miner)); Owned(s'.sh) && RecordersEntitled(h, s')
  {
    var s' := Apply(h, s, Handle(t, miner));
    assert s'.sh.ranges == s.sh.ranges && s'.proof == s.proof;
    forall v | 0 <= v < |s'.handlers| && MayRecord(h, s', s'.handlers[v])
      ensures Entitled(s'.sh, s'.handlers[v])
    {
      assert v != t ==> s'.handlers[v] == s.handlers[v];
      assert MayRecord(h, s, s.handlers[v]) || (v == t && s.handlers[t].phase.WindowOpen?);
    }
    if s.handlers[t].phase.Replacing? {
      assert MayRecord(h, s, s.handlers[t]) && Entitled(s.sh, s.handlers[t]);
    }
  }

  /** Other steps: ranges only grow, or a reset is half done, or the hashes were just cleared. */
  lemma OthersKeepEntitled(h: Hashing, s: State, step: Step)
    requires RecordersEntitled(h, s) && Enabled(h, s, step) && !step.Handle?
    requires !Leaves(s, step, ZERO_COUNTER) && !Leaves(s, step, CLEAR_RANGES)
    ensures RecordersEntitled(h, Apply(h, s, step))
  {
    var s' := Apply(h, s, step);
    ProofMovesForward(h, s, step);
    if MovesRanges(step) {
      DispatchGrows(h, s, step);
    } else {
      RangesUntouched(h, s, step);
    }
    forall t | 0 <= t < |s'.handlers| && MayRecord(h, s', s'.handlers[t])
      ensures Entitled(s'.sh, s'.handlers[t])
    {
      assert t < |s.handlers| && s'.handlers[t] == s.handlers[t];
      var w := s.handlers[t];
      assert MayRecord(h, s, w);
      InGrown(s.sh.ranges[w.uuid], s'.sh.ranges[w.uuid], w.sol.nonce);
    }
  }

  lemma EntitledStep(h: Hashing, s: State, step: Step)
    requires EntitledInv(h, s) && Enabled(h, s, step)
    requires Leaves(s, step, CLEAR_RANGES) && !CounterAhead(Apply(h, s, step)) ==> BlocksFit(s)
    requires Leaves(s, step, CLEAR_HASHES) && !HalfReset(Apply(h, s, step)) ==> RecordersEntitled(h, s)
    ensures EntitledInv(h, Apply(h, s, step))
  {
    var s' := Apply(h, s, step);
    if step.Handle? {
      EntitledHandle(h, s, step.task, step.miner);
    } else {
      OwnedStep(h, s, step);
      if !HalfReset(s') {
        if Leaves(s, step, 0) {
          NextPhase(h, s, step, 0);
        } else if Leaves(s, step, 1) {
          NextPhase(h, s, step, 1);
        } else {
          if !Leaves(s, step, 2) {
            StillHalf(h, s, step);
          }
          OthersKeepEntitled(h, s, step);
        }
      }
    }
  }

  lemma StillHalf(h: Hashing, s: State, step: Step)
    requires Enabled(h, s, step) && !Leaves(s, step, 1) && !Leaves(s, step, 2)
    ensures HalfReset(s) ==> HalfReset(Apply(h, s, step))
  {
    if ResetterAt(s, 1) {
      OthersStay(h, s, step, 1);
    } else if ResetterAt(s, 2) {
      OthersStay(h, s, step, 2);
    }
  }

  lemma {:induction false} EntitledRun(h: Hashing, s: State, steps: seq<Step>)
    requires Initial(s) && Valid(h, s, steps) && ClearsFindFit(h, s, steps) && ClearsFindEntitled(h, s, steps)
    ensures EntitledInv(h, Exec(h, s, steps))
    decreases |steps|
  {
    if steps != [] {
      var before := steps[..|steps| - 1];
      EntitledRun(h, s, before);
      EntitledStep(h, Exec(h, s, before), steps[|steps| - 1]);
    }
  }

  lemma DistinctOwners(sh: Shared, u: Uuid, v: Uuid)
    requires RangesApart(sh) && Owned(sh) && u in sh.hashes.subs && v in sh.hashes.subs && u != v
    ensures sh.hashes.subs[u].nonce != sh.hashes.subs[v].nonce
  {
    var i :| 0 <= i < |sh.ranges[u]| && Contains(sh.ranges[u][i], sh.hashes.subs[u].nonce);
    var j :| 0 <= j < |sh.ranges[v]| && Contains(sh.ranges[v][j], sh.hashes.subs[v].nonce);
    assert Registered(sh, u, i) && Registered(sh, v, j);
    assert Disjoint(sh.ranges[u][i], sh.ranges[v][j]);
  }

  /** With handlers interleaved at will under that premise: whenever no reset is half done, every recorded
      nonce lies in its own client's ranges and no two clients have recorded the same nonce. */
  lemma InterleavedNoncesAreOwned(h: Hashing, s: State, steps: seq<Step>)
    requires Initial(s) && Valid(h, s, steps) && ClearsFindFit(h, s, steps) && ClearsFindEntitled(h, s, steps)
    requires !HalfReset(Exec(h, s, steps))
    ensures var sh := Exec(h, s, steps).sh;
            && Owned(sh)
            && forall u, v | u in sh.hashes.subs && v in sh.hashes.subs && u != v ::
                 sh.hashes.subs[u].nonce != sh.hashes.subs[v].nonce
  {
    EntitledRun(h, s, steps);
    var sh := Exec(h, s, steps).sh;
    forall u, v | u in sh.hashes.subs && v in sh.hashes.subs && u != v
      ensures sh.hashes.subs[u].nonce != sh.hashes.subs[v].nonce
    {
      DistinctOwners(sh, u, v);
    }
  }

  // ---------- The premise is exact ----------

  /** A handler that, left to itself, goes on to record: it has passed its checks, or will as things are. */
  predicate WillPass(h: Hashing, s: State, w: Handler) {
    || w.phase.Checked? || w.phase.Replacing?
    || (w.phase.InRange? && h.difficulty(w.sol) >= MIN_DIFF && h.valid(w.sol, s.proof.challenge))
  }

  /** Handlers alone lead to a recorded nonce that is not its client's. */
  predicate RecordsForeign(h: Hashing, s: State, steps: seq<Step>) {
    && Valid(h, s, steps) && (forall i | 0 <= i < |steps| :: steps[i].Handle?)
    && !Owned(Exec(h, s, steps).sh)
  }

  predicate PassersEntitled(h: Hashing, s: State) {
    forall t | 0 <= t < |s.handlers| && WillPass(h, s, s.handlers[t]) :: Entitled(s.sh, s.handlers[t])
  }

  /** Nothing is recorded and handler `t` is about to write. */
  lemma WriteForeign(h: Hashing, s: State, steps: seq<Step>, x: State, t: nat) returns (steps': seq<Step>)
    requires Valid(h, s, steps) && Exec(h, s, steps) == x && forall i | 0 <= i < |steps| :: steps[i].Handle?
    requires t < |x.handlers| && x.handlers[t].phase.Replacing? && !Entitled(x.sh, x.handlers[t])
    ensures RecordsForeign(h, s, steps')
  {
    steps' := Extend(h, s, steps, x, Handle(t, None));
    assert x.handlers[t].uuid in Exec(h, s, steps').sh.hashes.subs;
  }

  lemma ReadForeign(h: Hashing, s: State, steps: seq<Step>, x: State, t: nat) returns (steps': seq<Step>)
    requires Valid(h, s, steps) && Exec(h, s, steps) == x && forall i | 0 <= i < |steps| :: steps[i].Handle?
    requires t < |x.handlers| && x.handlers[t].phase.Checked? && !Entitled(x.sh, x.handlers[t])
    requires x.sh.hashes.subs == map[]
    ensures RecordsForeign(h, s, steps')
  {
    var k := Extend(h, s, steps, x, Handle(t, None));
    steps' := WriteForeign(h, s, k, Apply(h, x, Handle(t, None)), t);
  }

  lemma CheckForeign(h: Hashing, s: State, t: nat) returns (steps: seq<Step>)
    requires t < |s.handlers| && WillPass(h, s, s.handlers[t]) && !Entitled(s.sh, s.handlers[t])
    requires s.sh.hashes.subs == map[]
    ensures RecordsForeign(h, s, steps)
  {
    if s.handlers[t].phase.Replacing? {
      steps := WriteForeign(h, s, [], s, t);
    } else if s.handlers[t].phase.Checked? {
      steps := ReadForeign(h, s, [], s, t);
    } else {
      var k := Extend(h, s, [], s, Handle(t, Some(0)));
      steps := ReadForeign(h, s, k, Apply(h, s, Handle(t, Some(0))), t);
    }
  }

  lemma {:induction false} HandlersKeepOwned(h: Hashing, s: State, steps: seq<Step>)
    requires Valid(h, s, steps) && forall i | 0 <= i < |steps| :: steps[i].Handle?
    requires Owned(s.sh) && PassersEntitled(h, s)
    ensures Owned(Exec(h, s, steps).sh) && PassersEntitled(h, Exec(h, s, steps))
    decreases |steps|
  {
    if steps != [] {
      var before := steps[..|steps| - 1];
      HandlersKeepOwned(h, s, before);
      PasserStep(h, Exec(h, s, before), steps[|steps| - 1]);
    }
  }

  lemma PasserStep(h: Hashing, s: State, step: Step)
    requires Enabled(h, s, step) && step.Handle? && Owned(s.sh) && PassersEntitled(h, s)
    ensures Owned(Apply(h, s, step).sh) && PassersEntitled(h, Apply(h, s, step))
  {
    var s' := Apply(h, s, step);
    var t := step.task;
    assert s'.sh.ranges == s.sh.ranges && s'.proof == s.proof;
    forall v | 0 <= v < |s'.handlers| && WillPass(h, s', s'.handlers[v])
      ensures Entitled(s'.sh, s'.handlers[v])
    {
      assert v != t ==> s'.handlers[v] == s.handlers[v];
      assert WillPass(h, s, s.handlers[v]) || (v == t && s.handlers[t].phase.WindowOpen?);
    }
    if s.handlers[t].phase.Replacing? {
      assert WillPass(h, s, s.handlers[t]) && Entitled(s.sh, s.handlers[t]);
    }
  }

  /** In any state, after a clear of the hashes that leaves no reset half done: the handlers there are can
      record a nonce outside their client's ranges if and only if one that will pass holds such a nonce. */
  lemma ForeignExactlyAtClear(h: Hashing, s: State, step: Step)
    requires Enabled(h, s, step) && Leaves(s, step, CLEAR_HASHES) && !HalfReset(Apply(h, s, step))
    ensures (exists steps :: RecordsForeign(h, Apply(h, s, step), steps)) <==> !PassersEntitled(h, s)
  {
    var x := Apply(h, s, step);
    var c := LeavingEffect(h, s, step, CLEAR_HASHES);
    assert x.handlers == s.handlers && x.proof == s.proof && x.sh.ranges == s.sh.ranges && x.sh.hashes.subs == map[];
    if PassersEntitled(h, s) {
      assert PassersEntitled(h, x) by {
        assert forall t | 0 <= t < |s.handlers| :: WillPass(h, x, s.handlers[t]) == WillPass(h, s, s.handlers[t]);
      }
      forall steps: seq<Step> | Valid(h, x, steps) && forall i | 0 <= i < |steps| :: steps[i].Handle?
        ensures Owned(Exec(h, x, steps).sh)
      {
        HandlersKeepOwned(h, x, steps);
      }
    } else {
      var t :| 0 <= t < |s.handlers| && WillPass(h, s, s.handlers[t]) && !Entitled(s.sh, s.handlers[t]);
      var steps := CheckForeign(h, x, t);
      assert RecordsForeign(h, x, steps);
    }
  }
}
