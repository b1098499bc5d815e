/** When nobody's recorded difficulty drops before the next clear, and when the pool's best is the best of
    what is recorded: both depend only on handlers of one client that stand between read and write together. */
module EngineMax {
  import opened Wrappers
  import opened Epoch
  import opened Engine
  import opened EngineBest
  import opened EngineRanges
  import opened EnginePaid

  // ---------- Premises ----------

  /** Handlers `t` and `v` both stand between their read and their write phase, for one client. */
  predicate Rivals(s: State, t: nat, v: nat) {
    && t < |s.handlers| && v < |s.handlers| && t != v
    && s.handlers[t].phase.Replacing? && s.handlers[v].phase.Replacing? && s.handlers[t].uuid == s.handlers[v].uuid
  }

  /** They carry the same difficulty. */
  ghost predicate WritersAgree(s: State) {
    forall t: nat, v: nat | Rivals(s, t, v) :: s.handlers[t].phase.diff == s.handlers[v].phase.diff
  }

  /** They carry the same difficulty and nonce, or neither is harder than the pool's best. */
  ghost predicate BestSafe(s: State) {
    forall t: nat, v: nat | Rivals(s, t, v) ::
      var a, b := s.handlers[t], s.handlers[v];
      || (a.phase.diff == b.phase.diff && a.sol.nonce == b.sol.nonce)
      || (a.phase.diff <= s.sh.hashes.bestDiff && b.phase.diff <= s.sh.hashes.bestDiff)
  }

  /** A premise on a run: it holds in every state on the way. */
  ghost predicate AgreeAlong(h: Hashing, s: State, steps: seq<Step>)
    requires Valid(h, s, steps)
    decreases |steps|
  {
    WritersAgree(Exec(h, s, steps)) && (steps == [] || AgreeAlong(h, s, steps[..|steps| - 1]))
  }

  ghost predicate SafeAlong(h: Hashing, s: State, steps: seq<Step>)
    requires Valid(h, s, steps)
    decreases |steps|
  {
    BestSafe(Exec(h, s, steps)) && (steps == [] || SafeAlong(h, s, steps[..|steps| - 1]))
  }

  /** No client has two such handlers. */
  ghost predicate NoRivals(s: State) {
    forall t: nat, v: nat :: !Rivals(s, t, v)
  }

  ghost predicate Serialised(h: Hashing, s: State, steps: seq<Step>)
    requires Valid(h, s, steps)
    decreases |steps|
  {
    NoRivals(Exec(h, s, steps)) && (steps == [] || Serialised(h, s, steps[..|steps| - 1]))
  }

  lemma WithoutRivals(s: State)
    requires NoRivals(s)
    ensures WritersAgree(s) && BestSafe(s)
  {
  }

  /** Where tasks of one client do not overlap, both premises hold. */
  lemma {:induction false} SerialisedIsEnough(h: Hashing, s: State, steps: seq<Step>)
    requires Valid(h, s, steps) && Serialised(h, s, steps)
    ensures AgreeAlong(h, s, steps) && SafeAlong(h, s, steps)
    decreases |steps|
  {
    WithoutRivals(Exec(h, s, steps));
    if steps != [] {
      SerialisedIsEnough(h, s, steps[..|steps| - 1]);
    }
  }

  // ---------- No difficulty drops ----------

  /** Whoever is about to write is at least as hard as what its client has recorded. */
  predicate WritersKeepUp(s: State) {
    forall t | 0 <= t < |s.handlers| && s.handlers[t].phase.Replacing? && s.handlers[t].uuid in s.sh.hashes.subs ::
      s.sh.hashes.subs[s.handlers[t].uuid].diff <= s.handlers[t].phase.diff
  }

  /** Everybody recorded in `e` is still recorded in `e'`, with no lower difficulty. */
  predicate NoneDrops(e: Hashes, e': Hashes) {
    forall u | u in e.subs :: u in e'.subs && e.subs[u].diff <= e'.subs[u].diff
  }

  lemma KeepUpHandle(h: Hashing, s: State, t: nat, miner: Option<MinerId>)
    requires WritersKeepUp(s) && WritersAgree(s) && Enabled(h, s, Handle(t, miner))
    ensures WritersKeepUp(Apply(h, s, Handle(t, miner)))
  {
    var s' := Apply(h, s, Handle(t, miner));
    forall v | 0 <= v < |s'.handlers| && s'.handlers[v].phase.Replacing? && s'.handlers[v].uuid in s'.sh.hashes.subs
      ensures s'.sh.hashes.subs[s'.handlers[v].uuid].diff <= s'.handlers[v].phase.diff
    {
      if v != t {
        assert s'.handlers[v] == s.handlers[v];
        if s.handlers[t].phase.Replacing? && s.handlers[v].uuid == s.handlers[t].uuid {
          assert Rivals(s, t, v);
        }
      }
    }
  }

  lemma KeepUpStep(h: Hashing, s: State, step: Step)
    requires WritersKeepUp(s) && WritersAgree(s) && Enabled(h, s, step)
    ensures WritersKeepUp(Apply(h, s, step))
  {
    match step {
      case Handle(t, miner) => KeepUpHandle(h, s, t, miner);
      case Spawn(_, _) =>
      case _ =>
        assert Apply(h, s, step).handlers == s.handlers;
        if Leaves(s, step, CLEAR_HASHES) {
          var c := LeavingEffect(h, s, step, CLEAR_HASHES);
        } else {
          SubsUntouched(h, s, step);
        }
    }
  }

  lemma {:induction false} KeepUpRun(h: Hashing, s: State, steps: seq<Step>)
    requires WritersKeepUp(s) && Valid(h, s, steps) && (steps == [] || AgreeAlong(h, s, steps[..|steps| - 1]))
    ensures WritersKeepUp(Exec(h, s, steps))
    decreases |steps|
  {
    if steps != [] {
      var before := steps[..|steps| - 1];
      KeepUpRun(h, s, before);
      KeepUpStep(h, Exec(h, s, before), steps[|steps| - 1]);
    }
  }

  lemma NoneDropsStep(h: Hashing, s: State, step: Step)
    requires WritersKeepUp(s) && Enabled(h, s, step)
    ensures (Apply(h, s, step).sh.hashes.clears == s.sh.hashes.clears)
         ==> NoneDrops(s.sh.hashes, Apply(h, s, step).sh.hashes)
  {
    ClearsGrow(h, s, step);
    if !step.Handle? && !Leaves(s, step, CLEAR_HASHES) {
      SubsUntouched(h, s, step);
    }
  }

  lemma {:induction false} NoneDropsAlong(h: Hashing, s: State, steps: seq<Step>, from: nat)
    requires WritersKeepUp(s) && Valid(h, s, steps) && AgreeAlong(h, s, steps) && from <= |steps|
    ensures Valid(h, s, steps[..from])
    ensures var e, e' := Exec(h, s, steps[..from]).sh.hashes, Exec(h, s, steps).sh.hashes;
            e.clears <= e'.clears && (e.clears == e'.clears ==> NoneDrops(e, e'))
    decreases |steps|
  {
    if from == |steps| {
      assert steps[..from] == steps;
    } else {
      var n := |steps| - 1;
      var before := steps[..n];
      NoneDropsAlong(h, s, before, from);
      assert before[..from] == steps[..from];
      KeepUpRun(h, s, before);
      ClearsGrow(h, Exec(h, s, before), steps[n]);
      NoneDropsStep(h, Exec(h, s, before), steps[n]);
    }
  }

  /** If handlers of one client that are about to write together always carry one difficulty: from any point
      to any later one without a clear in between, no client's recorded difficulty drops. */
  lemma DifficultyNeverDrops(h: Hashing, s: State, steps: seq<Step>, from: nat)
    requires Initial(s) && Valid(h, s, steps) && AgreeAlong(h, s, steps) && from <= |steps|
    ensures Valid(h, s, steps[..from])
    ensures var e, e' := Exec(h, s, steps[..from]).sh.hashes, Exec(h, s, steps).sh.hashes;
            e.clears <= e'.clears && (e.clears == e'.clears ==> NoneDrops(e, e'))
  {
    NoneDropsAlong(h, s, steps, from);
  }

  // ---------- The best is the maximum ----------

  /** The best solution is some client's recorded submission. */
  predicate BestRecorded(e: Hashes) {
    e.best.Some? ==>
      exists u :: u in e.subs && e.subs[u].diff == e.bestDiff && e.subs[u].nonce == e.best.value.nonce
  }

  /** What client `u` has recorded is the best, and whatever it is about to write beats it or is the same. */
  predicate Holds(s: State, u: Uuid) {
    var e := s.sh.hashes;
    && e.best.Some? && u in e.subs && e.subs[u].diff == e.bestDiff && e.subs[u].nonce == e.best.value.nonce
    && forall t | 0 <= t < |s.handlers| && s.handlers[t].phase.Replacing? && s.handlers[t].uuid == u ::
         || s.handlers[t].phase.diff > e.bestDiff
         || (s.handlers[t].phase.diff == e.bestDiff && s.handlers[t].sol.nonce == e.best.value.nonce)
  }

  ghost predicate BestHeld(s: State) {
    s.sh.hashes.best.Some? ==> exists u :: Holds(s, u)
  }

  lemma WriteHolds(h: Hashing, s: State, t: nat, miner: Option<MinerId>)
    requires BestFits(h, s.sh.hashes) && BestHeld(s) && BestSafe(s) && Enabled(h, s, Handle(t, miner))
    requires s.handlers[t].phase.Replacing?
    ensures BestHeld(Apply(h, s, Handle(t, miner)))
  {
    var s' := Apply(h, s, Handle(t, miner));
    var w := s.handlers[t];
    assert forall v | 0 <= v < |s.handlers| && v != t :: s'.handlers[v] == s.handlers[v];
    if w.phase.diff > s.sh.hashes.bestDiff {
      assert forall v | 0 <= v < |s.handlers| && v != t && s.handlers[v].phase.Replacing?
                        && s.handlers[v].uuid == w.uuid ::
               Rivals(s, t, v);
      assert Holds(s', w.uuid);
    } else {
      assert s.sh.hashes.best.Some?;
      var u :| Holds(s, u);
      assert Holds(s', u);
    }
  }

  lemma HeldStep(h: Hashing, s: State, step: Step)
    requires BestInv(h, s) && BestHeld(s) && BestSafe(s) && Enabled(h, s, step)
    ensures BestHeld(Apply(h, s, step))
  {
    var s' := Apply(h, s, step);
    if step.Handle? && s.handlers[step.task].phase.Replacing? {
      WriteHolds(h, s, step.task, step.miner);
    } else if Leaves(s, step, CLEAR_HASHES) {
      var c := LeavingEffect(h, s, step, CLEAR_HASHES);
    } else {
      if !step.Handle? {
        SubsUntouched(h, s, step);
      }
      if s'.sh.hashes.best.Some? {
        var u :| Holds(s, u);
        HeldUntouched(h, s, step, u);
      }
    }
  }

  /** A handler that comes to stand before its write has just compared with what its client recorded. */
  lemma HeldUntouched(h: Hashing, s: State, step: Step, u: Uuid)
    requires Holds(s, u) && Enabled(h, s, step) && Apply(h, s, step).sh.hashes == s.sh.hashes
    requires !(step.Handle? && s.handlers[step.task].phase.Replacing?)
    ensures Holds(Apply(h, s, step), u)
  {
    var s' := Apply(h, s, step);
    assert forall v | 0 <= v < |s.handlers| && !(step.Handle? && v == step.task) :: s'.handlers[v] == s.handlers[v];
  }

  lemma {:induction false} HeldRun(h: Hashing, s: State, steps: seq<Step>)
    requires Initial(s) && Valid(h, s, steps) && (steps == [] || SafeAlong(h, s, steps[..|steps| - 1]))
    ensures BestHeld(Exec(h, s, steps))
    decreases |steps|
  {
    if steps != [] {
      var before := steps[..|steps| - 1];
      HeldRun(h, s, before);
      BestAlwaysFits(h, s, before);
      HeldStep(h, Exec(h, s, before), steps[|steps| - 1]);
    }
  }

  /** If handlers of one client that are about to write together never differ while one of them beats the
      best: the pool's best difficulty is the maximum of the recorded ones, and the best solution's nonce is
      that of a client recorded with it. */
  lemma BestIsTheMaximum(h: Hashing, s: State, steps: seq<Step>)
    requires Initial(s) && Valid(h, s, steps) && SafeAlong(h, s, steps)
    ensures var e := Exec(h, s, steps).sh.hashes;
            && (forall u | u in e.subs :: e.subs[u].diff <= e.bestDiff)
            && (e.best.Some? <==> e.subs != map[])
            && BestRecorded(e)
  {
    HeldRun(h, s, steps);
    BestAlwaysFits(h, s, steps);
  }

  // ---------- The premises are exact ----------

  /** Only handlers that were about to write at `s` move along these steps. */
  predicate OnlyWrites(h: Hashing, s: State, steps: seq<Step>) {
    && Valid(h, s, steps)
    && forall i | 0 <= i < |steps| ::
         steps[i].Handle? && steps[i].task < |s.handlers| && s.handlers[steps[i].task].phase.Replacing?
  }

  /** Writes alone make some client's recorded difficulty drop on the way. */
  predicate WritesDrop(h: Hashing, s: State, steps: seq<Step>) {
    && OnlyWrites(h, s, steps)
    && exists from :: 0 <= from <= |steps| && DropsFrom(h, s, steps, from)
  }

  predicate DropsFrom(h: Hashing, s: State, steps: seq<Step>, from: nat)
    requires Valid(h, s, steps) && from <= |steps|
  {
    && Valid(h, s, steps[..from])
    && !NoneDrops(Exec(h, s, steps[..from]).sh.hashes, Exec(h, s, steps).sh.hashes)
  }

  /** Along writes alone nobody comes to stand before a write, and nothing is cleared. */
  lemma {:induction false} FewerWriters(h: Hashing, s: State, steps: seq<Step>)
    requires OnlyWrites(h, s, steps)
    ensures var t := Exec(h, s, steps);
            && |t.handlers| == |s.handlers| && t.sh.hashes.clears == s.sh.hashes.clears
            && t.sh.hashes.bestDiff >= s.sh.hashes.bestDiff
            && forall v | 0 <= v < |s.handlers| ::
                 t.handlers[v] == s.handlers[v] || (s.handlers[v].phase.Replacing? && t.handlers[v].phase.Wrote?)
    decreases |steps|
  {
    if steps != [] {
      FewerWriters(h, s, steps[..|steps| - 1]);
    }
  }

  lemma {:induction false} StillAgree(h: Hashing, s: State, steps: seq<Step>)
    requires OnlyWrites(h, s, steps) && WritersAgree(s)
    ensures AgreeAlong(h, s, steps)
    decreases |steps|
  {
    FewerWriters(h, s, steps);
    var t := Exec(h, s, steps);
    forall a: nat, b: nat | Rivals(t, a, b)
      ensures t.handlers[a].phase.diff == t.handlers[b].phase.diff
    {
      assert Rivals(s, a, b);
    }
    if steps != [] {
      StillAgree(h, s, steps[..|steps| - 1]);
    }
  }

  /** The first writes, then the second. */
  lemma BothWrite(h: Hashing, s: State, t: nat, v: nat) returns (steps: seq<Step>, x: State)
    requires Rivals(s, t, v)
    ensures steps == [Handle(t, None), Handle(v, None)] && OnlyWrites(h, s, steps)
    ensures Valid(h, s, steps[..1]) && Exec(h, s, steps[..1]) == x == Apply(h, s, Handle(t, None))
    ensures x.handlers[v] == s.handlers[v] && Exec(h, s, steps) == Apply(h, x, Handle(v, None))
  {
    var k := Extend(h, s, [], s, Handle(t, None));
    x := Apply(h, s, Handle(t, None));
    steps := Extend(h, s, k, x, Handle(v, None));
    assert steps[..1] == k;
  }

  lemma UnequalDrop(h: Hashing, s: State, t: nat, v: nat) returns (steps: seq<Step>)
    requires Rivals(s, t, v) && s.handlers[t].phase.diff > s.handlers[v].phase.diff
    ensures WritesDrop(h, s, steps)
  {
    var x: State;
    steps, x := BothWrite(h, s, t, v);
    var u := s.handlers[t].uuid;
    var e, e' := x.sh.hashes, Exec(h, s, steps).sh.hashes;
    assert u in e.subs && e.subs[u].diff == s.handlers[t].phase.diff;
    assert e'.subs[u].diff == s.handlers[v].phase.diff;
    assert DropsFrom(h, s, steps, 1);
  }

  /** In any state that a run led to whose earlier states kept the premise of DifficultyNeverDrops: the writes
      that are due can make a recorded difficulty drop if and only if two handlers of one client are about to
      write different difficulties. */
  lemma DropsExactlyWhenUnequal(h: Hashing, s0: State, run: seq<Step>, s: State)
    requires Initial(s0) && Valid(h, s0, run) && s == Exec(h, s0, run)
    requires run == [] || AgreeAlong(h, s0, run[..|run| - 1])
    ensures (exists steps :: WritesDrop(h, s, steps)) <==> !WritersAgree(s)
  {
    KeepUpRun(h, s0, run);
    if WritersAgree(s) {
      forall steps | OnlyWrites(h, s, steps)
        ensures !WritesDrop(h, s, steps)
      {
        NoDropByWrites(h, s, steps);
      }
    } else {
      var t: nat, v: nat :| Rivals(s, t, v) && s.handlers[t].phase.diff != s.handlers[v].phase.diff;
      assert Rivals(s, v, t);
      var steps: seq<Step>;
      if s.handlers[t].phase.diff > s.handlers[v].phase.diff {
        steps := UnequalDrop(h, s, t, v);
      } else {
        steps := UnequalDrop(h, s, v, t);
      }
      assert WritesDrop(h, s, steps);
    }
  }

  lemma NoDropByWrites(h: Hashing, s: State, steps: seq<Step>)
    requires OnlyWrites(h, s, steps) && WritersAgree(s) && WritersKeepUp(s)
    ensures !WritesDrop(h, s, steps)
  {
    StillAgree(h, s, steps);
    forall from | 0 <= from <= |steps| && Valid(h, s, steps[..from])
      ensures !DropsFrom(h, s, steps, from)
    {
      NoneDropsAlong(h, s, steps, from);
      FewerWriters(h, s, steps);
      FewerWriters(h, s, steps[..from]);
    }
  }

  lemma {:induction false} StillHeld(h: Hashing, s: State, steps: seq<Step>)
    requires OnlyWrites(h, s, steps) && BestInv(h, s) && BestHeld(s) && BestSafe(s)
    ensures var t := Exec(h, s, steps); BestInv(h, t) && BestHeld(t)
    decreases |steps|
  {
    if steps != [] {
      var before := steps[..|steps| - 1];
      StillHeld(h, s, before);
      StillSafe(h, s, before);
      BestStep(h, Exec(h, s, before), steps[|steps| - 1]);
      HeldStep(h, Exec(h, s, before), steps[|steps| - 1]);
    }
  }

  lemma StillSafe(h: Hashing, s: State, steps: seq<Step>)
    requires OnlyWrites(h, s, steps) && BestSafe(s)
    ensures BestSafe(Exec(h, s, steps))
  {
    FewerWriters(h, s, steps);
    var t := Exec(h, s, steps);
    assert forall a: nat, b: nat | Rivals(t, a, b) :: Rivals(s, a, b);
  }

  lemma UnsafeLoses(h: Hashing, s: State, t: nat, v: nat) returns (steps: seq<Step>)
    requires BestFits(h, s.sh.hashes) && Rivals(s, t, v)
    requires s.handlers[t].phase.diff > s.sh.hashes.bestDiff && s.handlers[t].phase.diff >= s.handlers[v].phase.diff
    requires s.handlers[t].phase.diff != s.handlers[v].phase.diff || s.handlers[t].sol.nonce != s.handlers[v].sol.nonce
    ensures OnlyWrites(h, s, steps) && !BestRecorded(Exec(h, s, steps).sh.hashes)
  {
    var x: State;
    steps, x := BothWrite(h, s, t, v);
    var e := Exec(h, s, steps).sh.hashes;
    assert e.best == Some(s.handlers[t].sol) && e.bestDiff == s.handlers[t].phase.diff;
    forall u | u in e.subs && u != s.handlers[t].uuid
      ensures e.subs[u].diff < e.bestDiff
    {
      assert u in s.sh.hashes.subs && e.subs[u] == s.sh.hashes.subs[u];
    }
  }

  /** In any state that a run led to whose earlier states kept the premise of BestIsTheMaximum: the writes that
      are due can leave the best solution unrecorded if and only if two handlers of one client are about to
      write different solutions, one of which beats the best. */
  lemma BestLostExactlyWhenUnsafe(h: Hashing, s0: State, run: seq<Step>, s: State)
    requires Initial(s0) && Valid(h, s0, run) && s == Exec(h, s0, run)
    requires run == [] || SafeAlong(h, s0, run[..|run| - 1])
    ensures (exists steps :: OnlyWrites(h, s, steps) && !BestRecorded(Exec(h, s, steps).sh.hashes)) <==> !BestSafe(s)
  {
    HeldRun(h, s0, run);
    BestAlwaysFits(h, s0, run);
    if BestSafe(s) {
      forall steps | OnlyWrites(h, s, steps)
        ensures BestRecorded(Exec(h, s, steps).sh.hashes)
      {
        StillHeld(h, s, steps);
      }
    } else {
      var t: nat, v: nat :| Rivals(s, t, v)
        && (s.handlers[t].phase.diff != s.handlers[v].phase.diff || s.handlers[t].sol.nonce != s.handlers[v].sol.nonce)
        && (s.handlers[t].phase.diff > s.sh.hashes.bestDiff || s.handlers[v].phase.diff > s.sh.hashes.bestDiff);
      assert Rivals(s, v, t);
      var steps: seq<Step>;
      if s.handlers[t].phase.diff >= s.handlers[v].phase.diff {
        steps := UnsafeLoses(h, s, t, v);
      } else {
        steps := UnsafeLoses(h, s, v, t);
      }
      assert OnlyWrites(h, s, steps) && !BestRecorded(Exec(h, s, steps).sh.hashes);
    }
  }
}
