/** From every overtaken copy that can be paid, some continuation pays a recorded submission a second time, as
    soon as somebody finds a harder solution for the next challenge. */
module EngineTwice {
  import opened Wrappers
  import opened Cutoff
  import opened Epoch
  import opened Engine
  import opened EngineBest
  import opened EngineRanges
  import opened EngineCoarse
  import opened EnginePaid
  import opened EngineExact

  // ---------- Every challenge the server knows is on the chain ----------

  predicate KnownChallenges(s: State) {
    && s.proof.challenge < |s.chain|
    && (s.last.Some? ==> s.last.value < |s.chain|)
    && (forall w | 0 <= w < |s.watchers| :: s.watchers[w].oldProof.challenge < |s.chain|)
    && (!s.submitter.Idle? && !s.submitter.Restoring? ==> s.submitter.oldProof.challenge < |s.chain|)
  }

  lemma WatchersKnown(h: Hashing, s: State, step: Step)
    requires KnownChallenges(s) && Enabled(h, s, step)
    ensures var s' := Apply(h, s, step);
            && |s.chain| <= |s'.chain|
            && forall w | 0 <= w < |s'.watchers| :: s'.watchers[w].oldProof.challenge < |s'.chain|
  {
    var s' := Apply(h, s, step);
    forall w | 0 <= w < |s'.watchers|
      ensures s'.watchers[w].oldProof.challenge < |s.chain|
    {
      if w < |s.watchers| {
        assert s'.watchers[w].oldProof == s.watchers[w].oldProof;
      }
    }
  }

  lemma ProofKnown(h: Hashing, s: State, step: Step)
    requires KnownChallenges(s) && Enabled(h, s, step)
    ensures var s' := Apply(h, s, step);
            s'.proof.challenge < |s.chain| && (s'.last.Some? ==> s'.last.value < |s.chain|)
  {
  }

  lemma KnownStep(h: Hashing, s: State, step: Step)
    requires KnownChallenges(s) && Enabled(h, s, step)
    ensures KnownChallenges(Apply(h, s, step))
  {
    WatchersKnown(h, s, step);
    ProofKnown(h, s, step);
    if !step.Submit? {
      CopyComesFrom(h, s, step);
    }
  }

  lemma {:induction false} KnownRun(h: Hashing, s: State, steps: seq<Step>)
    requires Initial(s) && Valid(h, s, steps)
    ensures KnownChallenges(Exec(h, s, steps))
    decreases |steps|
  {
    if steps != [] {
      KnownRun(h, s, steps[..|steps| - 1]);
      KnownStep(h, Exec(h, s, steps[..|steps| - 1]), steps[|steps| - 1]);
    }
  }

  // ---------- The continuation, piece by piece ----------

  predicate Leads(h: Hashing, s: State, steps: seq<Step>, t: State) {
    Valid(h, s, steps) && Exec(h, s, steps) == t
  }

  lemma Then(h: Hashing, s: State, steps: seq<Step>, t: State, step: Step) returns (steps': seq<Step>, t': State)
    requires Leads(h, s, steps, t) && Enabled(h, t, step)
    ensures t' == Apply(h, t, step) && Leads(h, s, steps', t')
  {
    steps' := Extend(h, s, steps, t, step);
    t' := Apply(h, t, step);
  }

  /** The submitter has just copied hashes whose best solution the chain takes, and sends it to the end. */
  lemma PayCopy(h: Hashing, s: State, steps: seq<Step>, t: State) returns (steps': seq<Step>, t': State)
    requires Leads(h, s, steps, t) && JustCopied(h, t)
    ensures Leads(h, s, steps', t')
    ensures var mine, snap := t.submitter.oldProof, t.submitter.snap;
            t' == t.(txs := t.txs + [Tx(snap.best.value, true)], chain := t.chain + [Proof(|t.chain|, 0)],
                     watchers := t.watchers + [Watcher(mine, true, LoopTop)],
                     paid := t.paid + [Payment(mine.challenge, snap.best.value, snap)],
                     submitter := Waiting(mine, snap))
  {
    var mine, snap := t.submitter.oldProof, t.submitter.snap;
    var k1, t1 := Then(h, s, steps, t, Submit(Send));
    assert t1.txs[|t.txs|] == Tx(snap.best.value, false);
    var k2, t2 := Then(h, s, k1, t1, Land(|t.txs|, 0));
    assert t2.txs == t.txs + [Tx(snap.best.value, true)];
    steps', t' := Then(h, s, k2, t2, Submit(Finalised));
    assert t'.watchers == t.watchers + [Watcher(mine, true, LoopTop)];
  }

  /** It leaves by the exit that finds the hashes up to date. */
  lemma LeaveUncleared(h: Hashing, s: State, steps: seq<Step>, t: State) returns (steps': seq<Step>, t': State)
    requires Leads(h, s, steps, t) && t.submitter.Waiting? && Behind(t, t.submitter.oldProof)
    ensures Leads(h, s, steps', t') && t' == t.(submitter := Idle)
  {
    var k1, t1 := Then(h, s, steps, t, Submit(Advance));
    steps', t' := Then(h, s, k1, t1, Submit(Advance));
  }

  /** A harder solution for the challenge after this one, in the hands of a client who holds its nonce. */
  predicate HarderNext(h: Hashing, s: State, uuid: Uuid, sol: Solution) {
    && uuid in s.sh.ranges && InRanges(s.sh.ranges[uuid], sol.nonce)
    && h.valid(sol, |s.chain|) && h.difficulty(sol) > s.sh.hashes.bestDiff >= MIN_DIFF
    && forall u | u in s.sh.hashes.subs :: s.sh.hashes.subs[u].diff <= s.sh.hashes.bestDiff
  }

  /** The tracked proof moves on to the chain's, and that solution is recorded as the best. */
  lemma RecordHarder(h: Hashing, s: State, steps: seq<Step>, t: State, uuid: Uuid, sol: Solution)
    returns (steps': seq<Step>, t': State)
    requires |t.chain| > 0 && Leads(h, s, steps, t) && KnownChallenges(t.(chain := t.chain[..|t.chain| - 1]))
    requires Tip(t) == Proof(|t.chain| - 1, 0) && !t.sh.closed && t.submitter.Idle?
    requires HarderNext(h, t.(chain := t.chain[..|t.chain| - 1]), uuid, sol)
    ensures Leads(h, s, steps', t') && t'.proof == Tip(t) && t'.chain == t.chain && t'.submitter.Idle?
    ensures t'.sh.hashes.best == Some(sol) && t'.paid == t.paid && t'.now == t.now
    ensures forall u | u in t.sh.hashes.subs && u != uuid ::
              u in t'.sh.hashes.subs && t'.sh.hashes.subs[u] == t.sh.hashes.subs[u]
  {
    var k1, t1 := Then(h, s, steps, t, Notify(Tip(t)));
    assert t1.proof == Tip(t);
    var miner := Some(0);
    assert Judge(h, t1.sh, t1.proof.challenge, uuid, sol, miner) == Recorded;
    AcceptIsPhases(h, t1, uuid, sol, miner);
    t' := CoarseApply(h, t1, Accept(uuid, sol, miner));
    steps' := ExecAppend(h, s, k1, [Spawn(uuid, sol)] + seq(PhaseCount(Recorded), _ => Handle(|t1.handlers|, miner)));
  }

  /** Its deadline passes, and the submitter closes the window and copies it. */
  lemma CopyHarder(h: Hashing, s: State, steps: seq<Step>, t: State) returns (steps': seq<Step>, t': State)
    requires Leads(h, s, steps, t) && t.submitter.Idle? && t.proof.lastHashAt == 0 && t.sh.hashes.best.Some?
    ensures Leads(h, s, steps', t') && t'.submitter == Attempting(t.proof, t.sh.hashes, 0)
    ensures t'.sh.hashes == t.sh.hashes && t'.chain == t.chain && t'.paid == t.paid
  {
    var k1, t1 := Then(h, s, steps, t, Tick(if t.now < 0 then 60 - t.now else 60));
    assert GetCutoff(0, 1, t1.now) <= 0;
    var k2, t2 := Then(h, s, k1, t1, Submit(Advance));
    var k3, t3 := Then(h, s, k2, t2, Submit(Advance));
    var k4, t4 := Then(h, s, k3, t3, Submit(Advance));
    steps', t' := Then(h, s, k4, t4, Submit(Advance));
  }

  /** These steps pay two more messages, and client `u`'s recorded submission by both. */
  predicate PaysTwice(h: Hashing, s: State, steps: seq<Step>, u: Uuid) {
    && Valid(h, s, steps)
    && var paid := Exec(h, s, steps).paid;
    && |paid| == |s.paid| + 2
    && u in paid[|s.paid|].snap.subs && u in paid[|s.paid| + 1].snap.subs
    && paid[|s.paid|].snap.subs[u] == paid[|s.paid| + 1].snap.subs[u]
  }

  lemma OpenPaysTwice(h: Hashing, s: State, k0: seq<Step>, t0: State, uuid: Uuid, sol: Solution, u: Uuid)
    returns (steps: seq<Step>)
    requires Leads(h, s, k0, t0) && t0.paid == s.paid && KnownChallenges(t0) && !t0.sh.closed
    requires JustCopied(h, t0) && Behind(t0, t0.submitter.oldProof) && HarderNext(h, t0, uuid, sol)
    requires u in t0.sh.hashes.subs && u != uuid
    ensures PaysTwice(h, s, steps, u)
  {
    var k1, t1 := PayCopy(h, s, k0, t0);
    var k2, t2 := LeaveUncleared(h, s, k1, t1);
    assert t2.chain[..|t2.chain| - 1] == t0.chain;
    assert KnownChallenges(t2.(chain := t0.chain)) by {
      assert forall w | 0 <= w < |t0.watchers| :: t2.watchers[w] == t0.watchers[w];
    }
    assert HarderNext(h, t2.(chain := t0.chain), uuid, sol);
    var k3, t3 := RecordHarder(h, s, k2, t2, uuid, sol);
    var k4, t4 := CopyHarder(h, s, k3, t3);
    assert JustCopied(h, t4);
    var k5, t5 := PayCopy(h, s, k4, t4);
    steps := k5;
    assert t5.paid[|s.paid|] == t1.paid[|s.paid|];
  }

  /** In every reachable state with an overtaken copy just taken that the chain would accept, the window open
      or about to be opened, and a harder solution for the next challenge in a client's hands: some
      continuation pays every other client's recorded submission twice. */
  lemma OvertakenPaysTwice(h: Hashing, s0: State, run: seq<Step>, s: State, uuid: Uuid, sol: Solution, u: Uuid)
    returns (steps: seq<Step>)
    requires Initial(s0) && Valid(h, s0, run) && s == Exec(h, s0, run)
    requires JustCopied(h, s) && Behind(s, s.submitter.oldProof) && HarderNext(h, s, uuid, sol)
    requires !s.sh.closed || ResetterAt(s, OPEN_WINDOW)
    requires u in s.sh.hashes.subs && u != uuid
    ensures PaysTwice(h, s, steps, u)
  {
    KnownRun(h, s0, run);
    var k, t := OpenWindow(h, s);
    steps := OpenPaysTwice(h, s, k, t, uuid, sol, u);
  }

  /** Only a watcher can be about to open the window here, and it touches nothing else. */
  lemma OpenWindow(h: Hashing, s: State) returns (steps: seq<Step>, t: State)
    requires s.submitter.Attempting? && KnownChallenges(s) && (!s.sh.closed || ResetterAt(s, OPEN_WINDOW))
    ensures Leads(h, s, steps, t) && KnownChallenges(t) && !t.sh.closed
    ensures t == s.(watchers := t.watchers, sh := s.sh.(closed := false))
  {
    if !s.sh.closed {
      steps, t := [], s;
      assert s == s.(watchers := s.watchers, sh := s.sh.(closed := false));
    } else {
      var w :| 0 <= w < |s.watchers| && s.watchers[w].phase.Resetting? && s.watchers[w].phase.done == OPEN_WINDOW;
      steps, t := Then(h, s, [], s, Watch(w, None));
      KnownStep(h, s, Watch(w, None));
    }
  }
}
