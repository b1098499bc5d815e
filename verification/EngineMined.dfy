/** What a mine-success message is about: a solution the chain took, and a challenge of its own. */
module EngineMined {
  import opened Wrappers
  import opened Epoch
  import opened Engine
  import opened EngineBest
  import opened EngineRanges
  import opened EnginePaid

  // ---------- The chain took what is paid ----------

  /** A transaction with this solution landed, on a challenge the solution answers. */
  predicate Mined(h: Hashing, s: State, sol: Solution) {
    && (exists k :: 0 <= k < |s.txs| && s.txs[k] == Tx(sol, true))
    && exists c :: 0 <= c < |s.chain| && h.valid(sol, c)
  }

  predicate LandedValid(h: Hashing, s: State) {
    forall k | 0 <= k < |s.txs| && s.txs[k].landed :: exists c :: 0 <= c < |s.chain| && h.valid(s.txs[k].sol, c)
  }

  /** The chain numbers its challenges, and the transaction being waited for carries the copy's best. */
  ghost predicate MinedInv(h: Hashing, s: State) {
    && |s.chain| > 0 && (forall c | 0 <= c < |s.chain| :: s.chain[c].challenge == c)
    && LandedValid(h, s)
    && (s.submitter.Polling? ==>
          s.submitter.tx < |s.txs| && Some(s.txs[s.submitter.tx].sol) == s.submitter.snap.best)
    && (forall k | 0 <= k < |s.paid| :: Mined(h, s, s.paid[k].best))
  }

  /** Transactions and challenges stay. */
  lemma ChainGrows(h: Hashing, s: State, step: Step)
    requires Enabled(h, s, step)
    ensures var s' := Apply(h, s, step);
            && |s.txs| <= |s'.txs| && |s.chain| <= |s'.chain| && s'.chain[..|s.chain|] == s.chain
            && (forall k | 0 <= k < |s.txs| ::
                  s'.txs[k].sol == s.txs[k].sol && (s.txs[k].landed ==> s'.txs[k].landed))
  {
  }

  lemma MinedStays(h: Hashing, s: State, step: Step, sol: Solution)
    requires Enabled(h, s, step) && Mined(h, s, sol)
    ensures Mined(h, Apply(h, s, step), sol)
  {
    ChainGrows(h, s, step);
    var k :| 0 <= k < |s.txs| && s.txs[k] == Tx(sol, true);
    assert Apply(h, s, step).txs[k] == Tx(sol, true);
    var c :| 0 <= c < |s.chain| && h.valid(sol, c);
    assert 0 <= c < |Apply(h, s, step).chain|;
  }

  lemma LandedStep(h: Hashing, s: State, step: Step)
    requires MinedInv(h, s) && Enabled(h, s, step)
    ensures LandedValid(h, Apply(h, s, step))
  {
    var s' := Apply(h, s, step);
    ChainGrows(h, s, step);
    forall k | 0 <= k < |s'.txs| && s'.txs[k].landed
      ensures exists c :: 0 <= c < |s'.chain| && h.valid(s'.txs[k].sol, c)
    {
      if k < |s.txs| && s.txs[k].landed {
        var c :| 0 <= c < |s.chain| && h.valid(s.txs[k].sol, c);
        assert 0 <= c < |s'.chain| && h.valid(s'.txs[k].sol, c);
      } else {
        assert step.Land? && step.tx == k;
        assert h.valid(s'.txs[k].sol, |s.chain| - 1);
      }
    }
  }

  lemma PollingStep(h: Hashing, s: State, step: Step)
    requires MinedInv(h, s) && Enabled(h, s, step)
    ensures var s' := Apply(h, s, step);
            s'.submitter.Polling? ==>
              s'.submitter.tx < |s'.txs| && Some(s'.txs[s'.submitter.tx].sol) == s'.submitter.snap.best
  {
    ChainGrows(h, s, step);
    if !step.Submit? {
      CopyComesFrom(h, s, step);
    }
  }

  lemma PaidMined(h: Hashing, s: State, step: Step)
    requires MinedInv(h, s) && Enabled(h, s, step)
    ensures var s' := Apply(h, s, step); forall k | 0 <= k < |s'.paid| :: Mined(h, s', s'.paid[k].best)
  {
    var s' := Apply(h, s, step);
    CopyComesFrom(h, s, step);
    forall k | 0 <= k < |s'.paid|
      ensures Mined(h, s', s'.paid[k].best)
    {
      if k < |s.paid| {
        assert s'.paid[k] == s'.paid[..|s.paid|][k];
        MinedStays(h, s, step, s.paid[k].best);
      } else {
        var tx := s.submitter.tx;
        assert s.txs[tx] == Tx(s'.paid[k].best, true);
        assert Mined(h, s, s'.paid[k].best);
        MinedStays(h, s, step, s'.paid[k].best);
      }
    }
  }

  lemma {:induction false} MinedRun(h: Hashing, s: State, steps: seq<Step>)
    requires Initial(s) && Valid(h, s, steps)
    ensures MinedInv(h, Exec(h, s, steps))
    decreases |steps|
  {
    if steps != [] {
      var before := steps[..|steps| - 1];
      var step := steps[|steps| - 1];
      MinedRun(h, s, before);
      LastStep(h, s, steps);
      var t := Exec(h, s, before);
      ChainGrows(h, t, step);
      LandedStep(h, t, step);
      PollingStep(h, t, step);
      PaidMined(h, t, step);
    }
  }

  /** In every run, what a message calls the best solution is that of the copy it pays, landed on chain, and
      answers a challenge the chain has had. */
  lemma MessagesAreMined(h: Hashing, s: State, steps: seq<Step>)
    requires Initial(s) && Valid(h, s, steps)
    ensures var t := Exec(h, s, steps);
            forall k | 0 <= k < |t.paid| :: t.paid[k].snap.best == Some(t.paid[k].best) && Mined(h, t, t.paid[k].best)
  {
    MinedRun(h, s, steps);
    BestAlwaysFits(h, s, steps);
  }

  // ---------- Each message has a challenge of its own ----------

  /** All messages so far are about challenges below this one. */
  function SettledBelow(s: State): nat {
    match s.submitter
    case Idle => s.proof.challenge
    case Restoring(_, _) => s.proof.challenge
    case Waiting(oldProof, _) => oldProof.challenge + 1
    case AskingRpc(oldProof, _) => oldProof.challenge + 1
    case Comparing(oldProof, _, _) => oldProof.challenge + 1
    case _ => s.submitter.oldProof.challenge
  }

  /** Also, a proof the submitter has moved on to is newer than the one it paid for. */
  ghost predicate ChallengesInv(s: State) {
    && (forall i, j | 0 <= i < j < |s.paid| :: s.paid[i].challenge < s.paid[j].challenge)
    && (forall i | 0 <= i < |s.paid| :: s.paid[i].challenge < SettledBelow(s))
  }

  lemma BelowRises(h: Hashing, s: State, step: Step)
    requires OrderInv(s) && Enabled(h, s, step)
    ensures SettledBelow(s) <= SettledBelow(Apply(h, s, step))
  {
    ProofMovesForward(h, s, step);
    if !step.Submit? {
      CopyComesFrom(h, s, step);
    }
  }

  lemma ChallengesStep(h: Hashing, s: State, step: Step)
    requires ChallengesInv(s) && OrderInv(s) && Enabled(h, s, step)
    ensures ChallengesInv(Apply(h, s, step))
  {
    var s' := Apply(h, s, step);
    BelowRises(h, s, step);
    CopyComesFrom(h, s, step);
    assert forall i | 0 <= i < |s.paid| :: s'.paid[i] == s'.paid[..|s.paid|][i] == s.paid[i];
    if step == Submit(Finalised) {
      assert s'.paid[|s.paid|].challenge == s.submitter.oldProof.challenge;
    }
  }

  /** In every run, later messages are about later challenges: no challenge is settled twice. */
  lemma {:induction false} ChallengesRise(h: Hashing, s: State, steps: seq<Step>)
    requires Initial(s) && Valid(h, s, steps)
    ensures ChallengesInv(Exec(h, s, steps))
    ensures var paid := Exec(h, s, steps).paid;
            forall i, j | 0 <= i < j < |paid| :: paid[i].challenge < paid[j].challenge
    decreases |steps|
  {
    if steps != [] {
      var before := steps[..|steps| - 1];
      ChallengesRise(h, s, before);
      AnyRun(h, s, before);
      LastStep(h, s, steps);
      ChallengesStep(h, Exec(h, s, before), steps[|steps| - 1]);
    }
  }
}
