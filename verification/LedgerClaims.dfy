/** Claims over whole runs: that a debit is always covered, that claims keep their distance, and that the
    chain never pays out more than was earned. */
module LedgerClaims {
  import opened Epoch
  import opened Sums
  import opened Tables
  import opened Ledger
  import opened LedgerSolvency
  import opened LedgerBooks

  // ---------- A debit is always covered ----------

  /** The worker has debited this miner and not yet taken the key from the queue. */
  predicate PastDebit(w: Worker, m: MinerId) {
    (w.Debited? || w.Counted? || w.Logged?) && w.miner == m
  }

  ghost predicate CoverInv(s: State) {
    && (forall m | m in s.queue && !PastDebit(s.worker, m) :: Covers(s.db.balances, m, s.queue[m]))
    && (forall r | 0 <= r < |s.pending| :: Covers(s.db.balances, s.pending[r].miner, s.pending[r].amount))
    && (s.worker.Picked? || s.worker.Paid? ==> Covers(s.db.balances, s.worker.miner, s.worker.amount))
  }

  lemma BalancesGrow(s: State, step: Step)
    requires Enabled(s, step)
    ensures forall m | m in s.db.balances ::
              m in Apply(s, step).db.balances
              && (s.db.balances[m] <= Apply(s, step).db.balances[m] || (step.Debit? && s.worker.miner == m))
  {
  }

  lemma CoverStep(s: State, step: Step)
    requires CoverInv(s) && Enabled(s, step) && !(step.Debit? && LeavesShort(s))
    ensures CoverInv(Apply(s, step))
  {
    BalancesGrow(s, step);
    var s' := Apply(s, step);
    if step.Insert? {
      assert Covers(s.db.balances, s.pending[step.request].miner, s.pending[step.request].amount);
    }
    forall r | 0 <= r < |s'.pending|
      ensures Covers(s'.db.balances, s'.pending[r].miner, s'.pending[r].amount)
    {
      if step.Insert? {
        assert s'.pending[r] == if r < step.request then s.pending[r] else s.pending[r + 1];
      } else if r < |s.pending| {
        assert s'.pending[r] == s.pending[r];
      }
    }
  }

  lemma {:induction false} CoverRun(s: State, steps: seq<Step>)
    requires CoverInv(s) && Valid(s, steps) && NeverShort(s, steps)
    ensures CoverInv(Exec(s, steps))
    decreases |steps|
  {
    if steps != [] {
      var before := steps[..|steps| - 1];
      CoverRun(s, before);
      CoverStep(Exec(s, before), steps[|steps| - 1]);
    }
  }

  /** If no debit leaves a waiting request of its miner short: at the worker's loop head every queued amount
      is within its miner's balance, and the copy in flight stays within it until debited, whatever happens
      to the queue, so that no debit is ever refused. */
  lemma DebitsAreCovered(s: State, steps: seq<Step>)
    requires Initial(s) && Valid(s, steps) && NeverShort(s, steps)
    ensures var t := Exec(s, steps);
            && (t.worker.Idle? ==> forall m | m in t.queue :: Covers(t.db.balances, m, t.queue[m]))
            && (t.worker.Paid? ==> Enabled(t, Debit) && t.worker.amount <= BalanceOf(t.db.balances, t.worker.miner))
  {
    CoverRun(s, steps);
  }

  // ---------- Claims keep their distance ----------

  predicate Cool(s: State, m: MinerId) {
    forall i | 0 <= i < |s.db.claims| && s.db.claims[i].miner == m :: s.now - s.db.claims[i].at > COOLDOWN
  }

  predicate Spaced(claims: seq<Claim>) {
    forall i, j | 0 <= i < j < |claims| && claims[i].miner == claims[j].miner :: claims[j].at - claims[i].at > COOLDOWN
  }

  predicate InTimeOrder(s: State) {
    && Tables.InTimeOrder(s.db.claims)
    && (forall i | 0 <= i < |s.db.claims| :: s.db.claims[i].at <= s.now)
  }

  ghost predicate CoolInv(s: State) {
    && InTimeOrder(s) && Spaced(s.db.claims)
    && (forall m | m in s.queue && !(s.worker.Logged? && s.worker.miner == m) :: Cool(s, m))
    && (forall r | 0 <= r < |s.pending| :: Cool(s, s.pending[r].miner))
    && (!s.worker.Idle? && !s.worker.Logged? ==> Cool(s, s.worker.miner))
  }

  lemma CheckedIsCool(s: State, m: MinerId)
    requires InTimeOrder(s) && !StillCooling(s.db, m, s.now)
    ensures Cool(s, m)
  {
    LastClaimIsLatest(s.db.claims, m);
  }

  /** Time only passes and claims are only added, each by its own step. */
  lemma CoolStays(s: State, step: Step, m: MinerId)
    requires Enabled(s, step) && Cool(s, m) && !step.RecordClaim?
    ensures Cool(Apply(s, step), m)
  {
    assert Apply(s, step).db.claims == s.db.claims;
  }

  lemma CoolRecord(s: State)
    requires CoolInv(s) && Enabled(s, RecordClaim) && !Amidst(s)
    ensures CoolInv(Apply(s, RecordClaim))
  {
    var s' := Apply(s, RecordClaim);
    var n := |s.db.claims|;
    assert s'.db.claims[..n] == s.db.claims;
    forall m | m in s'.queue && m != s.worker.miner
      ensures Cool(s', m)
    {
      assert Cool(s, m);
    }
    forall r | 0 <= r < |s'.pending|
      ensures Cool(s', s'.pending[r].miner)
    {
      assert Cool(s, s.pending[r].miner) && s.pending[r].miner != s.worker.miner;
    }
  }

  /** A request that passed its checks, or none new. */
  lemma CoolPending(s: State, step: Step)
    requires CoolInv(s) && Enabled(s, step) && !step.RecordClaim?
    ensures var s' := Apply(s, step); forall r | 0 <= r < |s'.pending| :: Cool(s', s'.pending[r].miner)
  {
    var s' := Apply(s, step);
    if step.CheckDirect? || step.CheckPosted? {
      CheckedIsCool(s, step.miner);
    }
    forall r | 0 <= r < |s'.pending|
      ensures Cool(s', s'.pending[r].miner)
    {
      if step.Insert? {
        assert s'.pending[r] == if r < step.request then s.pending[r] else s.pending[r + 1];
      }
      CoolStays(s, step, s'.pending[r].miner);
    }
  }

  lemma CoolQueue(s: State, step: Step)
    requires CoolInv(s) && Enabled(s, step) && !step.RecordClaim?
    ensures var s' := Apply(s, step);
            && (forall m | m in s'.queue && !(s'.worker.Logged? && s'.worker.miner == m) :: Cool(s', m))
            && (!s'.worker.Idle? && !s'.worker.Logged? ==> Cool(s', s'.worker.miner))
  {
    var s' := Apply(s, step);
    if step.Insert? {
      assert Cool(s, s.pending[step.request].miner);
    }
    forall m | Cool(s, m)
      ensures Cool(s', m)
    {
      CoolStays(s, step, m);
    }
  }

  lemma CoolStep(s: State, step: Step)
    requires CoolInv(s) && Enabled(s, step) && !(step.RecordClaim? && Amidst(s))
    ensures CoolInv(Apply(s, step))
  {
    if step.RecordClaim? {
      CoolRecord(s);
    } else {
      assert Apply(s, step).db.claims == s.db.claims;
      CoolPending(s, step);
      CoolQueue(s, step);
    }
  }

  lemma {:induction false} CoolRun(s: State, steps: seq<Step>)
    requires CoolInv(s) && Valid(s, steps) && NeverAmidst(s, steps)
    ensures CoolInv(Exec(s, steps))
    decreases |steps|
  {
    if steps != [] {
      var before := steps[..|steps| - 1];
      CoolRun(s, before);
      CoolStep(Exec(s, before), steps[|steps| - 1]);
    }
  }

  /** If no claim is recorded between the checks and the insert of a request of the same miner: any two
      recorded claims of one miner are more than half an hour apart. */
  lemma ClaimsAreSpaced(s: State, steps: seq<Step>)
    requires Initial(s) && Valid(s, steps) && NeverAmidst(s, steps)
    ensures Spaced(Exec(s, steps).db.claims)
  {
    CoolRun(s, steps);
  }

  // ---------- What leaves the chain account ----------

  predicate PaidOutInv(s: State) {
    s.paidOut + s.fees == s.db.claimedRewards + (if s.worker.Paid? || s.worker.Debited? then s.worker.amount else 0)
  }

  lemma {:induction false} PaidOutRun(s: State, steps: seq<Step>)
    requires Initial(s) && Valid(s, steps)
    ensures PaidOutInv(Exec(s, steps))
    decreases |steps|
  {
    if steps != [] {
      var before := steps[..|steps| - 1];
      PaidOutRun(s, before);
      PaidOutStep(Exec(s, before), steps[|steps| - 1]);
    }
  }

  lemma PaidOutStep(s: State, step: Step)
    requires PaidOutInv(s) && Enabled(s, step)
    ensures PaidOutInv(Apply(s, step))
  {
  }

  /** If no debit leaves a waiting request short, everything the chain ever paid for claims, fees included,
      is covered by rewards the pool earned. */
  lemma PayoutsAreEarned(s: State, steps: seq<Step>)
    requires Initial(s) && Valid(s, steps) && NeverShort(s, steps)
    ensures var t := Exec(s, steps);
            t.paidOut + t.fees <= t.db.totalRewards + Total(Each(t.flights, StillFlying))
  {
    var t := Exec(s, steps);
    PaidOutRun(s, steps);
    AlwaysSolvent(s, steps);
    CoverRun(s, steps);
    if t.worker.Paid? {
      SumTakeOut(t.db.balances, t.worker.miner);
    }
  }

  // ---------- One-step handlers ----------

  /** Each request is inserted before anything else happens. */
  ghost predicate OneStepHandlers(s: State, steps: seq<Step>)
    requires Valid(s, steps)
    decreases |steps|
  {
    steps == [] ||
    (OneStepHandlers(s, steps[..|steps| - 1])
     && (Exec(s, steps[..|steps| - 1]).pending != [] ==> steps[|steps| - 1].Insert?))
  }

  /** Handlers whose checks and insert are one step meet both premises. */
  lemma {:induction false} OneStepIsEnough(s: State, steps: seq<Step>)
    requires Valid(s, steps) && OneStepHandlers(s, steps)
    ensures NeverShort(s, steps) && NeverAmidst(s, steps)
    decreases |steps|
  {
    if steps != [] {
      OneStepIsEnough(s, steps[..|steps| - 1]);
    }
  }
}
