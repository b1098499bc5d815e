/** The premises on claims are exact: from every state in which one is about to be broken, the very next
    claim of that miner can be paid without cover, or be recorded too soon. */
module LedgerExact {
  import opened Epoch
  import opened Sums
  import opened Split
  import opened Booking
  import opened MineSuccess
  import opened Ledger
  import opened LedgerSolvency
  import opened LedgerClaims

  /** These steps lead from `s` to `t`. */
  ghost predicate Leads(s: State, steps: seq<Step>, t: State) {
    Valid(s, steps) && Exec(s, steps) == t
  }

  lemma Then(s: State, steps: seq<Step>, t: State, step: Step) returns (steps': seq<Step>, t': State)
    requires Leads(s, steps, t) && Enabled(t, step)
    ensures steps' == steps + [step] && t' == Apply(t, step) && Leads(s, steps', t')
  {
    steps' := steps + [step];
    assert steps'[..|steps'| - 1] == steps;
    t' := Apply(t, step);
  }

  // ---------- A debit that leaves a request short ----------

  /** The next claim is paid on chain and its debit is refused. */
  ghost predicate NextDebitRefused(s: State, steps: seq<Step>) {
    Valid(s, steps) && Debit !in steps && Exec(s, steps).worker.Paid? && !Enabled(Exec(s, steps), Debit)
  }

  lemma {:induction false} NoDebitNeverShort(s: State, steps: seq<Step>)
    requires Valid(s, steps) && Debit !in steps
    ensures NeverShort(s, steps)
    decreases |steps|
  {
    if steps != [] {
      NoDebitNeverShort(s, steps[..|steps| - 1]);
      assert steps[|steps| - 1] in steps;
    }
  }

  /** A pending request is inserted, picked and paid. */
  lemma InsertPickPay(s: State, steps: seq<Step>, t: State, r: nat) returns (steps': seq<Step>, t': State)
    requires Leads(s, steps, t) && t.worker.Idle? && r < |t.pending|
    ensures Leads(s, steps', t')
    ensures steps' == steps + [Insert(r), Pick(t.pending[r].miner), PaymentFinal(false)]
    ensures t'.worker == Paid(t.pending[r].miner, t.pending[r].amount) && t'.db == t.db && t'.now == t.now
  {
    var k1, t1 := Then(s, steps, t, Insert(r));
    var k2, t2 := Then(s, k1, t1, Pick(t.pending[r].miner));
    steps', t' := Then(s, k2, t2, PaymentFinal(false));
  }

  /** The worker finishes the claim it has debited. */
  lemma FinishClaim(s: State) returns (steps: seq<Step>, t: State)
    requires s.worker.Debited?
    ensures Leads(s, steps, t) && steps == [Count, RecordClaim, Dequeue]
    ensures t.worker.Idle? && t.pending == s.pending && t.db.balances == s.db.balances
  {
    var k1, s1 := Then(s, [], s, Count);
    var k2, s2 := Then(s, k1, s1, RecordClaim);
    steps, t := Then(s, k2, s2, Dequeue);
  }

  /** Whenever a debit leaves less than a waiting request of the same miner asks for, some continuation
      pays that request on chain while its debit is refused. */
  lemma DebitAmidstOverpays(s: State, r: nat) returns (steps: seq<Step>)
    requires s.worker.Debited? && r < |s.pending| && s.pending[r].miner == s.worker.miner
    requires !Covers(s.db.balances, s.pending[r].miner, s.pending[r].amount) && s.worker.miner in s.db.balances
    ensures NextDebitRefused(s, steps) && Exec(s, steps).worker == Paid(s.pending[r].miner, s.pending[r].amount)
  {
    var k1, s1 := FinishClaim(s);
    var t: State;
    steps, t := InsertPickPay(s, k1, s1, r);
  }

  /** In every run that kept the premise of DebitsAreCovered so far: after the debit about to be made, the
      next one can be refused if and only if this one leaves a waiting request of its miner short. */
  lemma RefusedExactlyAfterShortDebit(s0: State, run: seq<Step>, s: State)
    requires Initial(s0) && Valid(s0, run) && NeverShort(s0, run) && s == Exec(s0, run) && Enabled(s, Debit)
    ensures (exists steps :: NextDebitRefused(Apply(s, Debit), steps)) <==> LeavesShort(s)
  {
    var t := Apply(s, Debit);
    CoverRun(s0, run);
    ConservedRun(s0, run);
    if LeavesShort(s) {
      var r :| 0 <= r < |s.pending| && s.pending[r].miner == s.worker.miner
               && !Covers(t.db.balances, s.worker.miner, s.pending[r].amount);
      var steps := DebitAmidstOverpays(t, r);
      assert NextDebitRefused(t, steps);
    } else {
      CoverStep(s, Debit);
      forall steps | Valid(t, steps) && Debit !in steps
        ensures !NextDebitRefused(t, steps)
      {
        NoDebitNeverShort(t, steps);
        CoverRun(t, steps);
      }
    }
  }

  // ---------- Rewards can always cover a request ----------

  /** The steps of rewards on their way to the tables, none of them lost. */
  predicate IsBooking(step: Step) {
    || step.Mined? || step.SendMessage? || step.BuildJob? || step.PostEarnings? || step.AddTotal?
    || (step.BookCommission? && step.applied) || (step.BookRewards? && step.applied)
  }

  /** Nothing but rewards moved: what claims look at is as it was, and no balance fell. */
  predicate OnlyBooked(s: State, t: State) {
    && t == s.(db := s.db.(balances := t.db.balances, earnings := t.db.earnings, totalRewards := t.db.totalRewards),
               flights := t.flights)
    && forall m | m in s.db.balances :: m in t.db.balances && s.db.balances[m] <= t.db.balances[m]
  }

  ghost predicate Books(s: State, steps: seq<Step>, t: State) {
    && Leads(s, steps, t) && (forall i | 0 <= i < |steps| :: IsBooking(steps[i])) && OnlyBooked(s, t)
    && KnownMiners(t) && FlightsOk(t)
  }

  lemma BookingOnly(s: State, step: Step)
    requires Enabled(s, step) && IsBooking(step)
    ensures OnlyBooked(s, Apply(s, step))
  {
  }

  lemma BookStep(s: State, steps: seq<Step>, t: State, step: Step) returns (steps': seq<Step>, t': State)
    requires Books(s, steps, t) && IsBooking(step) && Enabled(t, step)
    ensures t' == Apply(t, step) && Books(s, steps', t') && OnlyBooked(t, t')
  {
    steps', t' := Then(s, steps, t, step);
    BookingOnly(t, step);
    KnownStep(t, step);
    FlightsOkStep(t, step);
  }

  function RowsLeft(f: Flight): int {
    if f.stage.Booking? then 2 * |f.stage.job.rows| - f.stage.job.posted - f.stage.job.booked + 1 else 0
  }

  /** What the booking task does next for a job. */
  function NextStep(t: State, k: nat): Step
    requires k < |t.flights| && t.flights[k].stage.Booking?
  {
    var job := t.flights[k].stage.job;
    if job.posted < |job.rows| then PostEarnings(k)
    else if job.booked < |job.rows| then BookRewards(k, true) else AddTotal(k)
  }

  lemma NextWorks(t: State, k: nat)
    requires k < |t.flights| && t.flights[k].stage.Booking? && JobOk(t.flights[k], t.db.balances)
    ensures Enabled(t, NextStep(t, k))
    ensures var fs := Apply(t, NextStep(t, k)).flights;
            && |fs| == |t.flights| && (forall j | 0 <= j < |t.flights| && j != k :: fs[j] == t.flights[j])
            && 0 <= RowsLeft(fs[k]) < RowsLeft(t.flights[k])
  {
  }

  /** A job under way can be brought to its end. */
  lemma {:induction false} FinishJob(s: State, steps: seq<Step>, t: State, k: nat)
    returns (steps': seq<Step>, t': State)
    requires Books(s, steps, t) && k < |t.flights|
    ensures Books(s, steps', t') && |t'.flights| == |t.flights| && !t'.flights[k].stage.Booking?
    ensures forall j | 0 <= j < |t.flights| && j != k :: t'.flights[j] == t.flights[j]
    decreases RowsLeft(t.flights[k])
  {
    assert FlightOk(t.flights[k], t.db.balances);
    if !t.flights[k].stage.Booking? {
      steps', t' := steps, t;
    } else {
      NextWorks(t, k);
      var k1, t1 := BookStep(s, steps, t, NextStep(t, k));
      steps', t' := FinishJob(s, k1, t1, k);
    }
  }

  lemma {:induction false} FinishJobs(s: State, k: nat) returns (steps: seq<Step>, t: State)
    requires KnownMiners(s) && FlightsOk(s) && k <= |s.flights|
    ensures Books(s, steps, t) && |t.flights| == |s.flights|
    ensures forall j | 0 <= j < k :: !t.flights[j].stage.Booking?
  {
    if k == 0 {
      steps, t := [], s;
    } else {
      var k1, t1 := FinishJobs(s, k - 1);
      steps, t := FinishJob(s, k1, t1, k - 1);
    }
  }

  const REWARD: nat := 100_000_000_000
  const NET: nat := 95_000_000_000

  /** A reward for the only submission, of difficulty 12, made by a client of miner `m`. */
  function RewardFor(m: MinerId): Message {
    Message(0, REWARD, REWARD - NET, 80, 80, map[5 := Submission(m, 12, 0, 80, 80, 0)])
  }

  lemma RewardIsSplittable(m: MinerId)
    ensures MessageFor(RewardFor(m), REWARD, RewardFor(m).subs) && Splittable(RewardFor(m).subs)
    ensures Credits(RewardFor(m), [5], {5}) == [Credit(m, NET)]
  {
    SumPut(map[], 5, 80);
    assert RealPowers(RewardFor(m).subs) == map[][5 := 80] == CappedPowers(RewardFor(m).subs);
    assert RealHashpower(12) == 80;
    assert [5][..0] == [];
    assert Earned(80, 80, NET) == NET;
  }

  lemma OneCredit(table: Balances, c: Credit)
    ensures BookBatch(table, [c]) == CreditOne(table, c)
  {
    BatchIsOwed(table, [c]);
    OneByOneIsOwed(table, [c]);
    assert [c][..0] == [];
  }

  function Fresh(m: MinerId): Flight {
    Flight(RewardFor(m), Settling)
  }

  function Built(m: MinerId): Flight {
    Flight(RewardFor(m), Stage.Booking(Job([5], {5}, [Credit(m, NET)], 0, 0)))
  }

  /** One reward for `m`, from the chain to its message. */
  lemma RewardArrives(s: State, steps: seq<Step>, t: State, m: MinerId) returns (steps': seq<Step>, t': State)
    requires Books(s, steps, t)
    ensures Books(s, steps', t') && OnlyBooked(t, t') && t'.flights == t.flights + [Fresh(m).(stage := Sent)]
  {
    var k := |t.flights|;
    RewardIsSplittable(m);
    var k1, t1 := BookStep(s, steps, t, Mined(RewardFor(m)));
    assert t1.flights == t.flights + [Fresh(m)];
    steps', t' := RewardSent(s, k1, t1, k);
    OnlyBookedTwice(t, t1, t');
  }

  lemma SentEffect(t: State, k: nat)
    requires k < |t.flights| && t.flights[k].stage.Settling?
    ensures Enabled(t, BookCommission(k, true))
    ensures var t1 := Apply(t, BookCommission(k, true));
            && Enabled(t1, SendMessage(k))
            && Apply(t1, SendMessage(k)).flights == t.flights[k := t.flights[k].(stage := Sent)]
  {
  }

  lemma RewardSent(s: State, steps: seq<Step>, t: State, k: nat) returns (steps': seq<Step>, t': State)
    requires Books(s, steps, t) && k < |t.flights| && t.flights[k].stage.Settling?
    ensures Books(s, steps', t') && t'.flights == t.flights[k := t.flights[k].(stage := Sent)]
    ensures OnlyBooked(t, t')
  {
    SentEffect(t, k);
    var k1, t1 := BookStep(s, steps, t, BookCommission(k, true));
    steps', t' := BookStep(s, k1, t1, SendMessage(k));
    OnlyBookedTwice(t, t1, t');
  }

  lemma OnlyBookedTwice(a: State, b: State, c: State)
    requires OnlyBooked(a, b) && OnlyBooked(b, c)
    ensures OnlyBooked(a, c)
  {
  }

  /** Its row is built. */
  lemma RewardBuilt(s: State, steps: seq<Step>, t: State, m: MinerId) returns (steps': seq<Step>, t': State)
    requires Books(s, steps, t) && NoneBooking(t) && m in t.db.balances
    ensures Books(s, steps', t') && OnlyBooked(t, t') && t'.flights == t.flights + [Built(m)]
  {
    var k := |t.flights|;
    RewardIsSplittable(m);
    var k1, t1 := RewardArrives(s, steps, t, m);
    assert NoneBooking(t1);
    steps', t' := BookStep(s, k1, t1, BuildJob(k, [5], {5}));
    OnlyBookedTwice(t, t1, t');
  }

  /** It is posted and booked. */
  lemma RewardBooked(s: State, steps: seq<Step>, t: State, m: MinerId) returns (steps': seq<Step>, t': State)
    requires Books(s, steps, t) && NoneBooking(t) && m in t.db.balances
    ensures Books(s, steps', t') && OnlyBooked(t, t') && t'.db.balances[m] >= t.db.balances[m] + NET
    ensures |t'.flights| == |t.flights| + 1 && t'.flights[..|t.flights|] == t.flights
    ensures t'.flights[|t.flights|] == Built(m).(stage := Stage.Booking(Job([5], {5}, [Credit(m, NET)], 1, 1)))
  {
    var k := |t.flights|;
    var rows := [Credit(m, NET)];
    assert rows[0..1] == rows;
    var k1, t1 := RewardBuilt(s, steps, t, m);
    var k2, t2 := BookStep(s, k1, t1, PostEarnings(k));
    steps', t' := BookStep(s, k2, t2, BookRewards(k, true));
    OnlyBookedTwice(t, t1, t2);
    OnlyBookedTwice(t, t2, t');
    OneCredit(t2.db.balances, rows[0]);
  }

  /** Reward after reward, until `m` owns `need`. */
  lemma {:induction false} Fund(s: State, steps: seq<Step>, t: State, m: MinerId, need: nat)
    returns (steps': seq<Step>, t': State)
    requires Books(s, steps, t) && NoneBooking(t) && m in t.db.balances
    ensures Books(s, steps', t') && Covers(t'.db.balances, m, need)
    decreases need - t.db.balances[m]
  {
    if need <= t.db.balances[m] {
      steps', t' := steps, t;
    } else {
      var k1, t1 := RewardBooked(s, steps, t, m);
      var k2, t2 := BookStep(s, k1, t1, AddTotal(|t.flights|));
      assert forall j | 0 <= j < |t.flights| :: t2.flights[j] == t1.flights[..|t.flights|][j];
      steps', t' := Fund(s, k2, t2, m, need);
    }
  }

  // ---------- A claim recorded amid a request ----------

  /** The next claim recorded follows an earlier one of its miner within half an hour. */
  ghost predicate NextClaimTooClose(s: State, steps: seq<Step>) {
    && Valid(s, steps) && steps != [] && steps[|steps| - 1] == RecordClaim && RecordClaim !in steps[..|steps| - 1]
    && !Spaced(Exec(s, steps).db.claims)
  }

  /** Rewards come in until `m` can pay `need`. */
  lemma FundedTo(s: State, m: MinerId, need: nat) returns (steps: seq<Step>, t: State)
    requires KnownMiners(s) && FlightsOk(s) && m in s.db.balances
    ensures Leads(s, steps, t) && RecordClaim !in steps && OnlyBooked(s, t) && Covers(t.db.balances, m, need)
  {
    var k0, s0 := FinishJobs(s, |s.flights|);
    steps, t := Fund(s, k0, s0, m, need);
  }

  /** The worker pays, debits and counts a claim that is covered. */
  lemma PayToCount(s: State, steps: seq<Step>, t: State) returns (steps': seq<Step>, t': State)
    requires Leads(s, steps, t) && t.worker.Paid? && Covers(t.db.balances, t.worker.miner, t.worker.amount)
    ensures Leads(s, steps', t') && steps' == steps + [Debit, Count]
    ensures t'.worker == Counted(t.worker.miner, t.worker.amount) && t'.db.claims == t.db.claims && t'.now == t.now
  {
    var k1, t1 := Then(s, steps, t, Debit);
    steps', t' := Then(s, k1, t1, Count);
  }

  predicate JustRecorded(s: State, m: MinerId) {
    s.db.claims != [] && s.db.claims[|s.db.claims| - 1].miner == m && s.db.claims[|s.db.claims| - 1].at == s.now
  }

  /** A second claim of the miner is recorded in the same second. */
  lemma RecordAgain(s: State, steps: seq<Step>, t: State) returns (steps': seq<Step>)
    requires Leads(s, steps, t) && RecordClaim !in steps && t.worker.Counted? && JustRecorded(t, t.worker.miner)
    ensures NextClaimTooClose(s, steps')
  {
    var t': State;
    steps', t' := Then(s, steps, t, RecordClaim);
    var n := |t.db.claims|;
    assert t'.db.claims[n - 1].miner == t'.db.claims[n].miner && t'.db.claims[n - 1].at == t'.db.claims[n].at;
    assert steps'[..|steps'| - 1] == steps;
  }

  /** The worker takes the next item, rewards come in until it is covered, and its claim is recorded. */
  lemma FundAndRecord(s: State, r: nat) returns (steps: seq<Step>)
    requires KnownMiners(s) && FlightsOk(s) && s.worker.Logged? && s.worker.miner in s.db.balances
    requires r < |s.pending| && s.pending[r].miner == s.worker.miner && JustRecorded(s, s.worker.miner)
    ensures NextClaimTooClose(s, steps)
  {
    var k1, s1 := FundedTo(s, s.worker.miner, s.pending[r].amount);
    var k2, s2 := Then(s, k1, s1, Dequeue);
    var k3, s3 := InsertPickPay(s, k2, s2, r);
    var k4, s4 := PayToCount(s, k3, s3);
    steps := RecordAgain(s, k4, s4);
  }

  lemma {:induction false} NoRecordNeverAmidst(s: State, steps: seq<Step>)
    requires Valid(s, steps) && RecordClaim !in steps
    ensures NeverAmidst(s, steps)
    decreases |steps|
  {
    if steps != [] {
      NoRecordNeverAmidst(s, steps[..|steps| - 1]);
      assert steps[|steps| - 1] in steps;
    }
  }

  lemma RecordKeepsSpaced(s: State)
    requires CoolInv(s) && Enabled(s, RecordClaim)
    ensures Spaced(Apply(s, RecordClaim).db.claims)
  {
    assert Cool(s, s.worker.miner);
    assert Apply(s, RecordClaim).db.claims[..|s.db.claims|] == s.db.claims;
  }

  /** From a state that keeps its distances, the next claim recorded keeps them. */
  lemma NextClaimIsSpaced(s: State, before: seq<Step>, steps: seq<Step>)
    requires CoolInv(s) && Valid(s, before) && RecordClaim !in before && Enabled(Exec(s, before), RecordClaim)
    requires steps == before + [RecordClaim] && Valid(s, steps)
    ensures Spaced(Exec(s, steps).db.claims)
  {
    NoRecordNeverAmidst(s, before);
    CoolRun(s, before);
    RecordKeepsSpaced(Exec(s, before));
    assert steps[..|steps| - 1] == before;
  }

  /** In every run that kept the premise of ClaimsAreSpaced so far: after the claim about to be recorded, the
      next one recorded can follow too soon if and only if this one falls amid a request of its miner. */
  lemma TooCloseExactlyAmidst(s0: State, run: seq<Step>, s: State)
    requires Initial(s0) && Valid(s0, run) && NeverAmidst(s0, run) && s == Exec(s0, run) && Enabled(s, RecordClaim)
    ensures (exists steps :: NextClaimTooClose(Apply(s, RecordClaim), steps)) <==> Amidst(s)
  {
    var t := Apply(s, RecordClaim);
    if Amidst(s) {
      var r :| 0 <= r < |s.pending| && s.pending[r].miner == s.worker.miner;
      ConservedRun(s0, run);
      KnownStep(s, RecordClaim);
      FlightsOkStep(s, RecordClaim);
      var steps := FundAndRecord(t, r);
      assert NextClaimTooClose(t, steps);
    } else {
      CoolRun(s0, run);
      CoolStep(s, RecordClaim);
      forall steps | Valid(t, steps) && steps != [] && steps[|steps| - 1] == RecordClaim
                     && RecordClaim !in steps[..|steps| - 1]
        ensures Spaced(Exec(t, steps).db.claims)
      {
        assert steps == steps[..|steps| - 1] + [RecordClaim];
        NextClaimIsSpaced(t, steps[..|steps| - 1], steps);
      }
    }
  }
}
