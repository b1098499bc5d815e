/** Whole turns of the claim handlers, the claim worker and the booking of one reward when nothing comes in
    between, from the state they find to the state they leave. */
module LedgerTurns {
  import opened Words
  import opened Epoch
  import opened Sums
  import opened Booking
  import opened MineSuccess
  import opened Tables
  import opened Ledger
  import opened LedgerExact

  // ---------- Claims ----------

  /** A miner whose last claim is long enough ago and who owns two billion claims everything: what is queued,
      with the fee for a missing account, is the whole balance, and it replaces what the miner had queued. */
  lemma DirectTurn(s: State, m: MinerId, needsAccount: bool) returns (steps: seq<Step>, t: State)
    requires s.pending == [] && InTimeOrder(s.db.claims) && !ClaimedLately(s.db.claims, m, s.now)
    requires m in s.db.balances && s.db.balances[m] >= 2_000_000_000
    ensures Leads(s, steps, t)
    ensures t == s.(queue := s.queue[m := s.db.balances[m] - (if needsAccount then 2_000_000_000 else 0)])
  {
    CoolingExactly(s.db, m, s.now);
    var k1, t1 := Then(s, [], s, CheckDirect(m, needsAccount));
    steps, t := Then(s, k1, t1, Insert(0));
  }

  /** A miner with nothing queued claims a stated amount it owns: exactly that is queued. */
  lemma PostedTurn(s: State, m: MinerId, amount: nat) returns (steps: seq<Step>, t: State)
    requires s.pending == [] && InTimeOrder(s.db.claims) && !ClaimedLately(s.db.claims, m, s.now)
    requires m in s.db.balances && 2_000_000_000 <= amount <= s.db.balances[m] && m !in s.queue
    ensures Leads(s, steps, t) && t == s.(queue := s.queue[m := amount])
  {
    CoolingExactly(s.db, m, s.now);
    var k1, t1 := Then(s, [], s, CheckPosted(m, amount));
    steps, t := Then(s, k1, t1, Insert(0));
  }

  lemma PickAndPay(s: State, m: MinerId, madeAccount: bool) returns (steps: seq<Step>, t: State)
    requires s.worker.Idle? && m in s.queue && (madeAccount ==> s.queue[m] >= 2_000_000_000)
    ensures Leads(s, steps, t)
    ensures var amount, fee := s.queue[m], if madeAccount then 2_000_000_000 else 0;
            t == s.(worker := Paid(m, amount), paidOut := s.paidOut + amount - fee, fees := s.fees + fee)
  {
    var k1, t1 := Then(s, [], s, Pick(m));
    steps, t := Then(s, k1, t1, PaymentFinal(madeAccount));
  }

  lemma PayAndDebit(s: State, m: MinerId, madeAccount: bool) returns (steps: seq<Step>, t: State)
    requires s.worker.Idle? && m in s.queue && Covers(s.db.balances, m, s.queue[m])
    requires madeAccount ==> s.queue[m] >= 2_000_000_000
    ensures Leads(s, steps, t)
    ensures var amount, fee := s.queue[m], if madeAccount then 2_000_000_000 else 0;
            t == s.(worker := Debited(m, amount), paidOut := s.paidOut + amount - fee, fees := s.fees + fee,
                    db := s.db.(balances := s.db.balances[m := s.db.balances[m] - amount]))
  {
    var k1, t1 := PickAndPay(s, m, madeAccount);
    steps, t := Then(s, k1, t1, Debit);
  }

  /** A covered claim is paid less the fee, debited, counted and recorded in full, and leaves the queue. */
  lemma WorkerTurn(s: State, m: MinerId, madeAccount: bool) returns (steps: seq<Step>, t: State)
    requires s.worker.Idle? && m in s.queue && Covers(s.db.balances, m, s.queue[m])
    requires madeAccount ==> s.queue[m] >= 2_000_000_000
    ensures Leads(s, steps, t)
    ensures var amount, fee := s.queue[m], if madeAccount then 2_000_000_000 else 0;
            t == s.(queue := s.queue - {m}, paidOut := s.paidOut + amount - fee, fees := s.fees + fee,
                    db := s.db.(balances := s.db.balances[m := s.db.balances[m] - amount],
                                claimedRewards := s.db.claimedRewards + amount,
                                claims := s.db.claims + [Claim(m, amount, s.now)]))
  {
    var k1, t1 := PayAndDebit(s, m, madeAccount);
    steps, t := CountToDequeue(s, k1, t1);
  }

  lemma CountToDequeue(s: State, steps: seq<Step>, t: State) returns (steps': seq<Step>, t': State)
    requires Leads(s, steps, t) && t.worker.Debited?
    ensures Leads(s, steps', t')
    ensures var m, amount := t.worker.miner, t.worker.amount;
            t' == t.(queue := t.queue - {m}, worker := Idle,
                     db := t.db.(claimedRewards := t.db.claimedRewards + amount,
                                 claims := t.db.claims + [Claim(m, amount, t.now)]))
  {
    var k4, t4 := Then(s, steps, t, Count);
    var k5, t5 := Then(s, k4, t4, RecordClaim);
    steps', t' := Then(s, k5, t5, Dequeue);
  }

  /** An abandoned claim leaves the queue and changes nothing else; one whose payment failed stays queued. */
  lemma UnpaidTurn(s: State, m: MinerId, abandoned: bool) returns (steps: seq<Step>, t: State)
    requires s.worker.Idle? && m in s.queue
    ensures Leads(s, steps, t) && t == if abandoned then s.(queue := s.queue - {m}) else s
  {
    var k1, t1 := Then(s, [], s, Pick(m));
    steps, t := Then(s, k1, t1, if abandoned then Abandon else PaymentFailed);
  }

  // ---------- One reward ----------

  /** The rows of a job are posted, 200 at a time, until all are. */
  lemma {:induction false} PostRows(s: State, steps: seq<Step>, t: State, k: nat) returns (steps': seq<Step>, t': State)
    requires Leads(s, steps, t) && At(t, k) && t.flights[k].stage.Booking?
    requires t.flights[k].stage.job.posted <= |t.flights[k].stage.job.rows|
    ensures Leads(s, steps', t')
    ensures var job := t.flights[k].stage.job;
            t' == SetStage(t, k, Booking(job.(posted := |job.rows|)))
                    .(db := t.db.(earnings := t.db.earnings + job.rows[job.posted..]))
    decreases |t.flights[k].stage.job.rows| - t.flights[k].stage.job.posted
  {
    var job := t.flights[k].stage.job;
    if job.posted == |job.rows| {
      assert job.rows[job.posted..] == [] && t.flights[k := t.flights[k]] == t.flights;
      steps', t' := steps, t;
    } else {
      var upTo := Min(job.posted + BATCH, |job.rows|);
      var k1, t1 := Then(s, steps, t, PostEarnings(k));
      steps', t' := PostRows(s, k1, t1, k);
      assert job.rows[job.posted..] == job.rows[job.posted..upTo] + job.rows[upTo..];
      assert t'.flights == SetStage(t, k, Booking(job.(posted := |job.rows|))).flights;
    }
  }

  lemma BookMore(table: Balances, a: seq<Credit>, b: seq<Credit>)
    ensures Owed(BookBatch(table, a), b) == Owed(table, a + b)
  {
    BatchIsOwed(table, a);
    forall m | m in table
      ensures SumFor(a, m) + SumFor(b, m) == SumFor(a + b, m)
    {
      SumForAppend(a, b, m);
    }
  }

  /** The posted rows are booked, 200 at a time, until all are. */
  lemma {:induction false} BookRows(s: State, steps: seq<Step>, t: State, k: nat) returns (steps': seq<Step>, t': State)
    requires Leads(s, steps, t) && At(t, k) && t.flights[k].stage.Booking?
    requires t.flights[k].stage.job.booked <= t.flights[k].stage.job.posted == |t.flights[k].stage.job.rows|
    ensures Leads(s, steps', t')
    ensures var job := t.flights[k].stage.job;
            t' == SetStage(t, k, Booking(job.(booked := |job.rows|)))
                    .(db := t.db.(balances := Owed(t.db.balances, job.rows[job.booked..])))
    decreases |t.flights[k].stage.job.rows| - t.flights[k].stage.job.booked
  {
    var job := t.flights[k].stage.job;
    if job.booked == |job.rows| {
      assert job.rows[job.booked..] == [] && t.flights[k := t.flights[k]] == t.flights;
      assert Owed(t.db.balances, []) == t.db.balances;
      steps', t' := steps, t;
    } else {
      var upTo := Min(job.booked + BATCH, |job.rows|);
      var k1, t1 := Then(s, steps, t, Step.BookRewards(k, true));
      steps', t' := BookRows(s, k1, t1, k);
      assert job.rows[job.booked..] == job.rows[job.booked..upTo] + job.rows[upTo..];
      BookMore(t.db.balances, job.rows[job.booked..upTo], job.rows[upTo..]);
      assert t'.flights == SetStage(t, k, Booking(job.(booked := |job.rows|))).flights;
    }
  }

  lemma ReachSent(s: State, msg: Message) returns (steps: seq<Step>, t: State)
    requires MessageFor(msg, msg.rewards, msg.subs) && Splittable(msg.subs) && msg.rewards <= U64_MAX
    ensures Leads(s, steps, t)
    ensures t == s.(db := s.db.(balances := Owed(s.db.balances, [Credit(s.boss, msg.commissions)])),
                    flights := s.flights + [Flight(msg, Sent)])
  {
    var k := |s.flights|;
    var k1, t1 := Then(s, [], s, Mined(msg));
    var k2, t2 := Then(s, k1, t1, BookCommission(k, true));
    BatchIsOwed(s.db.balances, [Credit(s.boss, msg.commissions)]);
    steps, t := Then(s, k2, t2, SendMessage(k));
  }

  /** The reward is settled, its commission booked, its message sent and its rows built. */
  lemma ReachJob(s: State, msg: Message, order: seq<Uuid>, connected: set<Uuid>) returns (steps: seq<Step>, t: State)
    requires MessageFor(msg, msg.rewards, msg.subs) && Splittable(msg.subs) && msg.rewards <= U64_MAX
    requires Enumerates(order, msg.subs) && CanSplit(msg, order) && NoneBooking(s)
    requires forall u | u in msg.subs :: msg.subs[u].minerId in s.db.balances
    ensures Leads(s, steps, t)
    ensures t == s.(db := s.db.(balances := Owed(s.db.balances, [Credit(s.boss, msg.commissions)])),
                    flights := s.flights + [Flight(msg, Booking(NewJob(msg, order, connected)))])
  {
    var k1, t1 := ReachSent(s, msg);
    steps, t := Then(s, k1, t1, BuildJob(|s.flights|, order, connected));
  }

  function NewJob(msg: Message, order: seq<Uuid>, connected: set<Uuid>): Job
    requires CanSplit(msg, order)
  {
    Job(order, connected, Credits(msg, order, connected), 0, 0)
  }

  /** From there the job is worked off. */
  lemma WorkOff(s: State, steps: seq<Step>, t: State, k: nat) returns (steps': seq<Step>, t': State)
    requires Leads(s, steps, t) && At(t, k) && t.flights[k].stage.Booking?
    requires t.flights[k].stage.job.posted == t.flights[k].stage.job.booked == 0
    ensures Leads(s, steps', t')
    ensures var job := t.flights[k].stage.job;
            t' == SetStage(t, k, Done(job.(posted := |job.rows|, booked := |job.rows|)))
                    .(db := t.db.(balances := Owed(t.db.balances, job.rows), earnings := t.db.earnings + job.rows,
                                  totalRewards := t.db.totalRewards + t.flights[k].msg.rewards))
  {
    var job := t.flights[k].stage.job;
    assert job.rows[0..] == job.rows;
    var k1, t1 := PostRows(s, steps, t, k);
    var k2, t2 := BookRows(s, k1, t1, k);
    steps', t' := Then(s, k2, t2, AddTotal(k));
    assert t'.flights == SetStage(t, k, Done(job.(posted := |job.rows|, booked := |job.rows|))).flights;
  }

  /** A finalised reward none of whose updates is lost: the receiver of commissions gains the commission, every
      miner gains what the rows of its connected clients owe it, the rows are listed as earnings, and the
      pool's total grows by the whole reward. */
  lemma RewardTurn(s: State, msg: Message, order: seq<Uuid>, connected: set<Uuid>) returns (steps: seq<Step>, t: State)
    requires MessageFor(msg, msg.rewards, msg.subs) && Splittable(msg.subs) && msg.rewards <= U64_MAX
    requires Enumerates(order, msg.subs) && CanSplit(msg, order) && NoneBooking(s)
    requires forall u | u in msg.subs :: msg.subs[u].minerId in s.db.balances
    ensures Leads(s, steps, t) && t.db.claims == s.db.claims && t.db.claimedRewards == s.db.claimedRewards
    ensures t == s.(db := t.db, flights := t.flights) && |t.flights| == |s.flights| + 1
    ensures forall j | 0 <= j < |s.flights| :: t.flights[j] == s.flights[j]
    ensures t.db.earnings == s.db.earnings + Credits(msg, order, connected)
    ensures t.db.totalRewards == s.db.totalRewards + msg.rewards
    ensures t.db.balances.Keys == s.db.balances.Keys
    ensures forall m | m in s.db.balances ::
              t.db.balances[m] == s.db.balances[m] + SumFor(Credits(msg, order, connected), m)
                                  + (if m == s.boss then msg.commissions else 0)
  {
    var k1, t1 := ReachJob(s, msg, order, connected);
    steps, t := WorkOff(s, k1, t1, |s.flights|);
    forall m | m in s.db.balances
      ensures t1.db.balances[m] == s.db.balances[m] + (if m == s.boss then msg.commissions else 0)
    {
      var c := [Credit(s.boss, msg.commissions)];
      assert SumFor(c[..0], m) == 0;
    }
  }
}
