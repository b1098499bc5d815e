/** Concrete runs of the ledger: claim handlers whose checks and insert are not one step, and a lost update. */
module LedgerExamples {
  import opened Epoch
  import opened Booking
  import opened Tables
  import opened Ledger
  import opened LedgerBooks
  import opened LedgerClaims
  import opened LedgerExact

  function Start(): State {
    State(0, 0, EmptyDb().(balances := map[0 := 0]), [], map[], [], Idle, 0, 0, [])
  }

  ghost predicate Reaches(steps: seq<Step>, s: State) {
    Valid(Start(), steps) && Exec(Start(), steps) == s
  }

  lemma Go(steps: seq<Step>, s: State, step: Step) returns (steps': seq<Step>, s': State)
    requires Reaches(steps, s) && Enabled(s, step)
    ensures s' == Apply(s, step) && Reaches(steps', s')
  {
    steps' := steps + [step];
    assert steps'[..|steps'| - 1] == steps;
    s' := Apply(s, step);
  }

  /** One reward has been booked in full: miner 1 owns all but the commission. */
  function Funded(): State {
    var job := Job([5], {5}, [Credit(1, NET)], 1, 1);
    Start().(db := Db(map[0 := REWARD - NET, 1 := NET], REWARD, 0, [Credit(1, NET)], []),
             flights := [Flight(RewardFor(1), Done(job))])
  }

  lemma ReachCommissioned() returns (steps: seq<Step>)
    ensures Reaches(steps, Start().(db := EmptyDb().(balances := map[0 := REWARD - NET, 1 := 0]),
                                    flights := [Flight(RewardFor(1), Sent)]))
  {
    RewardIsSplittable(1);
    assert Valid(Start(), []);
    var k1, s1 := Go([], Start(), Join(1));
    var k2, s2 := Go(k1, s1, Mined(RewardFor(1)));
    var k3, s3 := Go(k2, s2, BookCommission(0, true));
    OneCredit(s2.db.balances, Credit(0, REWARD - NET));
    var k4, s4 := Go(k3, s3, SendMessage(0));
    assert s4.db.balances == map[0 := REWARD - NET, 1 := 0];
    assert s4.flights == [Flight(RewardFor(1), Sent)];
    steps := k4;
  }

  /** Halfway: the rows are built and `posted` and `booked` of them are in the tables. */
  function Halfway(earnings: seq<Credit>, balance: nat, posted: nat, booked: nat): State {
    Start().(db := Db(map[0 := REWARD - NET, 1 := balance], 0, 0, earnings, []),
             flights := [Flight(RewardFor(1), Stage.Booking(Job([5], {5}, [Credit(1, NET)], posted, booked)))])
  }

  lemma ReachBuilt() returns (steps: seq<Step>)
    ensures Reaches(steps, Halfway([], 0, 0, 0))
  {
    var k4 := ReachCommissioned();
    var s4 := Start().(db := EmptyDb().(balances := map[0 := REWARD - NET, 1 := 0]),
                       flights := [Flight(RewardFor(1), Sent)]);
    var k5, s5 := Go(k4, s4, BuildJob(0, [5], {5}));
    RewardIsSplittable(1);
    assert s5 == Halfway([], 0, 0, 0);
    steps := k5;
  }

  lemma ReachPosted() returns (steps: seq<Step>)
    ensures Reaches(steps, Halfway([Credit(1, NET)], 0, 1, 0))
  {
    var k := ReachBuilt();
    var k6, s6 := Go(k, Halfway([], 0, 0, 0), PostEarnings(0));
    assert [Credit(1, NET)][0..1] == [Credit(1, NET)];
    assert s6 == Halfway([Credit(1, NET)], 0, 1, 0);
    steps := k6;
  }

  lemma ReachFunded() returns (steps: seq<Step>)
    ensures Reaches(steps, Funded())
  {
    var k := ReachPosted();
    var s6 := Halfway([Credit(1, NET)], 0, 1, 0);
    var k7, s7 := Go(k, s6, BookRewards(0, true));
    OneCredit(s6.db.balances, Credit(1, NET));
    assert [Credit(1, NET)][0..1] == [Credit(1, NET)];
    assert s7 == Halfway([Credit(1, NET)], NET, 1, 1);
    var k8, s8 := Go(k7, s7, AddTotal(0));
    assert s8 == Funded();
    steps := k8;
  }

  /** The worker has paid for the second of two requests of miner 1 that were both checked before either
      was inserted; the first has been debited and recorded. */
  function SecondPaid(amount: nat): State
    requires amount <= NET
  {
    Funded().(db := Db(map[0 := REWARD - NET, 1 := NET - amount], REWARD, amount,
                       [Credit(1, NET)], [Claim(1, amount, 0)]),
              queue := map[1 := amount], worker := Paid(1, amount), paidOut := 2 * amount)
  }

  /** The worker carries one picked claim through to the end. */
  lemma WorkOff(steps: seq<Step>, s: State, m: MinerId, amount: nat) returns (steps': seq<Step>, s': State)
    requires Reaches(steps, s) && s.worker == Picked(m, amount) && m in s.db.balances && amount <= s.db.balances[m]
    ensures Reaches(steps', s')
    ensures s' == s.(worker := Idle, queue := s.queue - {m}, paidOut := s.paidOut + amount,
                     db := s.db.(balances := s.db.balances[m := s.db.balances[m] - amount],
                                 claimedRewards := s.db.claimedRewards + amount,
                                 claims := s.db.claims + [Claim(m, amount, s.now)]))
  {
    var k2, s2 := PayAndDebit(steps, s, m, amount);
    var k3, s3 := Go(k2, s2, Count);
    var k4, s4 := Go(k3, s3, RecordClaim);
    steps', s' := Go(k4, s4, Dequeue);
  }

  lemma PayAndDebit(steps: seq<Step>, s: State, m: MinerId, amount: nat) returns (steps': seq<Step>, s': State)
    requires Reaches(steps, s) && s.worker == Picked(m, amount) && m in s.db.balances && amount <= s.db.balances[m]
    ensures Reaches(steps', s')
    ensures s' == s.(worker := Debited(m, amount), paidOut := s.paidOut + amount,
                     db := s.db.(balances := s.db.balances[m := s.db.balances[m] - amount]))
  {
    var k1, s1 := Go(steps, s, PaymentFinal(false));
    steps', s' := Go(k1, s1, Debit);
  }

  lemma ReachFirstPicked(amount: nat) returns (steps: seq<Step>)
    requires MIN_CLAIM <= amount <= NET
    ensures Reaches(steps, Funded().(queue := map[1 := amount], pending := [Request(1, amount)],
                                     worker := Picked(1, amount)))
  {
    var k0 := ReachFunded();
    var k1, s1 := Go(k0, Funded(), CheckPosted(1, amount));
    var k2, s2 := Go(k1, s1, CheckPosted(1, amount));
    var k3, s3 := Go(k2, s2, Insert(0));
    assert s3.pending == [Request(1, amount)];
    var k4, s4 := Go(k3, s3, Pick(1));
    steps := k4;
  }

  lemma ReachFirstDequeued(amount: nat) returns (steps: seq<Step>, s: State)
    requires MIN_CLAIM <= amount <= NET
    ensures Reaches(steps, s)
    ensures s == SecondPaid(amount).(queue := map[], worker := Idle, paidOut := amount, pending := [Request(1, amount)])
  {
    var k := ReachFirstPicked(amount);
    var s4 := Funded().(queue := map[1 := amount], pending := [Request(1, amount)], worker := Picked(1, amount));
    steps, s := WorkOff(k, s4, 1, amount);
    assert s.queue == map[];
    assert s.db.balances == map[0 := REWARD - NET, 1 := NET - amount];
  }

  lemma ReachSecondPaid(amount: nat) returns (steps: seq<Step>)
    requires MIN_CLAIM <= amount <= NET
    ensures Reaches(steps, SecondPaid(amount))
  {
    var k1, s1 := ReachFirstDequeued(amount);
    var k2, s2 := Go(k1, s1, Insert(0));
    assert s2.pending == [];
    var k3, s3 := Go(k2, s2, Pick(1));
    var k4, s4 := Go(k3, s3, PaymentFinal(false));
    assert s4 == SecondPaid(amount);
    steps := k4;
  }

  /** Without the premise of DebitsAreCovered: the chain pays a miner twice, more than the pool ever earned,
      and the second debit is refused. */
  lemma StaleRequestOverpays() returns (steps: seq<Step>)
    ensures Initial(Start()) && Valid(Start(), steps)
    ensures var t := Exec(Start(), steps);
            && t.worker == Paid(1, NET) && !Enabled(t, Debit)
            && t.paidOut > t.db.totalRewards && t.flights != [] && t.flights[0].stage.Done? && |t.flights| == 1
  {
    steps := ReachSecondPaid(NET);
  }

  /** Without the premise of ClaimsAreSpaced: two claims of one miner are recorded in the same second. */
  lemma StaleRequestSkipsCooldown() returns (steps: seq<Step>)
    ensures Initial(Start()) && Valid(Start(), steps) && !Spaced(Exec(Start(), steps).db.claims)
  {
    var k0 := ReachSecondPaid(MIN_CLAIM);
    var k1, s1 := Go(k0, SecondPaid(MIN_CLAIM), Debit);
    var k2, s2 := Go(k1, s1, Count);
    var k3, s3 := Go(k2, s2, RecordClaim);
    assert s3.db.claims[0] == Claim(1, MIN_CLAIM, 0) && s3.db.claims[1] == Claim(1, MIN_CLAIM, 0);
    steps := k3;
  }

  /** A reward update that fails is reported as done: everything is booked, the earnings row is there, and
      the miner's balance is not. */
  lemma LostUpdateUnbalancesBooks() returns (steps: seq<Step>)
    ensures Initial(Start()) && Valid(Start(), steps)
    ensures var t := Exec(Start(), steps);
            && |t.flights| == 1 && t.flights[0].stage.Done? && t.worker.Idle?
            && SumFor(t.db.earnings, 1) == NET && BalanceOf(t.db.balances, 1) == 0 && ClaimedBy(t.db.claims, 1) == 0
            && t.db.totalRewards == REWARD
  {
    var k := ReachPosted();
    var s6 := Halfway([Credit(1, NET)], 0, 1, 0);
    var k7, s7 := Go(k, s6, BookRewards(0, false));
    var k8, s8 := Go(k7, s7, AddTotal(0));
    assert [Credit(1, NET)][..0] == [];
    steps := k8;
  }
}
