/** The pool owes no more than it earned: conservation over every run of the ledger, after every single
    database statement, with no premise on how the tasks interleave or on which reward updates are lost. */
module LedgerSolvency {
  import opened Words
  import opened Epoch
  import opened Sums
  import opened Split
  import opened Booking
  import opened MineSuccess
  import opened Ledger

  // ---------- One reward on its way ----------

  function Commissioned(f: Flight): nat {
    if f.stage.Settling? then 0 else f.msg.commissions
  }

  predicate HasJob(f: Flight) {
    f.stage.Booking? || f.stage.Done?
  }

  /** The rows of a reward whose update was reported as done. */
  function BookedRows(f: Flight): seq<Credit> {
    if HasJob(f) && f.stage.job.booked <= |f.stage.job.rows| then f.stage.job.rows[..f.stage.job.booked] else []
  }

  /** The rows of a reward already inserted as earnings. */
  function PostedRows(f: Flight): seq<Credit> {
    if HasJob(f) && f.stage.job.posted <= |f.stage.job.rows| then f.stage.job.rows[..f.stage.job.posted] else []
  }

  /** All that updates for one reward were reported to have credited so far. */
  function ReportedBy(f: Flight): nat {
    Commissioned(f) + SumAll(BookedRows(f))
  }

  /** What the pool's total has gained from one reward so far. */
  function AddedBy(f: Flight): nat {
    if f.stage.Done? then f.msg.rewards else 0
  }

  /** A reward not yet part of the pool's total. */
  function StillFlying(f: Flight): nat {
    if f.stage.Done? then 0 else f.msg.rewards
  }

  /** The rows of a reward are those its message calls for, all of known miners, and are booked in order. */
  predicate JobOk(f: Flight, table: Balances) {
    HasJob(f) ==>
      var job := f.stage.job;
      && Enumerates(job.order, f.msg.subs) && CanSplit(f.msg, job.order)
      && job.rows == Credits(f.msg, job.order, job.connected)
      && job.booked <= job.posted <= |job.rows|
      && (job.booked > 0 || f.stage.Done? ==> job.posted == |job.rows|)
      && (f.stage.Done? ==> job.booked == |job.rows|)
      && (forall i | 0 <= i < |job.rows| :: job.rows[i].miner in table)
  }

  ghost predicate FlightOk(f: Flight, table: Balances) {
    && MessageFor(f.msg, f.msg.rewards, f.msg.subs) && Splittable(f.msg.subs) && f.msg.rewards <= U64_MAX
    && JobOk(f, table)
  }

  lemma {:induction false} CreditsKnown(msg: Message, order: seq<Uuid>, connected: set<Uuid>, table: Balances)
    requires CanSplit(msg, order) && forall u | u in msg.subs :: msg.subs[u].minerId in table
    ensures forall i | 0 <= i < |Credits(msg, order, connected)| :: Credits(msg, order, connected)[i].miner in table
    decreases |order|
  {
    if order != [] {
      CreditsKnown(msg, order[..|order| - 1], connected, table);
    }
  }

  lemma {:induction false} SumAllPrefix(cs: seq<Credit>, k: nat)
    requires k <= |cs|
    ensures SumAll(cs[..k]) <= SumAll(cs)
  {
    SumAllAppend(cs[..k], cs[k..]);
    assert cs[..k] + cs[k..] == cs;
  }

  /** No reward is ever reported to have credited more than itself. */
  lemma ReportedWithin(f: Flight, table: Balances)
    requires FlightOk(f, table)
    ensures ReportedBy(f) <= f.msg.rewards
  {
    CommissionExact(f.msg.rewards);
    if HasJob(f) {
      var job := f.stage.job;
      MessageWithin(f.msg, job.order, job.connected);
      SumAllPrefix(job.rows, job.booked);
    } else {
      assert SumAll([]) == 0;
    }
  }

  // ---------- All rewards together ----------

  function Each(fs: seq<Flight>, g: Flight -> nat): seq<nat> {
    seq(|fs|, i requires 0 <= i < |fs| => g(fs[i]))
  }

  lemma EachUpdate(fs: seq<Flight>, k: nat, f: Flight, g: Flight -> nat)
    requires k < |fs|
    ensures Total(Each(fs[k := f], g)) == Total(Each(fs, g)) - g(fs[k]) + g(f)
  {
    assert Each(fs[k := f], g) == Each(fs, g)[k := g(f)];
    TotalUpdate(Each(fs, g), k, g(f));
  }

  lemma EachSnoc(fs: seq<Flight>, f: Flight, g: Flight -> nat)
    ensures Total(Each(fs + [f], g)) == Total(Each(fs, g)) + g(f)
  {
    assert Each(fs + [f], g) == Each(fs, g) + [g(f)];
    TotalSnoc(Each(fs, g), g(f));
  }

  /** A claim taken from a balance and not yet part of the claimed total. */
  function Uncounted(w: Worker): nat {
    if w.Debited? then w.amount else 0
  }

  ghost function Owned(s: State): nat {
    SumOver(s.db.balances) + s.db.claimedRewards + Uncounted(s.worker)
  }

  ghost predicate KnownMiners(s: State) {
    && s.boss in s.db.balances
    && (forall m | m in s.queue :: m in s.db.balances)
    && (forall r | 0 <= r < |s.pending| :: s.pending[r].miner in s.db.balances)
    && (!s.worker.Idle? ==> s.worker.miner in s.db.balances)
  }

  ghost predicate FlightsOk(s: State) {
    forall k | 0 <= k < |s.flights| :: FlightOk(s.flights[k], s.db.balances)
  }

  ghost predicate Conserved(s: State) {
    && Owned(s) + SumAll(s.lost) == Total(Each(s.flights, ReportedBy))
    && s.db.totalRewards == Total(Each(s.flights, AddedBy))
  }

  /** Rows appear and never disappear. */
  lemma RowsStay(s: State, step: Step)
    requires Enabled(s, step)
    ensures forall m | m in s.db.balances :: m in Apply(s, step).db.balances
  {
  }

  lemma KnownStep(s: State, step: Step)
    requires KnownMiners(s) && Enabled(s, step)
    ensures KnownMiners(Apply(s, step))
  {
    RowsStay(s, step);
    var s' := Apply(s, step);
    if step.Insert? {
      assert s'.queue[s.pending[step.request].miner] == s.pending[step.request].amount;
      forall r | 0 <= r < |s'.pending|
        ensures s'.pending[r].miner in s'.db.balances
      {
        assert s'.pending[r] == if r < step.request then s.pending[r] else s.pending[r + 1];
      }
    }
  }

  predicate TouchesFlight(step: Step) {
    || step.BookCommission? || step.SendMessage? || step.BuildJob?
    || step.PostEarnings? || step.BookRewards? || step.AddTotal?
  }

  lemma FlightsOkStep(s: State, step: Step)
    requires FlightsOk(s) && Enabled(s, step)
    ensures FlightsOk(Apply(s, step))
  {
    RowsStay(s, step);
    var s' := Apply(s, step);
    FlightsStay(s, step);
    forall k | 0 <= k < |s'.flights|
      ensures FlightOk(s'.flights[k], s'.db.balances)
    {
      if k < |s.flights| {
        assert FlightOk(s.flights[k], s.db.balances);
        if TouchesFlight(step) && step.flight == k {
          JobStep(s, step);
        } else {
          JobStays(s.flights[k], s.db.balances, s'.db.balances);
        }
      }
    }
  }

  /** A step moves at most the reward it names, and never its message; only mining adds one. */
  lemma FlightsStay(s: State, step: Step)
    requires Enabled(s, step)
    ensures var s' := Apply(s, step);
            && |s.flights| <= |s'.flights|
            && (forall k | 0 <= k < |s.flights| :: s'.flights[k].msg == s.flights[k].msg)
            && (forall k | 0 <= k < |s.flights| && !(TouchesFlight(step) && step.flight == k) ::
                  s'.flights[k] == s.flights[k])
            && (forall k | |s.flights| <= k < |s'.flights| ::
                  step.Mined? && s'.flights[k] == Flight(step.msg, Settling))
  {
  }

  lemma JobStays(f: Flight, table: Balances, table': Balances)
    requires JobOk(f, table) && forall m | m in table :: m in table'
    ensures JobOk(f, table')
  {
  }

  lemma JobStep(s: State, step: Step)
    requires Enabled(s, step) && TouchesFlight(step) && JobOk(s.flights[step.flight], s.db.balances)
    ensures JobOk(Apply(s, step).flights[step.flight], Apply(s, step).db.balances)
  {
    RowsStay(s, step);
    if step.BuildJob? {
      CreditsKnown(s.flights[step.flight].msg, step.order, step.connected, s.db.balances);
    }
  }

  // ---------- Conservation, step by step ----------

  /** Applied or lost, a reported batch is accounted for. */
  lemma ReportAddsUp(s: State, batch: seq<Credit>, applied: bool)
    requires forall i | 0 <= i < |batch| :: batch[i].miner in s.db.balances
    ensures var s' := Report(s, batch, applied);
            && Owned(s') + SumAll(s'.lost) == Owned(s) + SumAll(s.lost) + SumAll(batch)
            && s'.db.totalRewards == s.db.totalRewards && s'.flights == s.flights
  {
    BookingAddsUp(s.db.balances, batch);
    SumAllAppend(s.lost, batch);
  }

  lemma MoveTotals(s: State, k: nat, f': Flight, gain: nat)
    requires Conserved(s) && k < |s.flights|
    requires ReportedBy(f') == ReportedBy(s.flights[k]) + gain && AddedBy(f') == AddedBy(s.flights[k])
    ensures Total(Each(s.flights[k := f'], ReportedBy)) == Owned(s) + SumAll(s.lost) + gain
    ensures Total(Each(s.flights[k := f'], AddedBy)) == s.db.totalRewards
  {
    EachUpdate(s.flights, k, f', ReportedBy);
    EachUpdate(s.flights, k, f', AddedBy);
  }

  /** A reward moved on by exactly the batch that was reported for it. */
  lemma {:induction false} ReportConserves(s: State, k: nat, f': Flight, batch: seq<Credit>, applied: bool)
    requires Conserved(s) && k < |s.flights| && forall i | 0 <= i < |batch| :: batch[i].miner in s.db.balances
    requires ReportedBy(f') == ReportedBy(s.flights[k]) + SumAll(batch) && AddedBy(f') == AddedBy(s.flights[k])
    ensures Conserved(Report(s.(flights := s.flights[k := f']), batch, applied))
  {
    ReportAddsUp(s.(flights := s.flights[k := f']), batch, applied);
    MoveTotals(s, k, f', SumAll(batch));
  }

  lemma CommissionConserves(s: State, k: nat, applied: bool)
    requires KnownMiners(s) && Conserved(s) && Enabled(s, BookCommission(k, applied))
    ensures Conserved(Apply(s, BookCommission(k, applied)))
  {
    var f := s.flights[k];
    var f' := f.(stage := CommissionBooked);
    var cs := [Credit(s.boss, f.msg.commissions)];
    assert cs[..0] == [];
    assert SumAll(cs) == f.msg.commissions;
    assert ReportedBy(f') == ReportedBy(f) + SumAll(cs);
    ReportConserves(s, k, f', cs, applied);
  }

  lemma ChunkCredits(f: Flight, upTo: nat)
    requires f.stage.Booking? && f.stage.job.booked <= upTo <= |f.stage.job.rows|
    ensures var f' := f.(stage := Booking(f.stage.job.(booked := upTo)));
            && ReportedBy(f') == ReportedBy(f) + SumAll(f.stage.job.rows[f.stage.job.booked..upTo])
            && AddedBy(f') == AddedBy(f)
  {
    var job := f.stage.job;
    SumAllAppend(job.rows[..job.booked], job.rows[job.booked..upTo]);
    assert job.rows[..job.booked] + job.rows[job.booked..upTo] == job.rows[..upTo];
  }

  /** What booking the next chunk changes: how far the job has come, and the balances or the lost credits. */
  predicate BooksNextChunk(s: State, s': State, k: nat, upTo: nat, applied: bool) {
    && k < |s.flights| && s.flights[k].stage.Booking?
    && s.flights[k].stage.job.booked <= upTo <= |s.flights[k].stage.job.rows|
    && s' == Report(SetStage(s, k, Stage.Booking(s.flights[k].stage.job.(booked := upTo))),
                    s.flights[k].stage.job.rows[s.flights[k].stage.job.booked..upTo], applied)
  }

  lemma BookRewardsEffect(s: State, k: nat, applied: bool) returns (upTo: nat)
    requires FlightsOk(s) && Enabled(s, BookRewards(k, applied))
    ensures BooksNextChunk(s, Apply(s, BookRewards(k, applied)), k, upTo, applied)
    ensures var job := s.flights[k].stage.job;
            forall i | job.booked <= i < upTo :: job.rows[i].miner in s.db.balances
  {
    var job := s.flights[k].stage.job;
    upTo := Min(job.booked + BATCH, |job.rows|);
    assert FlightOk(s.flights[k], s.db.balances);
  }

  lemma ChunkConserves(s: State, s': State, k: nat, upTo: nat, applied: bool)
    requires Conserved(s) && BooksNextChunk(s, s', k, upTo, applied)
    requires var job := s.flights[k].stage.job; forall i | job.booked <= i < upTo :: job.rows[i].miner in s.db.balances
    ensures Conserved(s')
  {
    var f := s.flights[k];
    var chunk := f.stage.job.rows[f.stage.job.booked..upTo];
    ChunkCredits(f, upTo);
    ReportConserves(s, k, f.(stage := Booking(f.stage.job.(booked := upTo))), chunk, applied);
  }

  lemma BookRewardsConserves(s: State, k: nat, applied: bool)
    requires FlightsOk(s) && Conserved(s) && Enabled(s, BookRewards(k, applied))
    ensures Conserved(Apply(s, BookRewards(k, applied)))
  {
    var upTo := BookRewardsEffect(s, k, applied);
    ChunkConserves(s, Apply(s, BookRewards(k, applied)), k, upTo, applied);
  }

  /** Moving a reward on without touching a balance. */
  lemma MoveConserves(s: State, step: Step, k: nat)
    requires FlightsOk(s) && Conserved(s) && Enabled(s, step)
    requires step == SendMessage(k) || step == PostEarnings(k) || step == AddTotal(k)
             || (step.BuildJob? && step.flight == k)
    ensures Conserved(Apply(s, step))
  {
    var f' := Apply(s, step).flights[k];
    MoveCredits(s, step, k);
    EachUpdate(s.flights, k, f', ReportedBy);
    EachUpdate(s.flights, k, f', AddedBy);
  }

  /** What such a step leaves alone, and what it does to the reward. */
  lemma MoveEffect(s: State, step: Step, k: nat)
    requires FlightsOk(s) && Enabled(s, step)
    requires step == SendMessage(k) || step == PostEarnings(k) || step == AddTotal(k)
             || (step.BuildJob? && step.flight == k)
    ensures var f, s' := s.flights[k], Apply(s, step);
            && s'.flights == s.flights[k := s'.flights[k]] && s'.flights[k].msg == f.msg
            && s'.db.balances == s.db.balances && s'.db.claimedRewards == s.db.claimedRewards
            && s'.worker == s.worker && s'.lost == s.lost
            && s'.db.totalRewards == s.db.totalRewards + (if step.AddTotal? then f.msg.rewards else 0)
            && Commissioned(s'.flights[k]) == Commissioned(f) && BookedRows(s'.flights[k]) == BookedRows(f)
            && (s'.flights[k].stage.Done? <==> step.AddTotal?) && !f.stage.Done?
  {
    assert FlightOk(s.flights[k], s.db.balances);
  }

  lemma MoveCredits(s: State, step: Step, k: nat)
    requires FlightsOk(s) && Enabled(s, step)
    requires step == SendMessage(k) || step == PostEarnings(k) || step == AddTotal(k)
             || (step.BuildJob? && step.flight == k)
    ensures var f, s' := s.flights[k], Apply(s, step);
            && s'.flights == s.flights[k := s'.flights[k]]
            && ReportedBy(s'.flights[k]) == ReportedBy(f)
            && Owned(s') == Owned(s) && s'.lost == s.lost
            && s'.db.totalRewards == s.db.totalRewards - AddedBy(f) + AddedBy(s'.flights[k])
  {
    MoveEffect(s, step, k);
  }

  lemma MinedConserves(s: State, msg: Message)
    requires Conserved(s) && Enabled(s, Mined(msg))
    ensures Conserved(Apply(s, Mined(msg)))
  {
    EachSnoc(s.flights, Flight(msg, Settling), ReportedBy);
    EachSnoc(s.flights, Flight(msg, Settling), AddedBy);
  }

  lemma DebitConserves(s: State)
    requires KnownMiners(s) && Conserved(s) && Enabled(s, Debit)
    ensures Conserved(Apply(s, Debit))
  {
    var w := s.worker;
    SumPut(s.db.balances, w.miner, s.db.balances[w.miner] - w.amount);
  }

  lemma OtherConserves(s: State, step: Step)
    requires KnownMiners(s) && Conserved(s) && Enabled(s, step) && !TouchesFlight(step)
    ensures Conserved(Apply(s, step))
  {
    match step {
      case Join(m) => SumPut(s.db.balances, m, 0);
      case Mined(msg) => MinedConserves(s, msg);
      case Debit => DebitConserves(s);
      case _ =>
    }
  }

  lemma ConservedStep(s: State, step: Step)
    requires KnownMiners(s) && FlightsOk(s) && Conserved(s) && Enabled(s, step)
    ensures Conserved(Apply(s, step))
  {
    if !TouchesFlight(step) {
      OtherConserves(s, step);
    } else if step.BookCommission? {
      CommissionConserves(s, step.flight, step.applied);
    } else if step.BookRewards? {
      BookRewardsConserves(s, step.flight, step.applied);
    } else {
      MoveConserves(s, step, step.flight);
    }
  }

  lemma {:induction false} ConservedRun(s: State, steps: seq<Step>)
    requires Initial(s) && Valid(s, steps)
    ensures KnownMiners(Exec(s, steps)) && FlightsOk(Exec(s, steps)) && Conserved(Exec(s, steps))
    decreases |steps|
  {
    if steps == [] {
      SumPut(map[], s.boss, 0);
      assert map[][s.boss := 0] == s.db.balances;
    } else {
      var before := steps[..|steps| - 1];
      var step := steps[|steps| - 1];
      ConservedRun(s, before);
      var t := Exec(s, before);
      KnownStep(t, step);
      FlightsOkStep(t, step);
      ConservedStep(t, step);
    }
  }

  // ---------- Solvency ----------

  lemma {:induction false} EachSplits(fs: seq<Flight>)
    ensures Total(Each(fs, AddedBy)) + Total(Each(fs, StillFlying)) == Total(Each(fs, (f: Flight) => f.msg.rewards))
    decreases |fs|
  {
    if fs != [] {
      var n := |fs| - 1;
      EachSplits(fs[..n]);
      EachSnoc(fs[..n], fs[n], AddedBy);
      EachSnoc(fs[..n], fs[n], StillFlying);
      EachSnoc(fs[..n], fs[n], (f: Flight) => f.msg.rewards);
      assert fs[..n] + [fs[n]] == fs;
    }
  }

  /** After every single step of every run: all balances, everything claimed and the claim being counted
      are covered by the pool's total and the rewards still being booked. */
  lemma AlwaysSolvent(s: State, steps: seq<Step>)
    requires Initial(s) && Valid(s, steps)
    ensures var t := Exec(s, steps);
            SumOver(t.db.balances) + t.db.claimedRewards + Uncounted(t.worker)
            <= t.db.totalRewards + Total(Each(t.flights, StillFlying))
  {
    ConservedRun(s, steps);
    var t := Exec(s, steps);
    var rewards := (f: Flight) => f.msg.rewards;
    EachSplits(t.flights);
    forall k | 0 <= k < |t.flights|
      ensures ReportedBy(t.flights[k]) <= t.flights[k].msg.rewards
    {
      assert FlightOk(t.flights[k], t.db.balances);
      ReportedWithin(t.flights[k], t.db.balances);
    }
    TotalMono(Each(t.flights, ReportedBy), Each(t.flights, rewards));
  }

  /** What one fully booked reward left in the pool. */
  function KeptBack(f: Flight): nat {
    if f.stage.Done? && CanSplit(f.msg, f.stage.job.order) && Rounding(f.msg, f.stage.job.order) >= 0
    then Rounding(f.msg, f.stage.job.order) + Unpaid(f.msg, f.stage.job.order, f.stage.job.connected) else 0
  }

  lemma DoneKeepsBack(f: Flight, table: Balances)
    requires FlightOk(f, table) && f.stage.Done?
    ensures CanSplit(f.msg, f.stage.job.order) && 0 <= Rounding(f.msg, f.stage.job.order)
    ensures ReportedBy(f) + KeptBack(f) == AddedBy(f)
  {
    MessagePaysItsReward(f.msg, f.msg.rewards, f.msg.subs, f.stage.job.order, f.stage.job.connected);
    assert f.stage.job.rows[..f.stage.job.booked] == f.stage.job.rows;
  }

  lemma {:induction false} EachKept(fs: seq<Flight>)
    requires forall k | 0 <= k < |fs| :: ReportedBy(fs[k]) + KeptBack(fs[k]) == AddedBy(fs[k])
    ensures Total(Each(fs, ReportedBy)) + Total(Each(fs, KeptBack)) == Total(Each(fs, AddedBy))
    decreases |fs|
  {
    if fs != [] {
      var n := |fs| - 1;
      EachKept(fs[..n]);
      EachSnoc(fs[..n], fs[n], ReportedBy);
      EachSnoc(fs[..n], fs[n], KeptBack);
      EachSnoc(fs[..n], fs[n], AddedBy);
      assert fs[..n] + [fs[n]] == fs;
    }
  }

  /** With no reward in flight the pool's surplus is exactly the rounding losses plus the shares of
      clients who were disconnected when their rows were built, plus the credits that were lost: so it is
      rounding and absence alone exactly if no amount was lost. */
  lemma SurplusIsRoundingAndAbsence(s: State, steps: seq<Step>)
    requires Initial(s) && Valid(s, steps)
    requires forall k | 0 <= k < |Exec(s, steps).flights| :: Exec(s, steps).flights[k].stage.Done?
    ensures var t := Exec(s, steps);
            && (forall k | 0 <= k < |t.flights| ::
                  var job := t.flights[k].stage.job;
                  CanSplit(t.flights[k].msg, job.order) && 0 <= Rounding(t.flights[k].msg, job.order)
                  && KeptBack(t.flights[k]) ==
                       Rounding(t.flights[k].msg, job.order) + Unpaid(t.flights[k].msg, job.order, job.connected))
            && t.db.totalRewards == SumOver(t.db.balances) + t.db.claimedRewards + Uncounted(t.worker)
                                    + Total(Each(t.flights, KeptBack)) + SumAll(t.lost)
  {
    ConservedRun(s, steps);
    var t := Exec(s, steps);
    forall k | 0 <= k < |t.flights|
      ensures CanSplit(t.flights[k].msg, t.flights[k].stage.job.order)
      ensures 0 <= Rounding(t.flights[k].msg, t.flights[k].stage.job.order)
      ensures ReportedBy(t.flights[k]) + KeptBack(t.flights[k]) == AddedBy(t.flights[k])
    {
      assert FlightOk(t.flights[k], t.db.balances);
      DoneKeepsBack(t.flights[k], t.db.balances);
    }
    EachKept(t.flights);
  }
}
