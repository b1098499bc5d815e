/** What each miner's books say over whole runs of the ledger. */
module LedgerBooks {
  import opened Epoch
  import opened Sums
  import opened Booking
  import opened MineSuccess
  import opened Tables
  import opened Ledger
  import opened LedgerSolvency

  function BalanceOf(table: Balances, m: MinerId): nat {
    if m in table then table[m] else 0
  }

  /** A claim already taken from its miner's balance and not yet recorded. */
  function Unrecorded(w: Worker, m: MinerId): nat {
    if (w.Debited? || w.Counted?) && w.miner == m then w.amount else 0
  }

  /** Rows of one flight: those inserted as earnings, or those credited to balances. */
  function RowsOf(f: Flight, posted: bool): seq<Credit> {
    if posted then PostedRows(f) else BookedRows(f)
  }

  /** What all such rows together come to for one miner. */
  function RowsFor(fs: seq<Flight>, posted: bool, m: MinerId): nat {
    if fs == [] then 0 else RowsFor(fs[..|fs| - 1], posted, m) + SumFor(RowsOf(fs[|fs| - 1], posted), m)
  }

  /** The commissions booked so far. */
  function CommissionsFor(fs: seq<Flight>, boss: MinerId, m: MinerId): nat {
    if m == boss then Total(Each(fs, Commissioned)) else 0
  }

  ghost predicate BooksAgree(s: State, m: MinerId) {
    && BalanceOf(s.db.balances, m) + ClaimedBy(s.db.claims, m) + Unrecorded(s.worker, m) + SumFor(s.lost, m)
       == CommissionsFor(s.flights, s.boss, m) + RowsFor(s.flights, false, m)
    && SumFor(s.db.earnings, m) == RowsFor(s.flights, true, m)
  }

  lemma {:induction false} RowsUpdate(fs: seq<Flight>, k: nat, f: Flight, posted: bool, m: MinerId)
    requires k < |fs|
    ensures RowsFor(fs[k := f], posted, m)
         == RowsFor(fs, posted, m) - SumFor(RowsOf(fs[k], posted), m) + SumFor(RowsOf(f, posted), m)
    decreases |fs|
  {
    var n := |fs| - 1;
    if k < n {
      RowsUpdate(fs[..n], k, f, posted, m);
      assert fs[k := f][..n] == fs[..n][k := f];
    } else {
      assert fs[k := f][..n] == fs[..n];
    }
  }

  lemma BatchFor(table: Balances, cs: seq<Credit>, m: MinerId)
    requires forall i | 0 <= i < |cs| :: cs[i].miner in table
    ensures BalanceOf(BookBatch(table, cs), m) == BalanceOf(table, m) + SumFor(cs, m)
  {
    BatchIsOwed(table, cs);
    if m !in table {
      NoneFor(cs, m);
    }
  }

  lemma {:induction false} NoneFor(cs: seq<Credit>, m: MinerId)
    requires forall i | 0 <= i < |cs| :: cs[i].miner != m
    ensures SumFor(cs, m) == 0
    decreases |cs|
  {
    if cs != [] {
      NoneFor(cs[..|cs| - 1], m);
    }
  }

  /** How one miner's totals move when one reward does. */
  lemma MovedFlight(fs: seq<Flight>, k: nat, f': Flight, boss: MinerId, m: MinerId)
    requires k < |fs|
    ensures var fs' := fs[k := f'];
            && CommissionsFor(fs', boss, m) == CommissionsFor(fs, boss, m)
                 + (if m == boss then Commissioned(f') - Commissioned(fs[k]) else 0)
            && RowsFor(fs', false, m)
                 == RowsFor(fs, false, m) - SumFor(BookedRows(fs[k]), m) + SumFor(BookedRows(f'), m)
            && RowsFor(fs', true, m)
                 == RowsFor(fs, true, m) - SumFor(PostedRows(fs[k]), m) + SumFor(PostedRows(f'), m)
  {
    EachUpdate(fs, k, f', Commissioned);
    RowsUpdate(fs, k, f', false, m);
    RowsUpdate(fs, k, f', true, m);
  }

  lemma BookedChunk(f: Flight, upTo: nat, m: MinerId)
    requires f.stage.Booking? && f.stage.job.booked <= upTo <= |f.stage.job.rows|
    ensures var f' := f.(stage := Booking(f.stage.job.(booked := upTo)));
            && SumFor(BookedRows(f'), m)
               == SumFor(BookedRows(f), m) + SumFor(f.stage.job.rows[f.stage.job.booked..upTo], m)
            && PostedRows(f') == PostedRows(f) && Commissioned(f') == Commissioned(f)
  {
    SumForChunk(f.stage.job.rows, f.stage.job.booked, upTo, m);
  }

  lemma PostedChunk(f: Flight, upTo: nat, m: MinerId)
    requires f.stage.Booking? && f.stage.job.posted <= upTo <= |f.stage.job.rows|
    ensures var f' := f.(stage := Booking(f.stage.job.(posted := upTo)));
            && SumFor(PostedRows(f'), m)
               == SumFor(PostedRows(f), m) + SumFor(f.stage.job.rows[f.stage.job.posted..upTo], m)
            && BookedRows(f') == BookedRows(f) && Commissioned(f') == Commissioned(f)
  {
    SumForChunk(f.stage.job.rows, f.stage.job.posted, upTo, m);
  }

  lemma SumForChunk(rows: seq<Credit>, from: nat, upTo: nat, m: MinerId)
    requires from <= upTo <= |rows|
    ensures SumFor(rows[..upTo], m) == SumFor(rows[..from], m) + SumFor(rows[from..upTo], m)
  {
    SumForAppend(rows[..from], rows[from..upTo], m);
    assert rows[..from] + rows[from..upTo] == rows[..upTo];
  }

  /** Applied or lost, a reported batch is accounted for to each miner. */
  lemma ReportFor(s: State, batch: seq<Credit>, applied: bool, m: MinerId)
    requires forall i | 0 <= i < |batch| :: batch[i].miner in s.db.balances
    ensures var s' := Report(s, batch, applied);
            && BalanceOf(s'.db.balances, m) + SumFor(s'.lost, m)
               == BalanceOf(s.db.balances, m) + SumFor(s.lost, m) + SumFor(batch, m)
            && s'.db.claims == s.db.claims && s'.db.earnings == s.db.earnings
            && s'.flights == s.flights && s'.worker == s.worker && s'.boss == s.boss
  {
    BatchFor(s.db.balances, batch, m);
    SumForAppend(s.lost, batch, m);
  }

  /** One miner's books after a reported batch, if what is due to the miner rose by what the batch says. */
  lemma ReportBooks(s: State, fs': seq<Flight>, batch: seq<Credit>, applied: bool, m: MinerId)
    requires BooksAgree(s, m) && forall i | 0 <= i < |batch| :: batch[i].miner in s.db.balances
    requires CommissionsFor(fs', s.boss, m) + RowsFor(fs', false, m)
          == CommissionsFor(s.flights, s.boss, m) + RowsFor(s.flights, false, m) + SumFor(batch, m)
    requires RowsFor(fs', true, m) == RowsFor(s.flights, true, m)
    ensures BooksAgree(Report(s.(flights := fs'), batch, applied), m)
  {
    ReportFor(s.(flights := fs'), batch, applied, m);
  }

  lemma BooksCommission(s: State, k: nat, applied: bool, m: MinerId)
    requires KnownMiners(s) && BooksAgree(s, m) && Enabled(s, BookCommission(k, applied))
    ensures BooksAgree(Apply(s, BookCommission(k, applied)), m)
  {
    var f := s.flights[k];
    var f' := f.(stage := CommissionBooked);
    var cs := [Credit(s.boss, f.msg.commissions)];
    assert cs[..0] == [];
    assert SumFor(cs, m) == if m == s.boss then f.msg.commissions else 0;
    MovedFlight(s.flights, k, f', s.boss, m);
    ReportBooks(s, s.flights[k := f'], cs, applied, m);
  }

  lemma BooksChunk(s: State, s': State, k: nat, upTo: nat, applied: bool, m: MinerId)
    requires BooksAgree(s, m) && BooksNextChunk(s, s', k, upTo, applied)
    requires var job := s.flights[k].stage.job; forall i | job.booked <= i < upTo :: job.rows[i].miner in s.db.balances
    ensures BooksAgree(s', m)
  {
    var job := s.flights[k].stage.job;
    BookedMove(s, k, upTo, m);
    ReportBooks(s, s'.flights, job.rows[job.booked..upTo], applied, m);
  }

  lemma BooksRewards(s: State, k: nat, applied: bool, m: MinerId)
    requires FlightsOk(s) && BooksAgree(s, m) && Enabled(s, BookRewards(k, applied))
    ensures BooksAgree(Apply(s, BookRewards(k, applied)), m)
  {
    var upTo := BookRewardsEffect(s, k, applied);
    BooksChunk(s, Apply(s, BookRewards(k, applied)), k, upTo, applied, m);
  }

  lemma BookedMove(s: State, k: nat, upTo: nat, m: MinerId)
    requires k < |s.flights| && s.flights[k].stage.Booking?
    requires s.flights[k].stage.job.booked <= upTo <= |s.flights[k].stage.job.rows|
    ensures var f := s.flights[k];
            var fs' := s.flights[k := f.(stage := Booking(f.stage.job.(booked := upTo)))];
            && CommissionsFor(fs', s.boss, m) == CommissionsFor(s.flights, s.boss, m)
            && RowsFor(fs', false, m)
                 == RowsFor(s.flights, false, m) + SumFor(f.stage.job.rows[f.stage.job.booked..upTo], m)
            && RowsFor(fs', true, m) == RowsFor(s.flights, true, m)
  {
    var f := s.flights[k];
    BookedChunk(f, upTo, m);
    MovedFlight(s.flights, k, f.(stage := Booking(f.stage.job.(booked := upTo))), s.boss, m);
  }

  lemma BooksEarnings(s: State, k: nat, m: MinerId)
    requires BooksAgree(s, m) && Enabled(s, PostEarnings(k))
    ensures BooksAgree(Apply(s, PostEarnings(k)), m)
  {
    var f := s.flights[k];
    var job := f.stage.job;
    var upTo := Min(job.posted + BATCH, |job.rows|);
    var f' := f.(stage := Booking(job.(posted := upTo)));
    var s' := Apply(s, PostEarnings(k));
    assert s' == s.(flights := s.flights[k := f'], db := AddEarnings(s.db, job.rows[job.posted..upTo]));
    SumForAppend(s.db.earnings, job.rows[job.posted..upTo], m);
    PostedChunk(f, upTo, m);
    MovedFlight(s.flights, k, f', s.boss, m);
  }

  lemma BooksMoved(s: State, step: Step, m: MinerId)
    requires FlightsOk(s) && BooksAgree(s, m) && Enabled(s, step)
    requires step.SendMessage? || step.BuildJob? || step.AddTotal?
    ensures BooksAgree(Apply(s, step), m)
  {
    MovedAlong(s, step);
    MovedFlight(s.flights, step.flight, Apply(s, step).flights[step.flight], s.boss, m);
  }

  /** These steps move a reward on without a statement on any miner's row. */
  lemma MovedAlong(s: State, step: Step)
    requires FlightsOk(s) && Enabled(s, step) && (step.SendMessage? || step.BuildJob? || step.AddTotal?)
    ensures var s', k := Apply(s, step), step.flight;
            && s'.flights == s.flights[k := s'.flights[k]] && s'.db == s.db.(totalRewards := s'.db.totalRewards)
            && s'.worker == s.worker && s'.boss == s.boss && s'.lost == s.lost
            && Commissioned(s'.flights[k]) == Commissioned(s.flights[k])
            && BookedRows(s'.flights[k]) == BookedRows(s.flights[k])
            && PostedRows(s'.flights[k]) == PostedRows(s.flights[k])
  {
    assert FlightOk(s.flights[step.flight], s.db.balances);
  }

  lemma BooksMined(s: State, msg: Message, m: MinerId)
    requires BooksAgree(s, m) && Enabled(s, Mined(msg))
    ensures BooksAgree(Apply(s, Mined(msg)), m)
  {
    var f := Flight(msg, Settling);
    var fs := s.flights + [f];
    assert fs[..|s.flights|] == s.flights;
    assert SumFor([], m) == 0 && RowsOf(f, true) == [] && RowsOf(f, false) == [];
    EachSnoc(s.flights, f, Commissioned);
  }

  lemma BooksOther(s: State, step: Step, m: MinerId)
    requires KnownMiners(s) && BooksAgree(s, m) && Enabled(s, step) && !TouchesFlight(step)
    ensures BooksAgree(Apply(s, step), m)
  {
    if step.Mined? {
      BooksMined(s, step.msg, m);
    } else {
      ClaimSide(s, step, m);
    }
  }

  lemma ClaimSide(s: State, step: Step, m: MinerId)
    requires KnownMiners(s) && Enabled(s, step) && !TouchesFlight(step) && !step.Mined?
    ensures var s' := Apply(s, step);
            && s'.flights == s.flights && s'.db.earnings == s.db.earnings && s'.boss == s.boss && s'.lost == s.lost
            && BalanceOf(s'.db.balances, m) + ClaimedBy(s'.db.claims, m) + Unrecorded(s'.worker, m)
               == BalanceOf(s.db.balances, m) + ClaimedBy(s.db.claims, m) + Unrecorded(s.worker, m)
  {
    if step.RecordClaim? {
      assert Apply(s, step).db.claims[..|s.db.claims|] == s.db.claims;
    }
  }

  lemma BooksStep(s: State, step: Step, m: MinerId)
    requires KnownMiners(s) && FlightsOk(s) && BooksAgree(s, m) && Enabled(s, step)
    ensures BooksAgree(Apply(s, step), m)
  {
    if !TouchesFlight(step) {
      BooksOther(s, step, m);
    } else if step.BookCommission? {
      BooksCommission(s, step.flight, step.applied, m);
    } else if step.BookRewards? {
      BooksRewards(s, step.flight, step.applied, m);
    } else if step.PostEarnings? {
      BooksEarnings(s, step.flight, m);
    } else {
      BooksMoved(s, step, m);
    }
  }

  lemma {:induction false} BooksRun(s: State, steps: seq<Step>, m: MinerId)
    requires Initial(s) && Valid(s, steps)
    ensures BooksAgree(Exec(s, steps), m)
    decreases |steps|
  {
    if steps != [] {
      var before := steps[..|steps| - 1];
      BooksRun(s, before, m);
      ConservedRun(s, before);
      BooksStep(Exec(s, before), steps[|steps| - 1], m);
    }
  }

  lemma {:induction false} AllBooked(fs: seq<Flight>, m: MinerId)
    requires forall k | 0 <= k < |fs| :: BookedRows(fs[k]) == PostedRows(fs[k])
    ensures RowsFor(fs, false, m) == RowsFor(fs, true, m)
    decreases |fs|
  {
    if fs != [] {
      AllBooked(fs[..|fs| - 1], m);
    }
  }

  /** With nothing in flight, a miner's balance, recorded claims and lost credits together are exactly the
      miner's earnings rows and, for the commission receiver, the commissions of all rewards. So balance and
      claims alone come to what was earned exactly if no amount of this miner was lost. */
  lemma MinerBooksBalance(s: State, steps: seq<Step>, m: MinerId)
    requires Initial(s) && Valid(s, steps)
    requires forall k | 0 <= k < |Exec(s, steps).flights| :: Exec(s, steps).flights[k].stage.Done?
    requires !Exec(s, steps).worker.Debited? && !Exec(s, steps).worker.Counted?
    ensures var t := Exec(s, steps);
            var owned := BalanceOf(t.db.balances, m) + ClaimedBy(t.db.claims, m);
            var earned := SumFor(t.db.earnings, m) + (if m == t.boss then Total(Each(t.flights, Commissioned)) else 0);
            && owned + SumFor(t.lost, m) == earned
            && (owned == earned <==> forall i | 0 <= i < |t.lost| && t.lost[i].miner == m :: t.lost[i].amount == 0)
  {
    BooksRun(s, steps, m);
    ConservedRun(s, steps);
    var t := Exec(s, steps);
    forall k | 0 <= k < |t.flights|
      ensures BookedRows(t.flights[k]) == PostedRows(t.flights[k])
    {
      assert FlightOk(t.flights[k], t.db.balances);
    }
    AllBooked(t.flights, m);
    NothingFor(t.lost, m);
  }

  lemma {:induction false} NothingFor(cs: seq<Credit>, m: MinerId)
    ensures SumFor(cs, m) == 0 <==> forall i | 0 <= i < |cs| && cs[i].miner == m :: cs[i].amount == 0
    decreases |cs|
  {
    if cs != [] {
      var n := |cs| - 1;
      NothingFor(cs[..n], m);
      assert forall i | 0 <= i < n :: cs[..n][i] == cs[i];
    }
  }
}
