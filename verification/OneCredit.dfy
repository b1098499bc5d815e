/** From handler task to credit: what one task recorded is credited by at most one row of the whole ledger. */
module OneCredit {
  import opened Epoch
  import opened Engine
  import opened EnginePaid
  import opened EngineOrigin
  import opened Booking
  import opened MineSuccess
  import L = Ledger
  import S = LedgerSolvency

  /** The ledger's rewards are the engine's messages: each reward is that of one message, with the
      submissions of its copy, and no message is settled twice. */
  predicate Settles(paid: seq<Payment>, flights: seq<L.Flight>, source: seq<nat>) {
    && |source| == |flights|
    && (forall k | 0 <= k < |flights| :: source[k] < |paid| && flights[k].msg.subs == paid[source[k]].snap.subs)
    && (forall k, l | 0 <= k < l < |flights| :: source[k] != source[l])
  }

  /** Row `i` of reward `k` has been built. */
  predicate RowAt(flights: seq<L.Flight>, k: nat, i: nat) {
    k < |flights| && S.HasJob(flights[k]) && i < |flights[k].stage.job.rows|
  }

  predicate ClientAt(f: L.Flight, i: nat) {
    && S.HasJob(f) && i < |Paying(f.stage.job.order, f.stage.job.connected)|
    && Paying(f.stage.job.order, f.stage.job.connected)[i] in f.msg.subs
  }

  /** The recorded submission a row pays. */
  function RowOf(f: L.Flight, i: nat): Submission
    requires ClientAt(f, i)
  {
    f.msg.subs[Paying(f.stage.job.order, f.stage.job.connected)[i]]
  }

  /** Every row is the credit of one recorded submission, and rows of one reward are of different clients. */
  lemma RowsOfFlight(f: L.Flight, table: Balances)
    requires S.FlightOk(f, table) && S.HasJob(f)
    ensures var job := f.stage.job;
            && |job.rows| == |Paying(job.order, job.connected)|
            && (forall i | 0 <= i < |job.rows| :: ClientAt(f, i) && CanSplit(f.msg, job.order)
                  && job.rows[i] == Credit(RowOf(f, i).minerId, AmountOf(f.msg, RowOf(f, i))))
            && (forall i, j | 0 <= i < j < |job.rows| ::
                  Paying(job.order, job.connected)[i] != Paying(job.order, job.connected)[j])
  {
    var job := f.stage.job;
    CreditsArePaying(f.msg, job.order, job.connected);
    PayingOnce(job.order, job.connected);
  }

  /** Two different rows pay the work of different tasks. */
  lemma RowsDiffer(t: State, flights: seq<L.Flight>, table: Balances, source: seq<nat>, k: nat, i: nat, l: nat, j: nat)
    requires TasksInv(t) && Settles(t.paid, flights, source)
    requires forall a, b | 0 <= a < b < |t.paid| :: t.paid[a].snap.clears < t.paid[b].snap.clears
    requires forall f | f in flights :: S.FlightOk(f, table)
    requires RowAt(flights, k, i) && RowAt(flights, l, j) && (k != l || i != j)
    ensures ClientAt(flights[k], i) && ClientAt(flights[l], j)
    ensures RowOf(flights[k], i).task != RowOf(flights[l], j).task
  {
    RowsOfFlight(flights[k], table);
    RowsOfFlight(flights[l], table);
    assert ClientAt(flights[k], i) && ClientAt(flights[l], j);
    var snap, snap' := t.paid[source[k]].snap, t.paid[source[l]].snap;
    assert WrittenIn(t, snap) && WrittenIn(t, snap');
    if k != l {
      assert source[k] != source[l];
      assert snap.clears != snap'.clears;
    }
  }

  /** The credit of row `i` goes to the miner whose socket the check of the row's task found. */
  lemma RowGoesToItsMiner(h: Hashing, s: State, steps: seq<Step>, flights: seq<L.Flight>, source: seq<nat>,
                          k: nat, i: nat)
    requires Initial(s) && Valid(h, s, steps) && Settles(Exec(h, s, steps).paid, flights, source)
    requires k < |flights| && ClientAt(flights[k], i)
    ensures var sub := RowOf(flights[k], i);
            CheckOf(h, s, steps, sub.task).Some? && CheckOf(h, s, steps, sub.task).value.miner == sub.minerId
  {
    RecordsAreTraced(h, s, steps);
    var f := flights[k];
    var u := Paying(f.stage.job.order, f.stage.job.connected)[i];
    assert AllTraced(h, s, steps, Exec(h, s, steps).paid[source[k]].snap.subs);
    assert TracedTo(h, s, steps, u, f.msg.subs[u]);
  }

  /** Along any run of the engine that pays no overtaken copy, and any run of the ledger that settles its
      messages, in any order: every row credits one recorded submission with its share, to the miner whose
      socket the check of its task found, and no two rows of the whole ledger credit what the same handler
      task recorded. */
  lemma OneCreditPerTask(h: Hashing, s: State, steps: seq<Step>, ls: L.State, lsteps: seq<L.Step>, source: seq<nat>)
    requires Initial(s) && Valid(h, s, steps) && NeverPaysOvertaken(h, s, steps)
    requires L.Initial(ls) && L.Valid(ls, lsteps)
    requires Settles(Exec(h, s, steps).paid, L.Exec(ls, lsteps).flights, source)
    ensures var flights := L.Exec(ls, lsteps).flights;
            && (forall k: nat, i: nat | RowAt(flights, k, i) ::
                  var f := flights[k];
                  && ClientAt(f, i) && CanSplit(f.msg, f.stage.job.order)
                  && f.stage.job.rows[i].amount == AmountOf(f.msg, RowOf(f, i))
                  && var check := CheckOf(h, s, steps, RowOf(f, i).task);
                  check.Some? && f.stage.job.rows[i].miner == check.value.miner)
            && (forall k: nat, i: nat, l: nat, j: nat |
                  RowAt(flights, k, i) && RowAt(flights, l, j) && (k != l || i != j) ::
                  RowOf(flights[k], i).task != RowOf(flights[l], j).task)
  {
    var t, lt := Exec(h, s, steps), L.Exec(ls, lsteps);
    NothingPaidTwice(h, s, steps);
    AnyRun(h, s, steps);
    S.ConservedRun(ls, lsteps);
    assert forall k | 0 <= k < |lt.flights| :: S.FlightOk(lt.flights[k], lt.db.balances);
    forall k: nat, i: nat | RowAt(lt.flights, k, i)
      ensures var f := lt.flights[k];
              && ClientAt(f, i) && CanSplit(f.msg, f.stage.job.order)
              && f.stage.job.rows[i].amount == AmountOf(f.msg, RowOf(f, i))
              && var check := CheckOf(h, s, steps, RowOf(f, i).task);
              check.Some? && f.stage.job.rows[i].miner == check.value.miner
    {
      RowsOfFlight(lt.flights[k], lt.db.balances);
      RowGoesToItsMiner(h, s, steps, lt.flights, source, k, i);
    }
    forall k: nat, i: nat, l: nat, j: nat | RowAt(lt.flights, k, i) && RowAt(lt.flights, l, j) && (k != l || i != j)
      ensures RowOf(lt.flights[k], i).task != RowOf(lt.flights[l], j).task
    {
      RowsDiffer(t, lt.flights, lt.db.balances, source, k, i, l, j);
    }
  }
}
