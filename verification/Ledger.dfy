/** The rewards ledger as a transition system: settlement tasks, the booking task, the claim handlers
    and the claim worker, every database statement a step of its own. */
module Ledger {
  import opened Wrappers
  import opened Words
  import opened Epoch
  import opened Sums
  import opened Booking
  import opened MineSuccess
  import opened Tables

  /** Booking one message: rows were built once, then posted as earnings and booked as rewards. */
  datatype Job = Job(order: seq<Uuid>, connected: set<Uuid>, rows: seq<Credit>, posted: nat, booked: nat)

  /** How far a finalised reward has come. */
  datatype Stage =
    | Settling
    | CommissionBooked
    | Sent
    | Booking(job: Job)
    | Done(job: Job)

  datatype Flight = Flight(msg: Message, stage: Stage)

  /** A claim handler that has passed its checks and not yet inserted. */
  datatype Request = Request(miner: MinerId, amount: nat)

  /** The claim worker, holding the queue item it copied. */
  datatype Worker =
    | Idle
    | Picked(miner: MinerId, amount: nat)
    | Paid(miner: MinerId, amount: nat)
    | Debited(miner: MinerId, amount: nat)
    | Counted(miner: MinerId, amount: nat)
    | Logged(miner: MinerId)

  /** `boss` receives the commissions. No table keeps the last three: `paidOut` is what left the pool's chain
      account for finalised claims, `fees` what those claims were charged for accounts, and `lost` lists the
      credits of reward updates that were reported as done and never applied. */
  datatype State = State(now: int, boss: MinerId, db: Db, flights: seq<Flight>,
                         queue: map<MinerId, nat>, pending: seq<Request>, worker: Worker,
                         paidOut: nat, fees: nat, lost: seq<Credit>)

  datatype Step =
    | Clock(seconds: nat)
    | Join(miner: MinerId)
    | Mined(msg: Message)
    | BookCommission(flight: nat, applied: bool)
    | SendMessage(flight: nat)
    | BuildJob(flight: nat, order: seq<Uuid>, connected: set<Uuid>)
    | PostEarnings(flight: nat)
    | BookRewards(flight: nat, applied: bool)
    | AddTotal(flight: nat)
    | CheckDirect(miner: MinerId, needsAccount: bool)
    | CheckPosted(miner: MinerId, amount: nat)
    | Insert(request: nat)
    | Pick(miner: MinerId)
    | Abandon
    | PaymentFailed
    | PaymentFinal(madeAccount: bool)
    | Debit
    | Count
    | RecordClaim
    | Dequeue

  predicate At(s: State, k: nat) {
    k < |s.flights|
  }

  predicate NoneBooking(s: State) {
    forall k | 0 <= k < |s.flights| :: !s.flights[k].stage.Booking?
  }

  function Min(a: nat, b: nat): nat {
    if a < b then a else b
  }

  ghost predicate Enabled(s: State, step: Step) {
    match step
    case Clock(_) => true
    case Join(_) => true
    case Mined(msg) => MessageFor(msg, msg.rewards, msg.subs) && Splittable(msg.subs) && msg.rewards <= U64_MAX
    case BookCommission(k, _) => At(s, k) && s.flights[k].stage.Settling?
    case SendMessage(k) => At(s, k) && s.flights[k].stage.CommissionBooked?
    case BuildJob(k, order, _) =>
      // One task books one message at a time, and looks up every miner before it builds the rows.
      && At(s, k) && s.flights[k].stage.Sent? && NoneBooking(s)
      && Enumerates(order, s.flights[k].msg.subs) && CanSplit(s.flights[k].msg, order)
      && (forall u | u in s.flights[k].msg.subs :: s.flights[k].msg.subs[u].minerId in s.db.balances)
    case PostEarnings(k) =>
      && At(s, k) && s.flights[k].stage.Booking?
      && s.flights[k].stage.job.posted < |s.flights[k].stage.job.rows|
    case BookRewards(k, _) =>
      && At(s, k) && s.flights[k].stage.Booking?
      && s.flights[k].stage.job.booked < s.flights[k].stage.job.posted == |s.flights[k].stage.job.rows|
    case AddTotal(k) =>
      && At(s, k) && s.flights[k].stage.Booking?
      && s.flights[k].stage.job.booked == s.flights[k].stage.job.posted == |s.flights[k].stage.job.rows|
    case CheckDirect(m, needsAccount) => DirectClaim(s.db, m, needsAccount, s.now).Ok?
    case CheckPosted(m, amount) => PostedClaim(s.db, s.queue, m, amount, s.now).Ok?
    case Insert(r) => r < |s.pending|
    case Pick(m) => s.worker.Idle? && m in s.queue
    case Abandon => s.worker.Picked?
    case PaymentFailed => s.worker.Picked?
    case PaymentFinal(madeAccount) => s.worker.Picked? && (madeAccount ==> s.worker.amount >= ACCOUNT_FEE)
    case Debit => s.worker.Paid? && CanDecrease(s.db, s.worker.miner, s.worker.amount)
    case Count => s.worker.Debited?
    case RecordClaim => s.worker.Counted?
    case Dequeue => s.worker.Logged?
  }

  function SetStage(s: State, k: nat, stage: Stage): State
    requires At(s, k)
  {
    s.(flights := s.flights[k := s.flights[k].(stage := stage)])
  }

  function Enqueue(s: State, r: Result<nat, Refusal>, m: MinerId): State {
    match r
    case Ok(amount) => s.(pending := s.pending + [Request(m, amount)])
    case Err(_) => s
  }

  /** A reward update answers success whether or not its statement was applied. */
  function Report(s: State, batch: seq<Credit>, applied: bool): State {
    if applied then s.(db := UpdateRewards(s.db, batch)) else s.(lost := s.lost + batch)
  }

  ghost function Apply(s: State, step: Step): State
    requires Enabled(s, step)
  {
    match step
    case Clock(seconds) => s.(now := s.now + seconds)
    case Join(m) => s.(db := SignUp(s.db, m))
    case Mined(msg) => s.(flights := s.flights + [Flight(msg, Settling)])
    case BookCommission(k, applied) =>
      Report(SetStage(s, k, CommissionBooked), [Credit(s.boss, s.flights[k].msg.commissions)], applied)
    case SendMessage(k) => SetStage(s, k, Sent)
    case BuildJob(k, order, connected) =>
      SetStage(s, k, Booking(Job(order, connected, Credits(s.flights[k].msg, order, connected), 0, 0)))
    case PostEarnings(k) =>
      var job := s.flights[k].stage.job;
      var upTo := Min(job.posted + BATCH, |job.rows|);
      SetStage(s, k, Booking(job.(posted := upTo))).(db := AddEarnings(s.db, job.rows[job.posted..upTo]))
    case BookRewards(k, applied) =>
      var job := s.flights[k].stage.job;
      var upTo := Min(job.booked + BATCH, |job.rows|);
      Report(SetStage(s, k, Booking(job.(booked := upTo))), job.rows[job.booked..upTo], applied)
    case AddTotal(k) =>
      SetStage(s, k, Done(s.flights[k].stage.job)).(db := UpdatePoolRewards(s.db, s.flights[k].msg.rewards))
    case CheckDirect(m, needsAccount) => Enqueue(s, DirectClaim(s.db, m, needsAccount, s.now), m)
    case CheckPosted(m, amount) => Enqueue(s, PostedClaim(s.db, s.queue, m, amount, s.now), m)
    case Insert(r) =>
      s.(queue := s.queue[s.pending[r].miner := s.pending[r].amount], pending := s.pending[..r] + s.pending[r + 1..])
    case Pick(m) => s.(worker := Picked(m, s.queue[m]))
    case Abandon => s.(worker := Idle, queue := s.queue - {s.worker.miner})
    case PaymentFailed => s.(worker := Idle)
    case PaymentFinal(madeAccount) =>
      var fee := if madeAccount then ACCOUNT_FEE else 0;
      s.(worker := Paid(s.worker.miner, s.worker.amount),
         paidOut := s.paidOut + s.worker.amount - fee, fees := s.fees + fee)
    case Debit =>
      s.(worker := Debited(s.worker.miner, s.worker.amount),
         db := DecreaseReward(s.db, s.worker.miner, s.worker.amount))
    case Count =>
      s.(worker := Counted(s.worker.miner, s.worker.amount), db := UpdatePoolClaimed(s.db, s.worker.amount))
    case RecordClaim =>
      s.(worker := Logged(s.worker.miner), db := AddClaim(s.db, Claim(s.worker.miner, s.worker.amount, s.now)))
    case Dequeue => s.(worker := Idle, queue := s.queue - {s.worker.miner})
  }

  // ---------- Runs ----------

  /** At start-up the commission receiver has been signed up. */
  predicate Initial(s: State) {
    && s.db == EmptyDb().(balances := map[s.boss := 0])
    && s.flights == [] && s.queue == map[] && s.pending == [] && s.worker.Idle?
    && s.paidOut == 0 && s.fees == 0 && s.lost == []
  }

  ghost predicate Valid(s: State, steps: seq<Step>)
    decreases |steps|, 0
  {
    steps == [] || (Valid(s, steps[..|steps| - 1]) && Enabled(Exec(s, steps[..|steps| - 1]), steps[|steps| - 1]))
  }

  ghost function Exec(s: State, steps: seq<Step>): State
    requires Valid(s, steps)
    decreases |steps|, 1
  {
    if steps == [] then s else Apply(Exec(s, steps[..|steps| - 1]), steps[|steps| - 1])
  }

  /** The worker holds a claim of a miner one of whose requests is between its checks and its insert. */
  predicate Amidst(s: State) {
    !s.worker.Idle? && exists r :: 0 <= r < |s.pending| && s.pending[r].miner == s.worker.miner
  }

  /** A premise on a run: no claim is recorded then. */
  ghost predicate NeverAmidst(s: State, steps: seq<Step>)
    requires Valid(s, steps)
    decreases |steps|
  {
    steps == [] ||
    (NeverAmidst(s, steps[..|steps| - 1])
     && !(steps[|steps| - 1].RecordClaim? && Amidst(Exec(s, steps[..|steps| - 1]))))
  }

  /** Debiting the worker's claim leaves a waiting request of its miner asking for more than remains. */
  ghost predicate LeavesShort(s: State)
    requires Enabled(s, Debit)
  {
    exists r :: 0 <= r < |s.pending| && s.pending[r].miner == s.worker.miner
                && !Covers(DecreaseReward(s.db, s.worker.miner, s.worker.amount).balances,
                           s.worker.miner, s.pending[r].amount)
  }

  predicate Covers(table: Balances, m: MinerId, amount: nat) {
    m in table && amount <= table[m]
  }

  /** A premise on a run: no debit does. */
  ghost predicate NeverShort(s: State, steps: seq<Step>)
    requires Valid(s, steps)
    decreases |steps|
  {
    steps == [] ||
    (NeverShort(s, steps[..|steps| - 1])
     && !(steps[|steps| - 1].Debit? && LeavesShort(Exec(s, steps[..|steps| - 1]))))
  }
}
