/** The epoch engine as a transition system. Every step is one critical section of one task:
    the dispatcher, a solution handler, the submitter, a watcher, the proof tracker or the chain. */
module Engine {
  import opened Wrappers
  import opened Words
  import opened Cutoff
  import opened Epoch
  import opened ProofTracking

  // ---------- Tasks ----------

  /** The dispatcher, by how far it got: it reads the proof and works out the deadline, then the best
      solution, then the window, and only then hands out blocks. */
  datatype Dispatcher = Resting | Looked(cutoff: int) | Willing | Issuing

  /** A handler of one client message, by how far it got. */
  datatype HandlerPhase =
    | Arrived
    | WindowOpen
    | InRange
    | Checked(miner: MinerId, diff: Difficulty)
    | Replacing(miner: MinerId, diff: Difficulty)
    | Wrote(clears: nat)
    | Dropped

  datatype Handler = Handler(uuid: Uuid, sol: Solution, phase: HandlerPhase)

  /** A watcher spawned for one sent transaction. `Resetting(k)`: k of its four resets are done. */
  datatype WatchPhase =
    | LoopTop
    | Unstopped
    | ProofSame
    | Found(proof: Proof)
    | Resetting(done: nat, challenge: Challenge)
    | Finished

  datatype Watcher = Watcher(oldProof: Proof, stopped: bool, phase: WatchPhase)

  /** The submitter. `snap` is the copy of the epoch hashes it took after closing the window. */
  datatype Submitter =
    | Idle
    | GotProof(oldProof: Proof)
    | SawBest(oldProof: Proof)
    | ClosedWindow(oldProof: Proof)
    | Attempting(oldProof: Proof, snap: Hashes, attempt: nat)
    | Polling(oldProof: Proof, snap: Hashes, attempt: nat, tx: nat, watcher: nat)
    | Waiting(oldProof: Proof, snap: Hashes)
    | AskingRpc(oldProof: Proof, snap: Hashes)
    | Comparing(oldProof: Proof, snap: Hashes, latest: Proof)
    | Restoring(done: nat, to: Option<Challenge>)

  datatype Tx = Tx(sol: Solution, landed: bool)

  /** A mine-success message: the submissions that share one reward. */
  datatype Payment = Payment(challenge: Challenge, best: Solution, snap: Hashes)

  /** `chain` lists the pool's proof account values in order; its last entry is the current one. */
  datatype State = State(
    now: int,
    chain: seq<Proof>,
    proof: Proof,
    last: Option<Challenge>,
    sh: Shared,
    dispatcher: Dispatcher,
    handlers: seq<Handler>,
    submitter: Submitter,
    watchers: seq<Watcher>,
    txs: seq<Tx>,
    paid: seq<Payment>,
    blocks: seq<Block>)

  // ---------- Steps ----------

  /** How the submitter goes on; the alternatives to `Advance` are answers of the RPC node. */
  datatype Outcome =
    | Advance
    | NoBlockhash
    | NoLongerValid(p: Proof)
    | GiveUp(reachedChain: bool)
    | Send
    | Finalised
    | Failed
    | RpcProof(answer: Option<Proof>)

  datatype Step =
    | Tick(seconds: nat)
    | Land(tx: nat, hashAt: int)
    | Notify(p: Proof)
    | LookAtProof
    | LookAtBest
    | BeginBatch
    | TakeBlock(uuid: Uuid)
    | Register(block: nat)
    | IssueTo(uuid: Uuid)
    | EndBatch
    | Spawn(uuid: Uuid, sol: Solution)
    | Handle(task: nat, miner: Option<MinerId>)
    | Submit(outcome: Outcome)
    | Watch(watcher: nat, answer: Option<Proof>)

  function Tip(s: State): Proof
    requires |s.chain| > 0
  {
    s.chain[|s.chain| - 1]
  }

  predicate OnChain(s: State, p: Proof) {
    p.challenge < |s.chain| && s.chain[p.challenge] == p
  }

  /** Premise: proof updates reach the server in chain order. */
  predicate InOrder(s: State, p: Proof) {
    OnChain(s, p) && s.proof.challenge <= p.challenge
  }

  /** The dispatch guard as one condition: near the deadline, only a pool without a solution hands out work. */
  predicate MayDispatch(s: State) {
    && (GetCutoff(s.proof.lastHashAt, 2, s.now) < 10 ==> s.sh.hashes.best.None?)
    && !s.sh.closed
  }

  predicate CanSend(sub: Submitter) {
    sub.Attempting? && sub.attempt < 10 && sub.snap.best.Some?
  }

  /** Where the submitter goes on without an answer from the RPC node. */
  predicate AdvanceEnabled(sub: Submitter) {
    match sub
    case Attempting(_, snap, attempt) => snap.best.None? || attempt >= 10
    case Polling(_, _, _, _, _) => false
    case AskingRpc(_, _) => false
    case Restoring(done, _) => done <= OPEN_WINDOW
    case _ => true
  }

  predicate SubmitEnabled(h: Hashing, s: State, o: Outcome) {
    match o
    case Advance => AdvanceEnabled(s.submitter)
    case NoBlockhash => CanSend(s.submitter)
    case NoLongerValid(p) =>
      CanSend(s.submitter) && InOrder(s, p) && !h.valid(s.submitter.snap.best.value, p.challenge)
    case GiveUp(_) => CanSend(s.submitter)
    case Send => CanSend(s.submitter)
    case Finalised =>
      && s.submitter.Polling? && s.submitter.snap.best.Some?
      && s.submitter.tx < |s.txs| && s.txs[s.submitter.tx].landed && s.submitter.watcher < |s.watchers|
    case Failed => s.submitter.Polling? && s.submitter.watcher < |s.watchers|
    case RpcProof(answer) =>
      && s.submitter.AskingRpc?
      && (answer.Some? && answer.value.challenge != s.submitter.oldProof.challenge ==> InOrder(s, answer.value))
  }

  predicate Enabled(h: Hashing, s: State, step: Step) {
    match step
    case Tick(_) => true
    case Land(tx, _) =>
      // The chain takes a solution once, and only for its current challenge.
      |s.chain| > 0 && tx < |s.txs| && !s.txs[tx].landed && h.valid(s.txs[tx].sol, Tip(s).challenge)
    case Notify(p) =>
      // A late notice of the challenge the server remembers as the last one may arrive out of order.
      OnChain(s, p) && (s.last == Some(p.challenge) || s.proof.challenge <= p.challenge)
    case LookAtProof => s.dispatcher.Resting?
    case LookAtBest => s.dispatcher.Looked?
    case BeginBatch => s.dispatcher.Willing?
    case TakeBlock(_) => s.dispatcher.Issuing? && s.sh.nonce + NONCE_RANGE_SIZE <= U64_MAX
    case Register(k) => k < |s.blocks|
    case IssueTo(_) => s.dispatcher.Issuing? && s.sh.nonce + NONCE_RANGE_SIZE <= U64_MAX
    case EndBatch => s.dispatcher.Issuing?
    case Spawn(_, _) => true
    case Handle(t, _) => t < |s.handlers| && !s.handlers[t].phase.Wrote? && !s.handlers[t].phase.Dropped?
    case Submit(o) => SubmitEnabled(h, s, o)
    case Watch(w, answer) =>
      && w < |s.watchers| && !s.watchers[w].phase.Finished?
      && (s.watchers[w].phase.Resetting? ==> s.watchers[w].phase.done <= OPEN_WINDOW)
      && (s.watchers[w].phase.ProofSame? && answer.Some? && answer.value.challenge != s.watchers[w].oldProof.challenge
          ==> InOrder(s, answer.value))
  }

  /** The handler's next critical section. */
  function HandleNext(h: Hashing, s: State, t: nat, miner: Option<MinerId>): State
    requires t < |s.handlers|
  {
    var w := s.handlers[t];
    var diff := h.difficulty(w.sol);
    match w.phase
    case Arrived => SetPhase(s, t, if s.sh.closed then Dropped else WindowOpen)
    case WindowOpen =>
      SetPhase(s, t, if w.uuid in s.sh.ranges && InRanges(s.sh.ranges[w.uuid], w.sol.nonce) then InRange else Dropped)
    case InRange =>
      SetPhase(s, t, if miner.Some? && h.valid(w.sol, s.proof.challenge) && diff >= MIN_DIFF
                     then Checked(miner.value, diff) else Dropped)
    case Checked(m, d) => SetPhase(s, t, if Improves(s.sh.hashes, w.uuid, d) then Replacing(m, d) else Dropped)
    case Replacing(m, d) =>
      var e := Record(s.sh.hashes, w.uuid, w.sol, MakeSubmission(w.sol, m, d, t));
      SetPhase(s, t, Wrote(e.clears)).(sh := s.sh.(hashes := e))
    case _ => s
  }

  function SetPhase(s: State, t: nat, phase: HandlerPhase): State
    requires t < |s.handlers|
  {
    s.(handlers := s.handlers[t := s.handlers[t].(phase := phase)])
  }

  function SetWatch(s: State, w: nat, phase: WatchPhase): State
    requires w < |s.watchers|
  {
    s.(watchers := s.watchers[w := s.watchers[w].(phase := phase)])
  }

  /** The submitter tells a watcher that its transaction was finalised or given up. */
  function Stop(s: State, w: nat): State
    requires w < |s.watchers|
  {
    s.(watchers := s.watchers[w := s.watchers[w].(stopped := true)])
  }

  /** The watcher's next critical section. */
  function WatchNext(s: State, w: nat, answer: Option<Proof>): State
    requires w < |s.watchers|
    requires s.watchers[w].phase.Resetting? ==> s.watchers[w].phase.done <= OPEN_WINDOW
  {
    var me := s.watchers[w];
    match me.phase
    case LoopTop => SetWatch(s, w, if me.stopped then Finished else Unstopped)
    case Unstopped =>
      SetWatch(s, w, if me.oldProof.challenge == s.proof.challenge then ProofSame else Found(s.proof))
    case ProofSame =>
      if answer.Some? && answer.value.challenge != me.oldProof.challenge
      then SetWatch(s, w, Found(answer.value)).(proof := answer.value)
      else SetWatch(s, w, LoopTop)
    case Found(p) => SetWatch(s, w, Resetting(0, p.challenge)).(last := Some(me.oldProof.challenge))
    case Resetting(done, c) =>
      SetWatch(s, w, if done < OPEN_WINDOW then Resetting(done + 1, c) else Finished)
        .(sh := ResetStep(s.sh, done, Some(c)))
    case Finished => s
  }

  /** The submitter's next critical section when it needs no answer. */
  function SubmitterAdvance(s: State): State
    requires s.submitter.Restoring? ==> s.submitter.done <= OPEN_WINDOW
  {
    match s.submitter
    case Idle => s.(submitter := GotProof(s.proof))
    case GotProof(oldProof) =>
      if GetCutoff(oldProof.lastHashAt, 1, s.now) <= 0 && s.sh.hashes.best.Some?
      then s.(submitter := SawBest(oldProof)) else s.(submitter := Idle)
    case SawBest(oldProof) => s.(submitter := ClosedWindow(oldProof), sh := s.sh.(closed := true))
    case ClosedWindow(oldProof) => s.(submitter := Attempting(oldProof, s.sh.hashes, 0))
    case Attempting(oldProof, snap, attempt) =>
      s.(submitter := if attempt < 10 then Attempting(oldProof, snap, attempt + 1) else Restoring(0, None))
    case Waiting(oldProof, snap) =>
      s.(submitter := if oldProof.challenge == s.proof.challenge then AskingRpc(oldProof, snap)
                      else Comparing(oldProof, snap, s.proof))
    case Comparing(_, _, latest) =>
      s.(submitter := if latest.challenge == s.sh.hashes.challenge then Idle else Restoring(0, Some(latest.challenge)))
    case Restoring(done, to) =>
      s.(submitter := if done < OPEN_WINDOW then Restoring(done + 1, to) else Idle,
         sh := ResetStep(s.sh, done, to))
    case _ => s
  }

  function SubmitNext(h: Hashing, s: State, o: Outcome): State
    requires SubmitEnabled(h, s, o)
  {
    var sub := s.submitter;
    match o
    case Advance => SubmitterAdvance(s)
    case NoBlockhash => s.(submitter := Attempting(sub.oldProof, sub.snap, sub.attempt + 1))
    case NoLongerValid(p) => s.(proof := p, submitter := Restoring(0, None))
    case GiveUp(reachedChain) =>
      s.(txs := if reachedChain then s.txs + [Tx(sub.snap.best.value, false)] else s.txs,
         submitter := Restoring(0, None))
    case Send =>
      s.(txs := s.txs + [Tx(sub.snap.best.value, false)],
         watchers := s.watchers + [Watcher(sub.oldProof, false, LoopTop)],
         submitter := Polling(sub.oldProof, sub.snap, sub.attempt, |s.txs|, |s.watchers|))
    case Finalised =>
      Stop(s, sub.watcher).(paid := s.paid + [Payment(sub.oldProof.challenge, sub.snap.best.value, sub.snap)],
                            submitter := Waiting(sub.oldProof, sub.snap))
    case Failed => Stop(s, sub.watcher).(submitter := Attempting(sub.oldProof, sub.snap, sub.attempt + 1))
    case RpcProof(answer) =>
      if answer.Some? && answer.value.challenge != sub.oldProof.challenge
      then s.(proof := answer.value, submitter := Restoring(0, Some(answer.value.challenge)))
      else s.(submitter := Waiting(sub.oldProof, sub.snap))
  }

  function Apply(h: Hashing, s: State, step: Step): State
    requires Enabled(h, s, step)
  {
    match step
    case Tick(seconds) => s.(now := s.now + seconds)
    case Land(tx, hashAt) =>
      s.(txs := s.txs[tx := s.txs[tx].(landed := true)], chain := s.chain + [Proof(|s.chain|, hashAt)])
    case Notify(p) => s.(proof := AfterNotice(s.proof, s.last, p))
    case LookAtProof => s.(dispatcher := Looked(GetCutoff(s.proof.lastHashAt, 2, s.now)))
    case LookAtBest =>
      s.(dispatcher := if s.dispatcher.cutoff < 10 && s.sh.hashes.best.Some? then Resting else Willing)
    case BeginBatch => s.(dispatcher := if s.sh.closed then Resting else Issuing)
    case TakeBlock(uuid) => s.(sh := TakeNext(s.sh), blocks := s.blocks + [Block(uuid, NextRange(s.sh.nonce))])
    case Register(k) =>
      s.(sh := AddRange(s.sh, s.blocks[k].uuid, s.blocks[k].range), blocks := s.blocks[..k] + s.blocks[k + 1..])
    // A block taken and registered with nothing in between.
    case IssueTo(uuid) => s.(sh := Issue(s.sh, uuid))
    case EndBatch => s.(dispatcher := Resting)
    case Spawn(uuid, sol) => s.(handlers := s.handlers + [Handler(uuid, sol, Arrived)])
    case Handle(t, miner) => HandleNext(h, s, t, miner)
    case Submit(o) => SubmitNext(h, s, o)
    case Watch(w, answer) => WatchNext(s, w, answer)
  }

  // ---------- Runs ----------

  predicate Initial(s: State) {
    && s.chain == [s.proof] && s.proof.challenge == 0 && s.last.None?
    && s.sh == Shared(0, map[], Hashes(0, None, 0, map[], 0), false)
    && s.dispatcher.Resting? && s.handlers == [] && s.submitter.Idle?
    && s.watchers == [] && s.txs == [] && s.paid == [] && s.blocks == []
  }

  /** The state a list of steps leads to, if each is enabled where it is taken. */
  predicate Valid(h: Hashing, s: State, steps: seq<Step>)
    decreases |steps|, 0
  {
    steps == [] || (Valid(h, s, steps[..|steps| - 1])
                    && Enabled(h, Exec(h, s, steps[..|steps| - 1]), steps[|steps| - 1]))
  }

  function Exec(h: Hashing, s: State, steps: seq<Step>): State
    requires Valid(h, s, steps)
    decreases |steps|, 1
  {
    if steps == [] then s
    else Apply(h, Exec(h, s, steps[..|steps| - 1]), steps[|steps| - 1])
  }

  lemma ExecOne(h: Hashing, s: State, steps: seq<Step>)
    requires |steps| == 1 && Enabled(h, s, steps[0])
    ensures Valid(h, s, steps) && Exec(h, s, steps) == Apply(h, s, steps[0])
  {
    var none: seq<Step> := [];
    assert steps[..|steps| - 1] == none;
    assert Valid(h, s, none) && Exec(h, s, none) == s;
    assert Valid(h, s, steps);
  }

  lemma ExecNext(h: Hashing, s: State, steps: seq<Step>, longer: seq<Step>)
    requires |longer| == |steps| + 1 && longer[..|steps|] == steps
    requires Valid(h, s, steps) && Enabled(h, Exec(h, s, steps), longer[|steps|])
    ensures Valid(h, s, longer) && Exec(h, s, longer) == Apply(h, Exec(h, s, steps), longer[|steps|])
  {
    assert longer[..|longer| - 1] == steps;
    assert longer[|longer| - 1] == longer[|steps|];
    assert Valid(h, s, longer);
  }

  lemma LastStep(h: Hashing, s: State, steps: seq<Step>)
    requires Valid(h, s, steps) && steps != []
    ensures var before, step := steps[..|steps| - 1], steps[|steps| - 1];
            && Valid(h, s, before) && Enabled(h, Exec(h, s, before), step)
            && Exec(h, s, steps) == Apply(h, Exec(h, s, before), step)
  {
  }

  lemma Extend(h: Hashing, s: State, steps: seq<Step>, t: State, step: Step) returns (longer: seq<Step>)
    requires Valid(h, s, steps) && Exec(h, s, steps) == t && Enabled(h, t, step)
    ensures longer == steps + [step] && Valid(h, s, longer) && Exec(h, s, longer) == Apply(h, t, step)
  {
    longer := steps + [step];
    ExecNext(h, s, steps, longer);
  }

  lemma {:induction false} ExecAppend(h: Hashing, s: State, a: seq<Step>, b: seq<Step>) returns (ab: seq<Step>)
    requires Valid(h, s, a) && Valid(h, Exec(h, s, a), b)
    ensures ab == a + b && Valid(h, s, ab) && Exec(h, s, ab) == Exec(h, Exec(h, s, a), b)
    decreases |b|
  {
    if b == [] {
      ab := a;
    } else {
      var t := Exec(h, s, a);
      LastStep(h, t, b);
      var before := ExecAppend(h, s, a, b[..|b| - 1]);
      ab := Extend(h, s, before, Exec(h, t, b[..|b| - 1]), b[|b| - 1]);
    }
  }
}
