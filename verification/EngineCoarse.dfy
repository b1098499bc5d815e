/** Runs in which handling one client message is a single step, and how they sit among all runs. */
module EngineCoarse {
  import opened Wrappers
  import opened Epoch
  import opened Engine

  /** A run in which handling one client message is a single step. */
  datatype Coarse = Fine(step: Step) | Accept(uuid: Uuid, sol: Solution, miner: Option<MinerId>)

  predicate CoarseEnabled(h: Hashing, s: State, c: Coarse) {
    c.Fine? ==> !c.step.Spawn? && !c.step.Handle? && Enabled(h, s, c.step)
  }

  /** The phase in which a task that was not interrupted stops. */
  function LastPhase(v: Verdict, clears: nat): HandlerPhase {
    if v == Recorded then Wrote(clears) else Dropped
  }

  function CoarseApply(h: Hashing, s: State, c: Coarse): State
    requires CoarseEnabled(h, s, c)
  {
    match c
    case Fine(step) => Apply(h, s, step)
    case Accept(uuid, sol, miner) =>
      var v := Judge(h, s.sh, s.proof.challenge, uuid, sol, miner);
      s.(sh := AcceptWhole(h, s.sh, s.proof.challenge, uuid, sol, miner, |s.handlers|),
         handlers := s.handlers + [Handler(uuid, sol, LastPhase(v, s.sh.hashes.clears))])
  }

  /** The number of critical sections an uninterrupted handler goes through. */
  function PhaseCount(v: Verdict): nat {
    match v
    case Late => 1
    case RangeNotSet => 2
    case OutOfRange => 2
    case NoSocket => 3
    case InvalidSolution => 3
    case DiffTooLow => 3
    case NotBetter => 4
    case Recorded => 5
  }

  /** The state with one more handler in it. */
  function Joined(s: State, uuid: Uuid, sol: Solution, phase: HandlerPhase): State {
    s.(handlers := s.handlers + [Handler(uuid, sol, phase)])
  }

  lemma JoinedPhase(s: State, uuid: Uuid, sol: Solution, phase: HandlerPhase, phase': HandlerPhase)
    ensures SetPhase(Joined(s, uuid, sol, phase), |s.handlers|, phase') == Joined(s, uuid, sol, phase')
  {
  }

  /** The phase an uninterrupted handler is in after `k` critical sections. */
  function PhaseAfter(h: Hashing, s: State, v: Verdict, sol: Solution, miner: Option<MinerId>, k: nat): HandlerPhase
    requires v == NotBetter || v == Recorded ==> miner.Some? && h.difficulty(sol) >= MIN_DIFF
  {
    if k == 0 then Arrived
    else if k >= PhaseCount(v) then LastPhase(v, s.sh.hashes.clears)
    else if k == 1 then WindowOpen
    else if k == 2 then InRange
    else if k == 3 && (v == NotBetter || v == Recorded) then Checked(miner.value, h.difficulty(sol))
    else if v == Recorded then Replacing(miner.value, h.difficulty(sol))
    else Dropped
  }

  lemma OnePhase(h: Hashing, s: State, uuid: Uuid, sol: Solution, miner: Option<MinerId>, k: nat)
    requires k < PhaseCount(Judge(h, s.sh, s.proof.challenge, uuid, sol, miner)) && k != 4
    ensures var v := Judge(h, s.sh, s.proof.challenge, uuid, sol, miner);
            HandleNext(h, Joined(s, uuid, sol, PhaseAfter(h, s, v, sol, miner, k)), |s.handlers|, miner)
            == Joined(s, uuid, sol, PhaseAfter(h, s, v, sol, miner, k + 1))
  {
    var v := Judge(h, s.sh, s.proof.challenge, uuid, sol, miner);
    JoinedPhase(s, uuid, sol, PhaseAfter(h, s, v, sol, miner, k), PhaseAfter(h, s, v, sol, miner, k + 1));
  }

  lemma WritePhase(h: Hashing, s: State, uuid: Uuid, sol: Solution, miner: Option<MinerId>)
    requires Judge(h, s.sh, s.proof.challenge, uuid, sol, miner) == Recorded
    ensures HandleNext(h, Joined(s, uuid, sol, Replacing(miner.value, h.difficulty(sol))), |s.handlers|, miner)
         == CoarseApply(h, s, Accept(uuid, sol, miner))
  {
    var d := h.difficulty(sol);
    var e := Record(s.sh.hashes, uuid, sol, MakeSubmission(sol, miner.value, d, |s.handlers|));
    assert e.clears == s.sh.hashes.clears;
    JoinedPhase(s, uuid, sol, Replacing(miner.value, d), Wrote(e.clears));
  }

  /** The first `k` critical sections of a handler that nothing interrupts. */
  lemma {:induction false} FirstPhases(h: Hashing, s: State, uuid: Uuid, sol: Solution, miner: Option<MinerId>, k: nat)
    requires k <= PhaseCount(Judge(h, s.sh, s.proof.challenge, uuid, sol, miner)) && k < 5
    ensures var v := Judge(h, s.sh, s.proof.challenge, uuid, sol, miner);
            var steps := [Spawn(uuid, sol)] + seq(k, _ => Handle(|s.handlers|, miner));
            && Valid(h, s, steps)
            && Exec(h, s, steps) == Joined(s, uuid, sol, PhaseAfter(h, s, v, sol, miner, k))
  {
    var v := Judge(h, s.sh, s.proof.challenge, uuid, sol, miner);
    var steps := [Spawn(uuid, sol)] + seq(k, _ => Handle(|s.handlers|, miner));
    if k == 0 {
      ExecOne(h, s, steps);
    } else {
      FirstPhases(h, s, uuid, sol, miner, k - 1);
      var shorter := [Spawn(uuid, sol)] + seq(k - 1, _ => Handle(|s.handlers|, miner));
      assert steps[..k] == shorter;
      OnePhase(h, s, uuid, sol, miner, k - 1);
      ExecNext(h, s, shorter, steps);
    }
  }

  /** A coarse accept is the message's arrival followed by every phase of its handler. */
  lemma AcceptIsPhases(h: Hashing, s: State, uuid: Uuid, sol: Solution, miner: Option<MinerId>)
    ensures var v := Judge(h, s.sh, s.proof.challenge, uuid, sol, miner);
            var steps := [Spawn(uuid, sol)] + seq(PhaseCount(v), _ => Handle(|s.handlers|, miner));
            Valid(h, s, steps) && Exec(h, s, steps) == CoarseApply(h, s, Accept(uuid, sol, miner))
  {
    var v := Judge(h, s.sh, s.proof.challenge, uuid, sol, miner);
    if v == Recorded {
      FirstPhases(h, s, uuid, sol, miner, 4);
      WritePhase(h, s, uuid, sol, miner);
      var shorter := [Spawn(uuid, sol)] + seq(4, _ => Handle(|s.handlers|, miner));
      var steps := [Spawn(uuid, sol)] + seq(5, _ => Handle(|s.handlers|, miner));
      assert steps[..5] == shorter;
      ExecNext(h, s, shorter, steps);
    } else {
      FirstPhases(h, s, uuid, sol, miner, PhaseCount(v));
    }
  }

  predicate CoarseValid(h: Hashing, s: State, cs: seq<Coarse>)
    decreases |cs|, 0
  {
    cs == [] || (CoarseValid(h, s, cs[..|cs| - 1])
                 && CoarseEnabled(h, CoarseExec(h, s, cs[..|cs| - 1]), cs[|cs| - 1]))
  }

  function CoarseExec(h: Hashing, s: State, cs: seq<Coarse>): State
    requires CoarseValid(h, s, cs)
    decreases |cs|, 1
  {
    if cs == [] then s else CoarseApply(h, CoarseExec(h, s, cs[..|cs| - 1]), cs[|cs| - 1])
  }

  /** Every coarse run is a run of the fine engine. */
  lemma {:induction false} CoarseRunIsFine(h: Hashing, s: State, cs: seq<Coarse>) returns (steps: seq<Step>)
    requires CoarseValid(h, s, cs)
    ensures Valid(h, s, steps) && Exec(h, s, steps) == CoarseExec(h, s, cs)
    decreases |cs|
  {
    if cs == [] {
      steps := [];
    } else {
      var before := CoarseRunIsFine(h, s, cs[..|cs| - 1]);
      var mid := Exec(h, s, before);
      var tail: seq<Step>;
      match cs[|cs| - 1] {
        case Fine(step) =>
          tail := [step];
          ExecOne(h, mid, tail);
        case Accept(uuid, sol, miner) =>
          AcceptIsPhases(h, mid, uuid, sol, miner);
          var v := Judge(h, mid.sh, mid.proof.challenge, uuid, sol, miner);
          tail := [Spawn(uuid, sol)] + seq(PhaseCount(v), _ => Handle(|mid.handlers|, miner));
      }
      steps := ExecAppend(h, s, before, tail);
    }
  }
}
