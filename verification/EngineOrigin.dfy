/** Where a recorded submission comes from: the one handler task that recorded it, the solution that task was
    sent, and the miner and challenge it was checked with. */
module EngineOrigin {
  import opened Wrappers
  import opened Epoch
  import opened Engine
  import opened EngineBest
  import opened EngineRanges
  import opened EnginePaid

  /** What a handler's check found: the miner of its socket, and the challenge tracked then. */
  datatype Check = Check(miner: MinerId, challenge: Challenge)

  /** At the last of these steps, task `t` passed its check. */
  predicate JustChecked(h: Hashing, s: State, steps: seq<Step>, t: nat)
    requires Valid(h, s, steps) && steps != []
  {
    && LastOf(steps).Handle? && LastOf(steps).task == t && LastOf(steps).miner.Some?
    && var before := BeforeLast(h, s, steps);
    && t < |before.handlers| && before.handlers[t].phase.InRange?
    && t < |Exec(h, s, steps).handlers| && Exec(h, s, steps).handlers[t].phase.Checked?
  }

  function LastOf(steps: seq<Step>): Step
    requires steps != []
  {
    steps[|steps| - 1]
  }

  function BeforeLast(h: Hashing, s: State, steps: seq<Step>): State
    requires Valid(h, s, steps) && steps != []
  {
    Exec(h, s, steps[..|steps| - 1])
  }

  /** The check that task `t` passed along a run. */
  function CheckOf(h: Hashing, s: State, steps: seq<Step>, t: nat): Option<Check>
    requires Valid(h, s, steps)
    decreases |steps|
  {
    if steps == [] then None
    else if JustChecked(h, s, steps, t)
    then Some(Check(LastOf(steps).miner.value, BeforeLast(h, s, steps).proof.challenge))
    else CheckOf(h, s, steps[..|steps| - 1], t)
  }

  /** A task that goes on to record `sub`: it was sent a solution with that nonce and difficulty, hard enough
      and an answer to the challenge tracked at its check, and its socket was that miner's. */
  predicate Accounts(h: Hashing, w: Handler, check: Option<Check>, miner: MinerId, diff: nat, nonce: nat) {
    && check.Some? && check.value.miner == miner
    && nonce == w.sol.nonce && diff == h.difficulty(w.sol) >= 12
    && h.valid(w.sol, check.value.challenge)
  }

  /** The record of client `u` was written by a task of that client, which accounts for it. */
  predicate TracedTo(h: Hashing, s: State, steps: seq<Step>, u: Uuid, sub: Submission)
    requires Valid(h, s, steps)
  {
    && sub.task < |Exec(h, s, steps).handlers|
    && var w := Exec(h, s, steps).handlers[sub.task];
    && w.uuid == u && w.phase.Wrote?
    && Accounts(h, w, CheckOf(h, s, steps, sub.task), sub.minerId, sub.diff, sub.nonce)
  }

  predicate AllTraced(h: Hashing, s: State, steps: seq<Step>, subs: map<Uuid, Submission>)
    requires Valid(h, s, steps)
  {
    forall u | u in subs :: TracedTo(h, s, steps, u, subs[u])
  }

  /** A task past its check accounts for what it is about to record. */
  predicate HandlerTraced(h: Hashing, s: State, steps: seq<Step>, t: nat)
    requires Valid(h, s, steps) && t < |Exec(h, s, steps).handlers|
  {
    var w := Exec(h, s, steps).handlers[t];
    && (w.phase.Checked? ==> Accounts(h, w, CheckOf(h, s, steps, t), w.phase.miner, w.phase.diff, w.sol.nonce))
    && (w.phase.Replacing? ==> Accounts(h, w, CheckOf(h, s, steps, t), w.phase.miner, w.phase.diff, w.sol.nonce))
  }

  ghost predicate OriginInv(h: Hashing, s: State, steps: seq<Step>)
    requires Valid(h, s, steps)
  {
    var t := Exec(h, s, steps);
    && (forall k | 0 <= k < |t.handlers| :: HandlerTraced(h, s, steps, k))
    && AllTraced(h, s, steps, t.sh.hashes.subs)
    && (SnapOf(t.submitter).Some? ==> AllTraced(h, s, steps, SnapOf(t.submitter).value.subs))
    && (forall k | 0 <= k < |t.paid| :: AllTraced(h, s, steps, t.paid[k].snap.subs))
  }

  // ---------- One more step ----------

  /** A task that is past its check is not checked again. */
  lemma CheckStands(h: Hashing, s: State, steps: seq<Step>, t: nat)
    requires Valid(h, s, steps) && steps != [] && t < |BeforeLast(h, s, steps).handlers|
    requires !BeforeLast(h, s, steps).handlers[t].phase.InRange?
    ensures CheckOf(h, s, steps, t) == CheckOf(h, s, steps[..|steps| - 1], t)
  {
  }

  lemma TracedStands(h: Hashing, s: State, steps: seq<Step>, subs: map<Uuid, Submission>)
    requires Valid(h, s, steps) && steps != [] && AllTraced(h, s, steps[..|steps| - 1], subs)
    ensures AllTraced(h, s, steps, subs)
  {
    LastStep(h, s, steps);
    WritersKeptStep(h, BeforeLast(h, s, steps), LastOf(steps));
    forall u | u in subs
      ensures TracedTo(h, s, steps, u, subs[u])
    {
      assert TracedTo(h, s, steps[..|steps| - 1], u, subs[u]);
      CheckStands(h, s, steps, subs[u].task);
    }
  }

  /** What a handler's step does to the handler itself. */
  lemma HandlerMoves(h: Hashing, x: State, step: Step, t: nat)
    requires Enabled(h, x, step) && t < |x.handlers|
    ensures var w, w' := x.handlers[t], Apply(h, x, step).handlers[t];
            && w'.uuid == w.uuid && w'.sol == w.sol
            && (!(step.Handle? && step.task == t) ==> w' == w)
            && (w'.phase.Checked? && w'.phase != w.phase ==>
                  && w.phase.InRange? && step.miner == Some(w'.phase.miner)
                  && w'.phase.diff == h.difficulty(w.sol) >= 12 && h.valid(w.sol, x.proof.challenge))
            && (w'.phase.Replacing? && w'.phase != w.phase ==>
                  w.phase.Checked? && w'.phase.miner == w.phase.miner && w'.phase.diff == w.phase.diff)
  {
  }

  lemma HandlerTracedStep(h: Hashing, s: State, steps: seq<Step>, t: nat)
    requires Valid(h, s, steps) && steps != [] && t < |Exec(h, s, steps).handlers|
    requires t < |BeforeLast(h, s, steps).handlers| ==> HandlerTraced(h, s, steps[..|steps| - 1], t)
    ensures HandlerTraced(h, s, steps, t)
  {
    LastStep(h, s, steps);
    var x, step := BeforeLast(h, s, steps), LastOf(steps);
    if t < |x.handlers| {
      HandlerMoves(h, x, step, t);
      if !x.handlers[t].phase.InRange? {
        CheckStands(h, s, steps, t);
      } else if Exec(h, s, steps).handlers[t].phase.Checked? {
        assert JustChecked(h, s, steps, t);
      }
    } else {
      assert Exec(h, s, steps).handlers[t].phase.Arrived?;
    }
  }

  lemma WrittenTraced(h: Hashing, s: State, steps: seq<Step>)
    requires Valid(h, s, steps) && steps != [] && OriginInv(h, s, steps[..|steps| - 1])
    ensures AllTraced(h, s, steps, Exec(h, s, steps).sh.hashes.subs)
  {
    LastStep(h, s, steps);
    var x, step, y := BeforeLast(h, s, steps), LastOf(steps), Exec(h, s, steps);
    TracedStands(h, s, steps, x.sh.hashes.subs);
    if step.Handle? && x.handlers[step.task].phase.Replacing? {
      var t := step.task;
      assert HandlerTraced(h, s, steps[..|steps| - 1], t);
      CheckStands(h, s, steps, t);
      RecordTraced(h, s, steps, t);
    } else if step.Handle? {
      assert y.sh.hashes == x.sh.hashes;
    } else if Leaves(x, step, CLEAR_HASHES) {
      var c := LeavingEffect(h, x, step, CLEAR_HASHES);
    } else {
      SubsUntouched(h, x, step);
    }
  }

  lemma RecordTraced(h: Hashing, s: State, steps: seq<Step>, t: nat)
    requires Valid(h, s, steps) && steps != [] && LastOf(steps).Handle? && LastOf(steps).task == t
    requires var x := BeforeLast(h, s, steps);
             && t < |x.handlers| && x.handlers[t].phase.Replacing?
             && AllTraced(h, s, steps, x.sh.hashes.subs)
             && var w := x.handlers[t];
                Accounts(h, w, CheckOf(h, s, steps, t), w.phase.miner, w.phase.diff, w.sol.nonce)
    ensures AllTraced(h, s, steps, Exec(h, s, steps).sh.hashes.subs)
  {
    LastStep(h, s, steps);
    var x, y := BeforeLast(h, s, steps), Exec(h, s, steps);
    var u := x.handlers[t].uuid;
    assert TracedTo(h, s, steps, u, y.sh.hashes.subs[u]);
  }

  lemma OriginStep(h: Hashing, s: State, steps: seq<Step>)
    requires Valid(h, s, steps) && steps != [] && OriginInv(h, s, steps[..|steps| - 1])
    ensures OriginInv(h, s, steps)
  {
    LastStep(h, s, steps);
    var x, step, y := BeforeLast(h, s, steps), LastOf(steps), Exec(h, s, steps);
    forall t | 0 <= t < |y.handlers|
      ensures HandlerTraced(h, s, steps, t)
    {
      HandlerTracedStep(h, s, steps, t);
    }
    WrittenTraced(h, s, steps);
    CopyComesFrom(h, x, step);
    TracedStands(h, s, steps, x.sh.hashes.subs);
    if SnapOf(x.submitter).Some? {
      TracedStands(h, s, steps, SnapOf(x.submitter).value.subs);
    }
    forall k | 0 <= k < |y.paid|
      ensures AllTraced(h, s, steps, y.paid[k].snap.subs)
    {
      if k < |x.paid| {
        TracedStands(h, s, steps, x.paid[k].snap.subs);
        assert y.paid[k] == y.paid[..|x.paid|][k];
      }
    }
  }

  lemma {:induction false} OriginRun(h: Hashing, s: State, steps: seq<Step>)
    requires Initial(s) && Valid(h, s, steps)
    ensures OriginInv(h, s, steps)
    decreases |steps|
  {
    if steps != [] {
      OriginRun(h, s, steps[..|steps| - 1]);
      OriginStep(h, s, steps);
    }
  }

  /** In every run, with no premise on how tasks interleave: every recorded, copied or paid submission was
      written by a task of its client, carries the nonce and difficulty of the solution that task was sent,
      which answered the challenge tracked at the task's check, and the miner whose socket the check found. */
  lemma RecordsAreTraced(h: Hashing, s: State, steps: seq<Step>)
    requires Initial(s) && Valid(h, s, steps)
    ensures var t := Exec(h, s, steps);
            && AllTraced(h, s, steps, t.sh.hashes.subs)
            && (SnapOf(t.submitter).Some? ==> AllTraced(h, s, steps, SnapOf(t.submitter).value.subs))
            && (forall k | 0 <= k < |t.paid| :: AllTraced(h, s, steps, t.paid[k].snap.subs))
  {
    OriginRun(h, s, steps);
  }
}
