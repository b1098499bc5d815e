/** What the epoch hashes always say about themselves, under every interleaving of handler phases,
    resets, dispatches and submissions. */
module EngineBest {
  import opened Wrappers
  import opened Epoch
  import opened Engine

  function SnapOf(sub: Submitter): Option<Hashes> {
    match sub
    case Attempting(_, snap, _) => Some(snap)
    case Polling(_, snap, _, _, _) => Some(snap)
    case Waiting(_, snap) => Some(snap)
    case AskingRpc(_, snap) => Some(snap)
    case Comparing(_, snap, _) => Some(snap)
    case _ => None
  }

  /** Copies are taken of the epoch hashes, kept or dropped, and only finalising pays one. */
  lemma CopyComesFrom(h: Hashing, s: State, step: Step)
    requires Enabled(h, s, step)
    ensures var s' := Apply(h, s, step);
            && (SnapOf(s'.submitter).None? || SnapOf(s'.submitter) == SnapOf(s.submitter)
                || SnapOf(s'.submitter) == Some(s.sh.hashes))
            && (if step == Submit(Finalised)
                then SnapOf(s.submitter).Some? && |s'.paid| == |s.paid| + 1 && s'.paid[..|s.paid|] == s.paid
                     && s'.paid[|s.paid|].snap == SnapOf(s.submitter).value
                     && s'.paid[|s.paid|].snap.best == Some(s'.paid[|s.paid|].best)
                else s'.paid == s.paid)
            && (!step.Submit? ==> s'.submitter == s.submitter)
  {
  }

  predicate PowersFit(sub: Submission) {
    sub.realHashpower == RealHashpower(sub.diff) && sub.hashpower == CappedHashpower(sub.diff)
  }

  /** The best difficulty bounds every recorded one and is the best solution's own; there is a best
      solution exactly when something is recorded; hashpower is a function of difficulty. */
  predicate BestFits(h: Hashing, e: Hashes) {
    && (e.best.Some? <==> e.subs != map[])
    && e.bestDiff == (if e.best.Some? then h.difficulty(e.best.value) else 0)
    && (forall u | u in e.subs :: e.subs[u].diff <= e.bestDiff && PowersFit(e.subs[u]))
  }

  ghost predicate BestInv(h: Hashing, s: State) {
    && BestFits(h, s.sh.hashes)
    && (SnapOf(s.submitter).Some? ==> BestFits(h, SnapOf(s.submitter).value))
    && (forall k | 0 <= k < |s.paid| :: BestFits(h, s.paid[k].snap) && s.paid[k].snap.best == Some(s.paid[k].best))
    && (forall t | 0 <= t < |s.handlers| :: DiffKnown(h, s.handlers[t]))
  }

  predicate DiffKnown(h: Hashing, w: Handler) {
    && (w.phase.Checked? ==> w.phase.diff == h.difficulty(w.sol))
    && (w.phase.Replacing? ==> w.phase.diff == h.difficulty(w.sol))
  }

  lemma RecordFits(h: Hashing, e: Hashes, uuid: Uuid, sol: Solution, sub: Submission)
    requires BestFits(h, e) && PowersFit(sub) && sub.diff == h.difficulty(sol)
    ensures BestFits(h, Record(e, uuid, sol, sub))
  {
    var e' := Record(e, uuid, sol, sub);
    assert uuid in e'.subs;
    if e.best.None? {
      assert sub.diff > e.bestDiff;
    }
  }

  lemma BestHandle(h: Hashing, s: State, t: nat, miner: Option<MinerId>)
    requires BestInv(h, s) && Enabled(h, s, Handle(t, miner))
    ensures BestInv(h, Apply(h, s, Handle(t, miner)))
  {
    var w := s.handlers[t];
    var s' := Apply(h, s, Handle(t, miner));
    assert DiffKnown(h, w);
    assert s'.submitter == s.submitter && s'.paid == s.paid;
    if w.phase.Replacing? {
      RecordFits(h, s.sh.hashes, w.uuid, w.sol, MakeSubmission(w.sol, w.phase.miner, w.phase.diff, t));
    } else {
      assert s'.sh == s.sh;
    }
    HandlersKnown(h, s, t, miner);
  }

  lemma HandlersKnown(h: Hashing, s: State, t: nat, miner: Option<MinerId>)
    requires (forall v | 0 <= v < |s.handlers| :: DiffKnown(h, s.handlers[v])) && Enabled(h, s, Handle(t, miner))
    ensures var s' := Apply(h, s, Handle(t, miner));
            forall v | 0 <= v < |s'.handlers| :: DiffKnown(h, s'.handlers[v])
  {
    var s' := Apply(h, s, Handle(t, miner));
    assert DiffKnown(h, s.handlers[t]);
    assert forall v | 0 <= v < |s.handlers| && v != t :: s'.handlers[v] == s.handlers[v];
  }

  lemma BestSubmit(h: Hashing, s: State, o: Outcome)
    requires BestInv(h, s) && SubmitEnabled(h, s, o)
    ensures BestInv(h, SubmitNext(h, s, o))
  {
    var s' := SubmitNext(h, s, o);
    assert s'.handlers == s.handlers;
    if o.Finalised? {
      assert SnapOf(s.submitter) == Some(s.submitter.snap);
      assert forall k | 0 <= k < |s.paid| :: s'.paid[k] == s.paid[k];
    } else {
      assert s'.paid == s.paid;
    }
  }

  lemma BestWatch(h: Hashing, s: State, w: nat, answer: Option<Proof>)
    requires BestInv(h, s) && Enabled(h, s, Watch(w, answer))
    ensures BestInv(h, WatchNext(s, w, answer))
  {
    var s' := WatchNext(s, w, answer);
    assert s'.handlers == s.handlers && s'.paid == s.paid && s'.submitter == s.submitter;
  }

  lemma BestStep(h: Hashing, s: State, step: Step)
    requires BestInv(h, s) && Enabled(h, s, step)
    ensures BestInv(h, Apply(h, s, step))
  {
    match step {
      case Handle(t, miner) => BestHandle(h, s, t, miner);
      case Submit(o) => BestSubmit(h, s, o);
      case Watch(w, answer) => BestWatch(h, s, w, answer);
      case Spawn(uuid, sol) =>
        assert forall t | 0 <= t < |s.handlers| :: Apply(h, s, step).handlers[t] == s.handlers[t];
      case _ =>
        var s' := Apply(h, s, step);
        assert s'.handlers == s.handlers && s'.paid == s.paid && s'.submitter == s.submitter;
        assert s'.sh.hashes == s.sh.hashes;
    }
  }

  /** In every reachable state, with no premise on how tasks interleave. */
  lemma {:induction false} BestAlwaysFits(h: Hashing, s: State, steps: seq<Step>)
    requires Initial(s) && Valid(h, s, steps)
    ensures BestInv(h, Exec(h, s, steps))
    decreases |steps|
  {
    if steps != [] {
      var before := steps[..|steps| - 1];
      BestAlwaysFits(h, s, before);
      BestStep(h, Exec(h, s, before), steps[|steps| - 1]);
    }
  }
}
