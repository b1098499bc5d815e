/** The condition of EnginePaid is exact: a submitter that copied the hashes after being overtaken can
    pay them and leave them uncleared, and can leave the window closed with nobody to reopen it. */
module EngineExact {
  import opened Wrappers
  import opened Epoch
  import opened Engine
  import opened EngineBest
  import opened EngineRanges
  import opened EnginePaid

  /** The submitter does not leave the iteration it is in at `s`. */
  predicate SameIteration(h: Hashing, s: State, steps: seq<Step>)
    requires Valid(h, s, steps)
    decreases |steps|
  {
    steps == [] || (SameIteration(h, s, steps[..|steps| - 1]) && InIteration(Exec(h, s, steps).submitter))
  }

  /** The submitter stands at the exit that finds the hashes up to date, having paid its copy. */
  predicate AtUpToDateExit(s: State, t: State) {
    && t.submitter.Comparing? && t.submitter.latest.challenge == t.sh.hashes.challenge
    && |t.paid| > |s.paid| && SnapOf(s.submitter) == Some(t.paid[|t.paid| - 1].snap)
  }

  /** This continuation pays the copy and leaves the iteration with the submissions still there. */
  predicate LeavesUncleared(h: Hashing, s: State, steps: seq<Step>) {
    Valid(h, s, steps) && SameIteration(h, s, steps) &&
    var t := Exec(h, s, steps);
    AtUpToDateExit(s, t) && t.sh.hashes.clears == s.sh.hashes.clears
  }

  /** This continuation leaves the iteration with the window closed and no resetter to reopen it. */
  ghost predicate LeavesOrphan(h: Hashing, s: State, steps: seq<Step>) {
    Valid(h, s, steps) && SameIteration(h, s, steps) &&
    var t := Exec(h, s, steps);
    AtUpToDateExit(s, t) && t.sh.closed && !ResetterAt(t, OPEN_WINDOW)
  }

  /** The submitter has just taken its copy, and the chain would accept the best solution in it. */
  predicate JustCopied(h: Hashing, s: State) {
    && s.submitter.Attempting? && s.submitter.attempt == 0
    && s.submitter.snap == s.sh.hashes && s.submitter.snap.best.Some?
    && |s.chain| > 0 && h.valid(s.submitter.snap.best.value, Tip(s).challenge)
  }

  // ---------- What a continuation keeps ----------

  ghost predicate Since(s: State, t: State)
    requires s.submitter.Attempting?
  {
    && s.proof.challenge <= t.proof.challenge
    && s.sh.hashes.clears <= t.sh.hashes.clears
    && (t.sh.hashes.clears == s.sh.hashes.clears ==> t.sh.hashes.challenge == s.sh.hashes.challenge)
    && !t.submitter.ClosedWindow?
    && (SnapOf(t.submitter).Some? ==> t.submitter.oldProof == s.submitter.oldProof)
    && (t.submitter.Comparing? ==>
          t.submitter.oldProof.challenge != t.submitter.latest.challenge
          && s.proof.challenge <= t.submitter.latest.challenge)
    && (t.sh.closed ==> s.sh.closed)
    && (t.sh.closed ==> t.sh.hashes.clears > s.sh.hashes.clears || ResetterAt(s, OPEN_WINDOW) ==>
          ResetterAt(t, OPEN_WINDOW))
  }

  lemma SinceStep(h: Hashing, s: State, t: State, step: Step)
    requires s.submitter.Attempting? && Since(s, t) && InIteration(t.submitter) && Enabled(h, t, step)
    requires InIteration(Apply(h, t, step).submitter)
    ensures Since(s, Apply(h, t, step))
  {
    var t' := Apply(h, t, step);
    ClearsGrow(h, t, step);
    ProofMovesForward(h, t, step);
    SubmitterStays(h, s, t, step);
    WindowSince(h, s, t, step);
  }

  lemma SubmitterStays(h: Hashing, s: State, t: State, step: Step)
    requires s.submitter.Attempting? && Since(s, t) && InIteration(t.submitter) && Enabled(h, t, step)
    requires InIteration(Apply(h, t, step).submitter)
    ensures var t' := Apply(h, t, step);
            && !t'.submitter.ClosedWindow?
            && (SnapOf(t'.submitter).Some? ==> t'.submitter.oldProof == s.submitter.oldProof)
            && (t'.submitter.Comparing? ==>
                  t'.submitter.oldProof.challenge != t'.submitter.latest.challenge
                  && s.proof.challenge <= t'.submitter.latest.challenge)
  {
  }

  lemma WindowSince(h: Hashing, s: State, t: State, step: Step)
    requires s.submitter.Attempting? && Since(s, t) && InIteration(t.submitter) && Enabled(h, t, step)
    requires InIteration(Apply(h, t, step).submitter)
    ensures var t' := Apply(h, t, step);
            && (t'.sh.closed ==> s.sh.closed)
            && (t'.sh.closed ==> t'.sh.hashes.clears > s.sh.hashes.clears || ResetterAt(s, OPEN_WINDOW) ==>
                  ResetterAt(t', OPEN_WINDOW))
  {
    ClearsGrow(h, t, step);
    if Leaves(t, step, OPEN_WINDOW) {
      var c := LeavingEffect(h, t, step, OPEN_WINDOW);
    } else if Leaves(t, step, CLEAR_HASHES) {
      NextPhase(h, t, step, CLEAR_HASHES);
    } else if ResetterAt(t, OPEN_WINDOW) {
      OthersStay(h, t, step, OPEN_WINDOW);
    }
  }

  lemma {:induction false} SinceRun(h: Hashing, s: State, steps: seq<Step>)
    requires s.submitter.Attempting? && Valid(h, s, steps) && SameIteration(h, s, steps)
    ensures Since(s, Exec(h, s, steps)) && InIteration(Exec(h, s, steps).submitter)
    decreases |steps|
  {
    if steps != [] {
      var before := steps[..|steps| - 1];
      SinceRun(h, s, before);
      SinceStep(h, s, Exec(h, s, before), steps[|steps| - 1]);
    }
  }

  // ---------- The continuation an overtaken submitter can take ----------

  /** Send, land, finalise, read the proof: nothing else moves. */
  function PayAndCompare(s: State): seq<Step> {
    [Submit(Send), Land(|s.txs|, 0), Submit(Finalised), Submit(Advance)]
  }

  lemma PayAndCompareRuns(h: Hashing, s: State)
    requires JustCopied(h, s) && Behind(s, s.submitter.oldProof)
    ensures var steps := PayAndCompare(s);
            Valid(h, s, steps) && SameIteration(h, s, steps) &&
            var t := Exec(h, s, steps);
            && AtUpToDateExit(s, t) && t.sh == s.sh && |t.watchers| == |s.watchers| + 1
            && t.watchers[..|s.watchers|] == s.watchers && t.watchers[|s.watchers|].phase.LoopTop?
  {
    var steps := PayAndCompare(s);
    var s2 := SendAndLand(h, s);
    Stay(h, s, steps[..2], steps[..3]);
    Stay(h, s, steps[..3], steps[..4]);
    assert steps[..4] == steps;
  }

  /** One more step of the same iteration. */
  lemma Stay(h: Hashing, s: State, steps: seq<Step>, longer: seq<Step>)
    requires |longer| == |steps| + 1 && longer[..|steps|] == steps
    requires Valid(h, s, steps) && SameIteration(h, s, steps) && Enabled(h, Exec(h, s, steps), longer[|steps|])
    requires InIteration(Apply(h, Exec(h, s, steps), longer[|steps|]).submitter)
    ensures Valid(h, s, longer) && SameIteration(h, s, longer)
    ensures Exec(h, s, longer) == Apply(h, Exec(h, s, steps), longer[|steps|])
  {
    ExecNext(h, s, steps, longer);
    assert longer[..|longer| - 1] == steps;
  }

  lemma SendAndLand(h: Hashing, s: State) returns (t: State)
    requires JustCopied(h, s)
    ensures var steps := PayAndCompare(s)[..2];
            Valid(h, s, steps) && SameIteration(h, s, steps) && t == Exec(h, s, steps)
    ensures t == s.(txs := s.txs + [Tx(s.submitter.snap.best.value, true)], chain := s.chain + [Proof(|s.chain|, 0)],
                    watchers := s.watchers + [Watcher(s.submitter.oldProof, false, LoopTop)],
                    submitter := Polling(s.submitter.oldProof, s.submitter.snap, 0, |s.txs|, |s.watchers|))
  {
    var steps := PayAndCompare(s);
    assert steps[..0] == [];
    Stay(h, s, steps[..0], steps[..1]);
    var s1 := Exec(h, s, steps[..1]);
    assert s1.txs[|s.txs|] == Tx(s.submitter.snap.best.value, false);
    Stay(h, s, steps[..1], steps[..2]);
    t := Exec(h, s, steps[..2]);
    assert t.txs == s.txs + [Tx(s.submitter.snap.best.value, true)];
  }

  // ---------- Exactness ----------

  /** In every reachable state where a copy the chain would accept has just been taken: some continuation
      pays it and leaves the submissions uncleared exactly when the submitter was overtaken. */
  lemma UnclearedExactlyWhenOvertaken(h: Hashing, s0: State, run: seq<Step>, s: State)
    requires Initial(s0) && Valid(h, s0, run) && s == Exec(h, s0, run) && JustCopied(h, s)
    ensures (exists steps :: LeavesUncleared(h, s, steps)) <==> Behind(s, s.submitter.oldProof)
  {
    AnyRun(h, s0, run);
    if Behind(s, s.submitter.oldProof) {
      PayAndCompareRuns(h, s);
      assert LeavesUncleared(h, s, PayAndCompare(s));
    }
    if exists steps :: LeavesUncleared(h, s, steps) {
      var steps :| LeavesUncleared(h, s, steps);
      SinceRun(h, s, steps);
    }
  }

  lemma OvertakenCanOrphan(h: Hashing, s: State)
    requires JustCopied(h, s) && Behind(s, s.submitter.oldProof) && s.sh.closed && !ResetterAt(s, OPEN_WINDOW)
    ensures LeavesOrphan(h, s, PayAndCompare(s))
  {
    PayAndCompareRuns(h, s);
    var t := Exec(h, s, PayAndCompare(s));
    assert forall w | 0 <= w < |s.watchers| :: t.watchers[w] == t.watchers[..|s.watchers|][w];
  }

  lemma OnlyOvertakenOrphans(h: Hashing, s: State, steps: seq<Step>)
    requires JustCopied(h, s) && OrderInv(s) && LeavesOrphan(h, s, steps)
    ensures Behind(s, s.submitter.oldProof) && s.sh.closed && !ResetterAt(s, OPEN_WINDOW)
  {
    SinceRun(h, s, steps);
  }

  /** Likewise for the window: it can be left closed with nobody to reopen it exactly when the submitter
      was overtaken, and its window was still closed with no resetter about to open it. */
  lemma OrphanedExactlyWhenOvertaken(h: Hashing, s0: State, run: seq<Step>, s: State)
    requires Initial(s0) && Valid(h, s0, run) && s == Exec(h, s0, run) && JustCopied(h, s)
    ensures (exists steps :: LeavesOrphan(h, s, steps))
       <==> Behind(s, s.submitter.oldProof) && s.sh.closed && !ResetterAt(s, OPEN_WINDOW)
  {
    AnyRun(h, s0, run);
    if Behind(s, s.submitter.oldProof) && s.sh.closed && !ResetterAt(s, OPEN_WINDOW) {
      OvertakenCanOrphan(h, s);
    }
    if exists steps :: LeavesOrphan(h, s, steps) {
      var steps :| LeavesOrphan(h, s, steps);
      OnlyOvertakenOrphans(h, s, steps);
    }
  }
}
