/** Which submissions a mine-success message pays, and who reopens a closed window, in every run that
    avoids one way of copying the epoch hashes. */
module EnginePaid {
  import opened Wrappers
  import opened Epoch
  import opened Engine
  import opened EngineBest
  import opened EngineRanges

  // ---------- The condition ----------

  /** The submitter is about to copy a best solution from epoch hashes that already belong to the tracked
      proof, while the proof it read itself is an older one. All of that can be read where the copy is taken. */
  predicate Overtaken(s: State) {
    s.submitter.ClosedWindow? && s.sh.hashes.best.Some? && Behind(s, s.submitter.oldProof)
  }

  /** The epoch hashes belong to the tracked proof, and `oldProof` is an older one. */
  predicate Behind(s: State, oldProof: Proof) {
    s.sh.hashes.challenge != oldProof.challenge && s.sh.hashes.challenge == s.proof.challenge
  }

  /** The copy the submitter took last was taken while it was overtaken. */
  predicate HoldsOvertaken(h: Hashing, s: State, steps: seq<Step>)
    requires Valid(h, s, steps)
    decreases |steps|
  {
    steps != [] &&
    var before := steps[..|steps| - 1];
    var t := Exec(h, s, before);
    if steps[|steps| - 1] == Submit(Advance) && t.submitter.ClosedWindow? then Overtaken(t)
    else HoldsOvertaken(h, s, before)
  }

  /** A premise on a run: no such copy is paid. */
  predicate NeverPaysOvertaken(h: Hashing, s: State, steps: seq<Step>)
    requires Valid(h, s, steps)
    decreases |steps|
  {
    steps == [] ||
    (var before := steps[..|steps| - 1];
     NeverPaysOvertaken(h, s, before) && !(steps[|steps| - 1] == Submit(Finalised) && HoldsOvertaken(h, s, before)))
  }

  /** Overtaken with the window still closed and no resetter about to open it. */
  ghost predicate Stranded(s: State) {
    Overtaken(s) && s.sh.closed && !ResetterAt(s, OPEN_WINDOW)
  }

  ghost predicate HoldsStranded(h: Hashing, s: State, steps: seq<Step>)
    requires Valid(h, s, steps)
    decreases |steps|
  {
    steps != [] &&
    var before := steps[..|steps| - 1];
    var t := Exec(h, s, before);
    if steps[|steps| - 1] == Submit(Advance) && t.submitter.ClosedWindow? then Stranded(t)
    else HoldsStranded(h, s, before)
  }

  /** A premise on a run: no copy taken in such a state is paid. */
  ghost predicate NeverPaysStranded(h: Hashing, s: State, steps: seq<Step>)
    requires Valid(h, s, steps)
    decreases |steps|
  {
    steps == [] ||
    (var before := steps[..|steps| - 1];
     NeverPaysStranded(h, s, before) && !(steps[|steps| - 1] == Submit(Finalised) && HoldsStranded(h, s, before)))
  }

  // ---------- Challenges only move forward ----------

  predicate WatcherOrdered(s: State, w: Watcher) {
    && (w.phase.Found? ==> w.phase.proof.challenge <= s.proof.challenge)
    && (w.phase.Resetting? ==> w.phase.challenge <= s.proof.challenge)
  }

  predicate SubmitterOrdered(s: State) {
    var sub := s.submitter;
    && (!sub.Idle? && !sub.Restoring? ==> sub.oldProof.challenge <= s.proof.challenge)
    && (sub.Comparing? ==> sub.latest.challenge <= s.proof.challenge && sub.oldProof.challenge < sub.latest.challenge)
    && (sub.Restoring? && sub.to.Some? ==> sub.to.value <= s.proof.challenge)
  }

  ghost predicate OrderInv(s: State) {
    && s.sh.hashes.challenge <= s.proof.challenge
    && (forall w | 0 <= w < |s.watchers| :: WatcherOrdered(s, s.watchers[w]))
    && SubmitterOrdered(s)
  }

  lemma OrderStep(h: Hashing, s: State, step: Step)
    requires OrderInv(s) && Enabled(h, s, step)
    ensures OrderInv(Apply(h, s, step))
  {
    var s' := Apply(h, s, step);
    ProofMovesForward(h, s, step);
    match step {
      case Watch(w, answer) => OrderWatch(h, s, w, answer);
      case Submit(o) => OrderSubmit(h, s, o);
      case _ =>
        assert s'.watchers == s.watchers && s'.submitter == s.submitter;
        assert s'.sh.hashes.challenge == s.sh.hashes.challenge;
    }
  }

  lemma OrderWatch(h: Hashing, s: State, w: nat, answer: Option<Proof>)
    requires OrderInv(s) && Enabled(h, s, Watch(w, answer))
    ensures OrderInv(Apply(h, s, Watch(w, answer)))
  {
    var s' := Apply(h, s, Watch(w, answer));
    ProofMovesForward(h, s, Watch(w, answer));
    assert WatcherOrdered(s, s.watchers[w]);
    assert forall v | 0 <= v < |s.watchers| && v != w :: s'.watchers[v] == s.watchers[v];
  }

  lemma OrderSubmit(h: Hashing, s: State, o: Outcome)
    requires OrderInv(s) && Enabled(h, s, Submit(o))
    ensures OrderInv(Apply(h, s, Submit(o)))
  {
    var s' := Apply(h, s, Submit(o));
    ProofMovesForward(h, s, Submit(o));
    forall v | 0 <= v < |s'.watchers|
      ensures WatcherOrdered(s', s'.watchers[v])
    {
      if v < |s.watchers| {
        assert WatcherOrdered(s, s.watchers[v]) && s'.watchers[v].phase == s.watchers[v].phase;
      }
    }
  }

  // ---------- The copy and the hashes it was taken from ----------

  /** Until the hashes are cleared, they keep the challenge they had when copied. */
  predicate CopyFollows(s: State) {
    SnapOf(s.submitter).Some? ==>
      var snap := SnapOf(s.submitter).value;
      && snap.clears <= s.sh.hashes.clears
      && (snap.clears == s.sh.hashes.clears ==> snap.challenge == s.sh.hashes.challenge)
  }

  /** A copied solution for a challenge other than the submitter's own is older than the proof it compares with. */
  predicate CopyNotAhead(s: State) {
    SnapOf(s.submitter).Some? && SnapOf(s.submitter).value.best.Some? ==>
      var snap := SnapOf(s.submitter).value;
      snap.challenge != s.submitter.oldProof.challenge ==>
        snap.challenge < (if s.submitter.Comparing? then s.submitter.latest else s.proof).challenge
  }

  /** Only a copy that holds a best solution is ever sent. */
  predicate SentHasBest(s: State) {
    SnapOf(s.submitter).Some? && !s.submitter.Attempting? ==> SnapOf(s.submitter).value.best.Some?
  }

  lemma ClearsGrow(h: Hashing, s: State, step: Step)
    requires Enabled(h, s, step)
    ensures var e, e' := s.sh.hashes, Apply(h, s, step).sh.hashes;
            && (e'.clears == if Leaves(s, step, CLEAR_HASHES) then e.clears + 1 else e.clears)
            && (e'.clears == e.clears ==> e'.challenge == e.challenge)
  {
  }

  lemma CopyFollowsStep(h: Hashing, s: State, step: Step)
    requires CopyFollows(s) && SentHasBest(s) && Enabled(h, s, step)
    ensures CopyFollows(Apply(h, s, step)) && SentHasBest(Apply(h, s, step))
  {
    ClearsGrow(h, s, step);
    CopyComesFrom(h, s, step);
  }

  lemma NotAheadStep(h: Hashing, s: State, step: Step)
    requires CopyNotAhead(s) && OrderInv(s) && Enabled(h, s, step)
    requires !(step == Submit(Advance) && Overtaken(s))
    ensures CopyNotAhead(Apply(h, s, step))
  {
    ProofMovesForward(h, s, step);
    if !step.Submit? {
      CopyComesFrom(h, s, step);
    }
  }

  lemma CopyStep(h: Hashing, s: State, step: Step)
    requires CopyFollows(s) && SentHasBest(s) && Enabled(h, s, step)
    ensures CopyFollows(Apply(h, s, step)) && SentHasBest(Apply(h, s, step))
    ensures (CopyNotAhead(s) && OrderInv(s) && !(step == Submit(Advance) && Overtaken(s)))
         ==> CopyNotAhead(Apply(h, s, step))
  {
    CopyFollowsStep(h, s, step);
    if CopyNotAhead(s) && OrderInv(s) && !(step == Submit(Advance) && Overtaken(s)) {
      NotAheadStep(h, s, step);
    }
  }

  /** The exit that finds the hashes already up to date, taken by a submitter that was not overtaken,
      finds them cleared since its copy. */
  lemma UpToDateMeansCleared(s: State)
    requires CopyFollows(s) && SentHasBest(s) && CopyNotAhead(s) && SubmitterOrdered(s)
    requires s.submitter.Comparing? && s.submitter.latest.challenge == s.sh.hashes.challenge
    ensures s.submitter.snap.clears < s.sh.hashes.clears
  {
  }

  // ---------- A closed window has someone to reopen it ----------

  predicate InIteration(sub: Submitter) {
    !sub.Idle? && !sub.GotProof? && !sub.SawBest?
  }

  predicate ClearedSinceCopy(s: State) {
    SnapOf(s.submitter).Some? && SnapOf(s.submitter).value.clears < s.sh.hashes.clears
  }

  ghost predicate WindowInv(s: State) {
    && (s.sh.closed ==> InIteration(s.submitter) || ResetterAt(s, OPEN_WINDOW))
    && (s.sh.closed && ClearedSinceCopy(s) ==> ResetterAt(s, OPEN_WINDOW))
  }

  /** Somebody is about to open a window closed over a copy that is ahead. */
  ghost predicate AheadIsOpened(s: State) {
    s.sh.closed && !CopyNotAhead(s) ==> ResetterAt(s, OPEN_WINDOW)
  }

  lemma AheadStep(h: Hashing, s: State, step: Step)
    requires AheadIsOpened(s) && OrderInv(s) && CopyFollows(s) && SentHasBest(s) && Enabled(h, s, step)
    requires !(step == Submit(Advance) && Stranded(s))
    ensures AheadIsOpened(Apply(h, s, step))
  {
    CopyStep(h, s, step);
    if Leaves(s, step, OPEN_WINDOW) {
      var c := LeavingEffect(h, s, step, OPEN_WINDOW);
    } else if Leaves(s, step, CLEAR_HASHES) {
      NextPhase(h, s, step, CLEAR_HASHES);
    } else if ResetterAt(s, OPEN_WINDOW) {
      OthersStay(h, s, step, OPEN_WINDOW);
    }
  }

  lemma WindowStep(h: Hashing, s: State, step: Step)
    requires WindowInv(s) && OrderInv(s) && CopyFollows(s) && SentHasBest(s) && Enabled(h, s, step)
    requires AfterPaying(s.submitter) ==> AheadIsOpened(s)
    ensures WindowInv(Apply(h, s, step))
  {
    var s' := Apply(h, s, step);
    ClearsGrow(h, s, step);
    if Leaves(s, step, OPEN_WINDOW) {
      var c := LeavingEffect(h, s, step, OPEN_WINDOW);
      assert !s'.sh.closed;
    } else if Leaves(s, step, CLEAR_HASHES) {
      NextPhase(h, s, step, CLEAR_HASHES);
    } else if ResetterAt(s, OPEN_WINDOW) {
      OthersStay(h, s, step, OPEN_WINDOW);
    } else if step == Submit(Advance) && s.submitter.Comparing? && s'.submitter.Idle? && s.sh.closed {
      UpToDateMeansCleared(s);
    }
  }

  // ---------- Each message pays a generation of its own ----------

  /** All messages so far pay copies of generations below this one. */
  function PaidBelow(s: State): nat {
    var now := s.sh.hashes.clears;
    match s.submitter
    case Attempting(_, snap, _) => snap.clears
    case Polling(_, snap, _, _, _) => snap.clears
    case Waiting(_, snap) => snap.clears + 1
    case AskingRpc(_, snap) => snap.clears + 1
    case Comparing(_, snap, _) => snap.clears + 1
    case Restoring(done, _) => if done <= CLEAR_HASHES then now + 1 else now
    case _ => now
  }

  predicate PaidApart(s: State) {
    && (forall i, j | 0 <= i < j < |s.paid| :: s.paid[i].snap.clears < s.paid[j].snap.clears)
    && (forall i | 0 <= i < |s.paid| :: s.paid[i].snap.clears < PaidBelow(s))
  }

  /** The submitter has paid its copy and waits for the proof to move on. */
  predicate AfterPaying(sub: Submitter) {
    sub.Waiting? || sub.AskingRpc? || sub.Comparing?
  }

  lemma PaidStep(h: Hashing, s: State, step: Step)
    requires PaidApart(s) && OrderInv(s) && CopyFollows(s) && SentHasBest(s) && Enabled(h, s, step)
    requires AfterPaying(s.submitter) ==> CopyNotAhead(s)
    ensures PaidApart(Apply(h, s, step))
  {
    var s' := Apply(h, s, step);
    CopyComesFrom(h, s, step);
    if step == Submit(Finalised) {
      assert forall i | 0 <= i < |s.paid| :: s'.paid[i] == s'.paid[..|s.paid|][i];
    } else {
      BelowGrows(h, s, step);
    }
  }

  lemma BelowGrows(h: Hashing, s: State, step: Step)
    requires OrderInv(s) && CopyFollows(s) && SentHasBest(s) && (AfterPaying(s.submitter) ==> CopyNotAhead(s))
    requires Enabled(h, s, step) && step != Submit(Finalised)
    ensures PaidBelow(s) <= PaidBelow(Apply(h, s, step))
  {
    ClearsGrow(h, s, step);
    if step == Submit(Advance) && s.submitter.Comparing? && Apply(h, s, step).submitter.Idle? {
      UpToDateMeansCleared(s);
    }
  }

  // ---------- A handler task records at most once ----------

  /** Every record of these hashes was written by its client's task in their generation. */
  predicate WrittenIn(s: State, e: Hashes) {
    forall u | u in e.subs ::
      && e.subs[u].task < |s.handlers|
      && s.handlers[e.subs[u].task].phase == Wrote(e.clears) && s.handlers[e.subs[u].task].uuid == u
  }

  ghost predicate TasksInv(s: State) {
    && WrittenIn(s, s.sh.hashes)
    && (SnapOf(s.submitter).Some? ==> WrittenIn(s, SnapOf(s.submitter).value))
    && (forall k | 0 <= k < |s.paid| :: WrittenIn(s, s.paid[k].snap))
  }

  /** A task that wrote never moves again. */
  predicate WritersKept(s: State, s': State) {
    && |s.handlers| <= |s'.handlers|
    && forall t | 0 <= t < |s.handlers| && s.handlers[t].phase.Wrote? :: s'.handlers[t] == s.handlers[t]
  }

  lemma WrittenKept(s: State, s': State, e: Hashes)
    requires WrittenIn(s, e) && WritersKept(s, s')
    ensures WrittenIn(s', e)
  {
  }

  lemma WritersKeptStep(h: Hashing, s: State, step: Step)
    requires Enabled(h, s, step)
    ensures WritersKept(s, Apply(h, s, step))
  {
  }

  lemma HashesWritten(h: Hashing, s: State, step: Step)
    requires WrittenIn(s, s.sh.hashes) && Enabled(h, s, step)
    ensures WrittenIn(Apply(h, s, step), Apply(h, s, step).sh.hashes)
  {
    WritersKeptStep(h, s, step);
    WrittenKept(s, Apply(h, s, step), s.sh.hashes);
    if !step.Handle? && !Leaves(s, step, CLEAR_HASHES) {
      SubsUntouched(h, s, step);
    }
  }

  lemma CopyWritten(h: Hashing, s: State, step: Step)
    requires TasksInv(s) && Enabled(h, s, step)
    ensures var s' := Apply(h, s, step);
            && (SnapOf(s'.submitter).Some? ==> WrittenIn(s', SnapOf(s'.submitter).value))
            && |s.paid| <= |s'.paid|
            && (forall k | 0 <= k < |s.paid| :: s'.paid[k] == s.paid[k])
            && (forall k | |s.paid| <= k < |s'.paid| :: WrittenIn(s', s'.paid[k].snap))
  {
    var s' := Apply(h, s, step);
    WritersKeptStep(h, s, step);
    if SnapOf(s.submitter).Some? {
      WrittenKept(s, s', SnapOf(s.submitter).value);
    }
    WrittenKept(s, s', s.sh.hashes);
    CopyComesFrom(h, s, step);
    assert forall k | 0 <= k < |s.paid| :: s'.paid[k] == s'.paid[..|s.paid|][k];
  }

  lemma TasksStep(h: Hashing, s: State, step: Step)
    requires TasksInv(s) && Enabled(h, s, step)
    ensures TasksInv(Apply(h, s, step))
  {
    var s' := Apply(h, s, step);
    WritersKeptStep(h, s, step);
    HashesWritten(h, s, step);
    CopyWritten(h, s, step);
    forall k | 0 <= k < |s'.paid|
      ensures WrittenIn(s', s'.paid[k].snap)
    {
      if k < |s.paid| {
        WrittenKept(s, s', s.paid[k].snap);
      }
    }
  }

  // ---------- The theorems over whole runs ----------

  /** What holds of every run, overtaken or not. */
  lemma {:induction false} AnyRun(h: Hashing, s: State, steps: seq<Step>)
    requires Initial(s) && Valid(h, s, steps)
    ensures var t := Exec(h, s, steps); OrderInv(t) && CopyFollows(t) && SentHasBest(t) && TasksInv(t)
    decreases |steps|
  {
    if steps != [] {
      var before := steps[..|steps| - 1];
      var step := steps[|steps| - 1];
      AnyRun(h, s, before);
      var t := Exec(h, s, before);
      OrderStep(h, t, step);
      CopyStep(h, t, step);
      TasksStep(h, t, step);
    }
  }

  /** A copy that was not taken overtaken is not ahead, and only such a copy has been paid. */
  predicate HoldsFit(h: Hashing, s: State, steps: seq<Step>)
    requires Valid(h, s, steps)
  {
    && (CopyNotAhead(Exec(h, s, steps)) || HoldsOvertaken(h, s, steps))
    && (AfterPaying(Exec(h, s, steps).submitter) ==> !HoldsOvertaken(h, s, steps))
  }

  lemma {:induction false} FitRun(h: Hashing, s: State, steps: seq<Step>)
    requires Initial(s) && Valid(h, s, steps) && NeverPaysOvertaken(h, s, steps)
    ensures HoldsFit(h, s, steps)
    decreases |steps|
  {
    if steps != [] {
      var before := steps[..|steps| - 1];
      var step := steps[|steps| - 1];
      FitRun(h, s, before);
      AnyRun(h, s, before);
      var t := Exec(h, s, before);
      LastStep(h, s, steps);
      AfterPayingStep(h, t, step);
      if !HoldsOvertaken(h, s, steps) {
        NotAheadStep(h, t, step);
      }
    }
  }

  lemma AfterPayingStep(h: Hashing, s: State, step: Step)
    requires Enabled(h, s, step)
    ensures AfterPaying(Apply(h, s, step).submitter) ==> AfterPaying(s.submitter) || step == Submit(Finalised)
    ensures s.submitter.ClosedWindow? ==> CopyNotAhead(s)
  {
    if !step.Submit? {
      CopyComesFrom(h, s, step);
    }
  }

  lemma {:induction false} PaidRun(h: Hashing, s: State, steps: seq<Step>)
    requires Initial(s) && Valid(h, s, steps) && NeverPaysOvertaken(h, s, steps)
    ensures PaidApart(Exec(h, s, steps))
    decreases |steps|
  {
    if steps != [] {
      var before := steps[..|steps| - 1];
      PaidRun(h, s, before);
      AnyRun(h, s, before);
      FitRun(h, s, before);
      PaidStep(h, Exec(h, s, before), steps[|steps| - 1]);
    }
  }

  ghost predicate HoldsOpened(h: Hashing, s: State, steps: seq<Step>)
    requires Valid(h, s, steps)
  {
    && (AheadIsOpened(Exec(h, s, steps)) || HoldsStranded(h, s, steps))
    && (AfterPaying(Exec(h, s, steps).submitter) ==> !HoldsStranded(h, s, steps))
  }

  lemma {:induction false} OpenedRun(h: Hashing, s: State, steps: seq<Step>)
    requires Initial(s) && Valid(h, s, steps) && NeverPaysStranded(h, s, steps)
    ensures HoldsOpened(h, s, steps)
    decreases |steps|
  {
    if steps != [] {
      var before := steps[..|steps| - 1];
      var step := steps[|steps| - 1];
      OpenedRun(h, s, before);
      AnyRun(h, s, before);
      var t := Exec(h, s, before);
      LastStep(h, s, steps);
      AfterPayingStep(h, t, step);
      if !HoldsStranded(h, s, steps) {
        AheadStep(h, t, step);
      }
    }
  }

  lemma {:induction false} WindowRun(h: Hashing, s: State, steps: seq<Step>)
    requires Initial(s) && Valid(h, s, steps) && NeverPaysStranded(h, s, steps)
    ensures WindowInv(Exec(h, s, steps))
    decreases |steps|
  {
    if steps != [] {
      var before := steps[..|steps| - 1];
      WindowRun(h, s, before);
      AnyRun(h, s, before);
      OpenedRun(h, s, before);
      WindowStep(h, Exec(h, s, before), steps[|steps| - 1]);
    }
  }

  /** Unless a copy taken stranded is paid, a closed window is never orphaned: the submitter is still in the
      iteration that closed it, or some resetter has cleared the hashes and still has the window to reopen. */
  lemma WindowNeverOrphaned(h: Hashing, s: State, steps: seq<Step>)
    requires Initial(s) && Valid(h, s, steps) && NeverPaysStranded(h, s, steps)
    ensures var t := Exec(h, s, steps);
            t.sh.closed ==> InIteration(t.submitter) || ResetterAt(t, OPEN_WINDOW)
  {
    WindowRun(h, s, steps);
  }

  /** Unless a copy taken overtaken is paid, the submissions were cleared between the copies that two messages
      pay, so what one handler task recorded is in at most one of them. */
  lemma NothingPaidTwice(h: Hashing, s: State, steps: seq<Step>)
    requires Initial(s) && Valid(h, s, steps) && NeverPaysOvertaken(h, s, steps)
    ensures var paid := Exec(h, s, steps).paid;
            && (forall i, j | 0 <= i < j < |paid| :: paid[i].snap.clears < paid[j].snap.clears)
            && (forall i, j, u, v | 0 <= i < j < |paid| && u in paid[i].snap.subs && v in paid[j].snap.subs ::
                  paid[i].snap.subs[u].task != paid[j].snap.subs[v].task)
  {
    PaidRun(h, s, steps);
    AnyRun(h, s, steps);
    var t := Exec(h, s, steps);
    forall i, j, u, v | 0 <= i < j < |t.paid| && u in t.paid[i].snap.subs && v in t.paid[j].snap.subs
      ensures t.paid[i].snap.subs[u].task != t.paid[j].snap.subs[v].task
    {
      assert WrittenIn(t, t.paid[i].snap) && WrittenIn(t, t.paid[j].snap);
      assert t.handlers[t.paid[i].snap.subs[u].task].phase == Wrote(t.paid[i].snap.clears);
      assert t.handlers[t.paid[j].snap.subs[v].task].phase == Wrote(t.paid[j].snap.clears);
    }
  }
}
