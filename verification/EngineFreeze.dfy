/** Near the deadline a pool that holds a solution hands out no more work. */
module EngineFreeze {
  import opened Wrappers
  import opened Words
  import opened Cutoff
  import opened Epoch
  import opened Engine
  import opened EngineBest
  import opened EngineRanges
  import opened EnginePaid

  /** A best solution is held and fewer than ten seconds remain, with a buffer of two. */
  predicate Frozen(s: State) {
    s.sh.hashes.best.Some? && GetCutoff(s.proof.lastHashAt, 2, s.now) < 10
  }

  /** Neither the hashes are cleared nor the proof changed anywhere along these steps. */
  predicate Undisturbed(h: Hashing, s: State, steps: seq<Step>)
    requires Valid(h, s, steps)
    decreases |steps|
  {
    var t := Exec(h, s, steps);
    && t.proof == s.proof && t.sh.hashes.clears == s.sh.hashes.clears
    && (steps == [] || Undisturbed(h, s, steps[..|steps| - 1]))
  }

  /** The dispatcher has not rested since `s`: the round it was in is still under way. */
  predicate NeverRested(h: Hashing, s: State, steps: seq<Step>)
    requires Valid(h, s, steps)
    decreases |steps|
  {
    !Exec(h, s, steps).dispatcher.Resting? && (steps == [] || NeverRested(h, s, steps[..|steps| - 1]))
  }

  predicate TakesNonces(step: Step) {
    step.TakeBlock? || step.IssueTo?
  }

  /** Only a round that was under way at `s` hands out nonces. */
  predicate OnlyOldRound(h: Hashing, s: State, steps: seq<Step>)
    requires Valid(h, s, steps)
    decreases |steps|
  {
    steps == [] ||
    (OnlyOldRound(h, s, steps[..|steps| - 1])
     && (TakesNonces(steps[|steps| - 1]) ==> NeverRested(h, s, steps[..|steps| - 1])))
  }

  lemma FrozenStep(h: Hashing, s: State, step: Step)
    requires Frozen(s) && Enabled(h, s, step)
    ensures (Apply(h, s, step).proof == s.proof && Apply(h, s, step).sh.hashes.clears == s.sh.hashes.clears)
         ==> Frozen(Apply(h, s, step))
  {
    var s' := Apply(h, s, step);
    CutoffShrinks(s.proof.lastHashAt, 2, 2, s.now, s'.now);
    ClearsGrow(h, s, step);
    if !step.Handle? && !Leaves(s, step, CLEAR_HASHES) {
      SubsUntouched(h, s, step);
    }
  }

  /** A round begun while frozen, which will be turned away, or none. */
  predicate TurnedAway(s: State) {
    s.dispatcher.Resting? || (s.dispatcher.Looked? && s.dispatcher.cutoff < 10)
  }

  lemma TurnedAwayStep(h: Hashing, s: State, step: Step)
    requires Frozen(s) && TurnedAway(s) && Enabled(h, s, step)
    ensures TurnedAway(Apply(h, s, step)) && !TakesNonces(step)
  {
  }

  lemma RestedStep(h: Hashing, s: State, step: Step)
    requires Enabled(h, s, step) && !s.dispatcher.Resting?
    ensures Apply(h, s, step).dispatcher.Resting? ==> TurnedAway(Apply(h, s, step))
  {
  }

  lemma {:induction false} FrozenRun(h: Hashing, s: State, steps: seq<Step>)
    requires Valid(h, s, steps) && Frozen(s) && Undisturbed(h, s, steps)
    ensures Frozen(Exec(h, s, steps)) && OnlyOldRound(h, s, steps)
    ensures NeverRested(h, s, steps) || TurnedAway(Exec(h, s, steps))
    decreases |steps|
  {
    if steps != [] {
      var n := |steps| - 1;
      FrozenRun(h, s, steps[..n]);
      var t := Exec(h, s, steps[..n]);
      FrozenStep(h, t, steps[n]);
      if TurnedAway(t) {
        TurnedAwayStep(h, t, steps[n]);
      } else {
        RestedStep(h, t, steps[n]);
      }
    }
  }

  lemma {:induction false} RestedTakesNone(h: Hashing, s: State, steps: seq<Step>)
    requires Valid(h, s, steps) && s.dispatcher.Resting? && OnlyOldRound(h, s, steps)
    ensures forall i | 0 <= i < |steps| :: !TakesNonces(steps[i])
    decreases |steps|
  {
    if steps != [] {
      var before := steps[..|steps| - 1];
      RestedTakesNone(h, s, before);
      RestsAtStart(h, s, before);
      assert forall i | 0 <= i < |before| :: before[i] == steps[i];
    }
  }

  lemma {:induction false} RestsAtStart(h: Hashing, s: State, steps: seq<Step>)
    requires Valid(h, s, steps) && s.dispatcher.Resting?
    ensures !NeverRested(h, s, steps)
    decreases |steps|
  {
    if steps != [] {
      RestsAtStart(h, s, steps[..|steps| - 1]);
    }
  }

  /** Once frozen, and until the hashes are cleared or the proof changes, nonces are handed out only by the
      round that was under way at the freeze, which may have looked at its guards before; so a dispatcher
      that rests at the freeze hands out none. */
  lemma DispatchFreeze(h: Hashing, s: State, steps: seq<Step>)
    requires Valid(h, s, steps) && Frozen(s) && Undisturbed(h, s, steps)
    ensures Frozen(Exec(h, s, steps)) && OnlyOldRound(h, s, steps)
    ensures s.dispatcher.Resting? ==> forall i | 0 <= i < |steps| :: !TakesNonces(steps[i])
  {
    FrozenRun(h, s, steps);
    if s.dispatcher.Resting? {
      RestedTakesNone(h, s, steps);
    }
  }

  // ---------- Which rounds under way still issue ----------

  /** A round under way at a frozen state that can get to hand out nonces: it is handing out, or has passed
      the deadline while there was time, and finds the window open or somebody about to open it. */
  ghost predicate CanStillIssue(s: State) {
    || s.dispatcher.Issuing?
    || ((s.dispatcher.Willing? || (s.dispatcher.Looked? && s.dispatcher.cutoff >= 10))
        && (!s.sh.closed || ResetterAt(s, OPEN_WINDOW)))
  }

  /** Undisturbed steps that hand out nonces. */
  predicate HandsOut(h: Hashing, s: State, steps: seq<Step>) {
    Valid(h, s, steps) && Undisturbed(h, s, steps) && exists i :: 0 <= i < |steps| && TakesNonces(steps[i])
  }

  lemma SubmitterOpens(h: Hashing, s: State, step: Step)
    requires Enabled(h, s, step) && !Leaves(s, step, CLEAR_HASHES)
    requires var sub := Apply(h, s, step).submitter; sub.Restoring? && sub.done == OPEN_WINDOW
    ensures s.submitter.Restoring? && s.submitter.done == OPEN_WINDOW
  {
    if !step.Submit? {
      CopyComesFrom(h, s, step);
    }
  }

  lemma WatcherOpens(h: Hashing, s: State, step: Step, w: nat)
    requires Enabled(h, s, step) && !Leaves(s, step, CLEAR_HASHES) && w < |Apply(h, s, step).watchers|
    requires var me := Apply(h, s, step).watchers[w]; me.phase.Resetting? && me.phase.done == OPEN_WINDOW
    ensures w < |s.watchers| && s.watchers[w].phase.Resetting? && s.watchers[w].phase.done == OPEN_WINDOW
  {
    WatchersKept(h, s, step);
    assert w < |s.watchers|;
  }

  lemma NewOpener(h: Hashing, s: State, step: Step)
    requires Enabled(h, s, step) && !Leaves(s, step, CLEAR_HASHES) && ResetterAt(Apply(h, s, step), OPEN_WINDOW)
    ensures ResetterAt(s, OPEN_WINDOW)
  {
    var s' := Apply(h, s, step);
    if s'.submitter.Restoring? && s'.submitter.done == OPEN_WINDOW {
      SubmitterOpens(h, s, step);
    } else {
      var w :| 0 <= w < |s'.watchers| && s'.watchers[w].phase.Resetting? && s'.watchers[w].phase.done == OPEN_WINDOW;
      WatcherOpens(h, s, step, w);
    }
  }

  lemma NoIssueStep(h: Hashing, s: State, step: Step)
    requires Frozen(s) && !CanStillIssue(s) && Enabled(h, s, step)
    requires Apply(h, s, step).sh.hashes.clears == s.sh.hashes.clears
    ensures !CanStillIssue(Apply(h, s, step)) && !TakesNonces(step)
  {
    ClearsGrow(h, s, step);
    if TurnedAway(s) {
      TurnedAwayStep(h, s, step);
    } else {
      var s' := Apply(h, s, step);
      WindowStaysClosed(h, s, step);
      if ResetterAt(s', OPEN_WINDOW) {
        NewOpener(h, s, step);
      }
    }
  }

  lemma WindowStaysClosed(h: Hashing, s: State, step: Step)
    requires s.sh.closed && !ResetterAt(s, OPEN_WINDOW) && Enabled(h, s, step)
    ensures Apply(h, s, step).sh.closed
  {
    assert !Leaves(s, step, OPEN_WINDOW);
  }

  lemma {:induction false} NoIssueRun(h: Hashing, s: State, steps: seq<Step>)
    requires Frozen(s) && !CanStillIssue(s) && Valid(h, s, steps) && Undisturbed(h, s, steps)
    ensures !CanStillIssue(Exec(h, s, steps)) && forall i | 0 <= i < |steps| :: !TakesNonces(steps[i])
    decreases |steps|
  {
    if steps != [] {
      var before := steps[..|steps| - 1];
      NoIssueRun(h, s, before);
      FrozenRun(h, s, before);
      LastStep(h, s, steps);
      NoIssueStep(h, Exec(h, s, before), steps[|steps| - 1]);
      assert forall i | 0 <= i < |before| :: before[i] == steps[i];
    }
  }

  /** Undisturbed steps from `s` to `t`. */
  predicate Calm(h: Hashing, s: State, steps: seq<Step>, t: State) {
    Valid(h, s, steps) && Undisturbed(h, s, steps) && Exec(h, s, steps) == t
  }

  lemma CalmNext(h: Hashing, s: State, steps: seq<Step>, t: State, step: Step) returns (longer: seq<Step>)
    requires Calm(h, s, steps, t) && Enabled(h, t, step)
    requires Apply(h, t, step).proof == s.proof && Apply(h, t, step).sh.hashes.clears == s.sh.hashes.clears
    ensures longer == steps + [step] && Calm(h, s, longer, Apply(h, t, step))
  {
    longer := Extend(h, s, steps, t, step);
    assert longer[..|longer| - 1] == steps;
  }

  /** Whoever is about to open the window does. */
  lemma OpenFirst(h: Hashing, s: State) returns (steps: seq<Step>, t: State)
    requires ResetterAt(s, OPEN_WINDOW)
    ensures Calm(h, s, steps, t) && !t.sh.closed && t.dispatcher == s.dispatcher && t.sh.nonce == s.sh.nonce
  {
    if s.submitter.Restoring? && s.submitter.done == OPEN_WINDOW {
      steps := CalmNext(h, s, [], s, Submit(Advance));
      t := Apply(h, s, Submit(Advance));
    } else {
      var w :| 0 <= w < |s.watchers| && s.watchers[w].phase.Resetting? && s.watchers[w].phase.done == OPEN_WINDOW;
      steps := CalmNext(h, s, [], s, Watch(w, None));
      t := Apply(h, s, Watch(w, None));
    }
  }

  lemma IssueNext(h: Hashing, s: State, steps: seq<Step>, t: State) returns (longer: seq<Step>)
    requires Calm(h, s, steps, t) && t.dispatcher.Issuing? && t.sh.nonce + NONCE_RANGE_SIZE <= U64_MAX
    ensures HandsOut(h, s, longer)
  {
    longer := CalmNext(h, s, steps, t, IssueTo(0));
    assert TakesNonces(longer[|steps|]);
  }

  /** With the window open, the round goes on to hand out. */
  lemma RoundIssues(h: Hashing, s: State, steps: seq<Step>, t: State) returns (longer: seq<Step>)
    requires Calm(h, s, steps, t) && !t.sh.closed && t.sh.nonce + NONCE_RANGE_SIZE <= U64_MAX
    requires t.dispatcher.Willing? || (t.dispatcher.Looked? && t.dispatcher.cutoff >= 10)
    ensures HandsOut(h, s, longer)
  {
    var k1, t1 := steps, t;
    if t.dispatcher.Looked? {
      k1 := CalmNext(h, s, steps, t, LookAtBest);
      t1 := Apply(h, t, LookAtBest);
    }
    var k2 := CalmNext(h, s, k1, t1, BeginBatch);
    longer := IssueNext(h, s, k2, Apply(h, t1, BeginBatch));
  }

  lemma CanIssueDoes(h: Hashing, s: State) returns (steps: seq<Step>)
    requires CanStillIssue(s) && s.sh.nonce + NONCE_RANGE_SIZE <= U64_MAX
    ensures HandsOut(h, s, steps)
  {
    if s.dispatcher.Issuing? {
      steps := IssueNext(h, s, [], s);
    } else if !s.sh.closed {
      steps := RoundIssues(h, s, [], s);
    } else {
      var k, t := OpenFirst(h, s);
      steps := RoundIssues(h, s, k, t);
    }
  }

  /** In any frozen state whose counter has room: nonces can be handed out before the hashes are cleared or
      the proof changes if and only if the round under way is handing out, or found time left before the
      freeze and the window is open or about to be opened. */
  lemma IssuesFrozenExactly(h: Hashing, s: State)
    requires Frozen(s) && s.sh.nonce + NONCE_RANGE_SIZE <= U64_MAX
    ensures (exists steps :: HandsOut(h, s, steps)) <==> CanStillIssue(s)
  {
    if CanStillIssue(s) {
      var steps := CanIssueDoes(h, s);
      assert HandsOut(h, s, steps);
    } else {
      forall steps | Valid(h, s, steps) && Undisturbed(h, s, steps)
        ensures !HandsOut(h, s, steps)
      {
        NoIssueRun(h, s, steps);
      }
    }
  }

  /** Both guards in seconds, for every clock reading and proof time an i64 holds with a minute to spare: the
      window may be closed exactly when a best solution is held and the proof read is 59 seconds old, and work
      may be handed out exactly when the window is open and no best is held or the proof is at most 48 old. */
  lemma GuardsInSeconds(h: Hashing, s: State)
    requires 0 <= s.now <= I64_MAX - 60 && 0 <= s.proof.lastHashAt <= I64_MAX - 60
    ensures MayDispatch(s)
       <==> !s.sh.closed && (s.sh.hashes.best.None? || s.now - s.proof.lastHashAt <= 48)
    ensures s.submitter.GotProof? && 0 <= s.submitter.oldProof.lastHashAt <= I64_MAX - 60
       ==> (SubmitterAdvance(s).submitter.SawBest?
            <==> s.sh.hashes.best.Some? && s.now - s.submitter.oldProof.lastHashAt >= 59)
    ensures s.dispatcher == Looked(GetCutoff(s.proof.lastHashAt, 2, s.now))
       ==> (Apply(h, s, LookAtBest).dispatcher.Willing?
            <==> s.sh.hashes.best.None? || s.now - s.proof.lastHashAt <= 48)
  {
  }

  /** When the submitter's guard for closing the window passes, the dispatcher's passes with it exactly if
      the window is open and the tracked proof has ten seconds left. That takes a proof newer than the one
      the submitter read; on that same proof the two guards never pass together. */
  lemma CloseExcludesDispatch(s: State)
    requires s.submitter.GotProof? && SubmitterAdvance(s).submitter.SawBest?
    ensures MayDispatch(s) <==> !s.sh.closed && GetCutoff(s.proof.lastHashAt, 2, s.now) >= 10
    ensures MayDispatch(s) ==> s.proof.lastHashAt > s.submitter.oldProof.lastHashAt
    ensures s.proof == s.submitter.oldProof ==> Frozen(s)
  {
    var read := s.submitter.oldProof;
    CutoffShrinks(read.lastHashAt, 1, 2, s.now, s.now);
    if s.proof.lastHashAt <= read.lastHashAt {
      OlderProofNoLater(s.proof.lastHashAt, read.lastHashAt, 2, s.now);
    }
  }
}
