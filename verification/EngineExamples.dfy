/** Concrete runs of the engine, every step enabled: what goes wrong when a premise is dropped. */
module EngineExamples {
  import opened Wrappers
  import opened Epoch
  import opened Engine
  import opened EngineRanges
  import opened EngineCoarse
  import opened EngineOwned
  import opened EnginePaid
  import opened EngineMax
  import opened EngineFreeze

  /** A toy hash: a solution's digest names the one challenge it answers; odd nonces are harder. */
  function ToyHash(): Hashing {
    Hashing((sol: Solution, c: Challenge) => sol.digest == c, (sol: Solution) => 12 + sol.nonce % 2)
  }

  const P0 := Proof(0, 0)
  const P1 := Proof(1, 100)
  const P2 := Proof(2, 100)

  function Fresh(): State {
    State(0, [P0], P0, None, Shared(0, map[], Hashes(0, None, 0, map[], 0), false),
          Resting, [], Idle, [], [], [], [])
  }

  /** A client's record of difficulty 12 or 13. */
  function Rec(miner: MinerId, sol: Solution, task: nat): Submission {
    MakeSubmission(sol, miner, ToyHash().difficulty(sol), task)
  }

  // ---------- A run, one coarse step at a time ----------

  ghost predicate Reaches(cs: seq<Coarse>, s: State) {
    CoarseValid(ToyHash(), Fresh(), cs) && CoarseExec(ToyHash(), Fresh(), cs) == s
  }

  lemma Go(cs: seq<Coarse>, s: State, c: Coarse) returns (cs': seq<Coarse>, s': State)
    requires Reaches(cs, s) && CoarseEnabled(ToyHash(), s, c)
    ensures s' == CoarseApply(ToyHash(), s, c) && Reaches(cs', s')
  {
    cs' := cs + [c];
    assert cs'[..|cs'| - 1] == cs;
    s' := CoarseApply(ToyHash(), s, c);
  }

  lemma GoFine(cs: seq<Coarse>, s: State, step: Step) returns (cs': seq<Coarse>, s': State)
    requires Reaches(cs, s) && !step.Spawn? && !step.Handle? && Enabled(ToyHash(), s, step)
    ensures s' == Apply(ToyHash(), s, step) && Reaches(cs', s')
  {
    cs', s' := Go(cs, s, Fine(step));
  }

  /** The dispatcher finds every guard open. */
  lemma Begin(cs: seq<Coarse>, s: State) returns (cs': seq<Coarse>, s': State)
    requires Reaches(cs, s) && s.dispatcher.Resting? && MayDispatch(s)
    ensures Reaches(cs', s') && s' == s.(dispatcher := Issuing)
  {
    var c1, s1 := GoFine(cs, s, LookAtProof);
    var c2, s2 := GoFine(c1, s1, LookAtBest);
    cs', s' := GoFine(c2, s2, BeginBatch);
  }

  /** One client is handed the next block and its solution is recorded. */
  lemma WorkAndAccept(cs: seq<Coarse>, s: State, uuid: Uuid, sol: Solution, miner: MinerId)
    returns (cs': seq<Coarse>, s': State)
    requires Reaches(cs, s) && s.dispatcher.Resting? && MayDispatch(s)
    requires s.sh.nonce <= 1_000_000_000 && Contains(NextRange(s.sh.nonce), sol.nonce)
    requires sol.digest == s.proof.challenge && uuid !in s.sh.hashes.subs
    ensures Reaches(cs', s')
    ensures s' == s.(sh := Issue(s.sh, uuid).(hashes := Record(s.sh.hashes, uuid, sol, Rec(miner, sol, |s.handlers|))),
                     handlers := s.handlers + [Handler(uuid, sol, Wrote(s.sh.hashes.clears))])
  {
    var c1, s1 := Begin(cs, s);
    var c2, s2 := GoFine(c1, s1, IssueTo(uuid));
    var c3, s3 := GoFine(c2, s2, EndBatch);
    var rs := s3.sh.ranges[uuid];
    assert rs[|rs| - 1] == NextRange(s.sh.nonce);
    assert InRanges(rs, sol.nonce);
    assert Judge(ToyHash(), s3.sh, s3.proof.challenge, uuid, sol, Some(miner)) == Recorded;
    cs', s' := Go(c3, s3, Accept(uuid, sol, Some(miner)));
  }

  lemma Advance4(cs: seq<Coarse>, s: State, to: Option<Challenge>) returns (cs': seq<Coarse>, s': State)
    requires Reaches(cs, s) && s.submitter == Restoring(0, to)
    ensures Reaches(cs', s')
    ensures s' == s.(submitter := Idle, sh := Shared(0, map[], ClearHashes(s.sh.hashes, to), false))
  {
    var c1, s1 := GoFine(cs, s, Submit(Advance));
    var c2, s2 := GoFine(c1, s1, Submit(Advance));
    var c3, s3 := GoFine(c2, s2, Submit(Advance));
    cs', s' := GoFine(c3, s3, Submit(Advance));
  }

  /** From the loop head to the point where the submitter has seen a best solution past its deadline. */
  lemma SeeBest(cs: seq<Coarse>, s: State) returns (cs': seq<Coarse>, s': State)
    requires Reaches(cs, s) && s.submitter.Idle? && s.sh.hashes.best.Some?
    requires s.proof.lastHashAt == s.now - 100 && 0 <= s.now <= 1000
    ensures Reaches(cs', s') && s' == s.(submitter := SawBest(s.proof))
  {
    var c1, s1 := GoFine(cs, s, Submit(Advance));
    cs', s' := GoFine(c1, s1, Submit(Advance));
  }

  lemma CloseAndCopy(cs: seq<Coarse>, s: State) returns (cs': seq<Coarse>, s': State)
    requires Reaches(cs, s) && s.submitter.SawBest?
    ensures Reaches(cs', s')
    ensures s' == s.(submitter := Attempting(s.submitter.oldProof, s.sh.hashes, 0), sh := s.sh.(closed := true))
  {
    var c1, s1 := GoFine(cs, s, Submit(Advance));
    cs', s' := GoFine(c1, s1, Submit(Advance));
  }

  // ---------- How a submitter comes to be overtaken ----------

  const A0 := Solution(2, 0)
  const A1 := Solution(4, 0)
  const A2 := Solution(2, 1)
  const B := Solution(40_000_001, 2)

  /** A transaction landed but was not seen finalised, so its attempt was given up; its watcher had already
      looked for the stop message, and a new solution for the challenge the server still tracks was found. */
  function LateWatcher(): State {
    State(100, [P0, P1], P0, None,
          Shared(NONCE_RANGE_SIZE, map[1 := [NextRange(0)]],
                 Hashes(0, Some(A1), 12, map[1 := Rec(7, A1, 1)], 1), false),
          Resting, [Handler(1, A0, Wrote(0)), Handler(1, A1, Wrote(1))], SawBest(P0),
          [Watcher(P0, true, Unstopped)], [Tx(A0, true)], [], [])
  }

  function FirstRecord(): State {
    Fresh().(now := 100, handlers := [Handler(1, A0, Wrote(0))],
             sh := Shared(NONCE_RANGE_SIZE, map[1 := [NextRange(0)]],
                          Hashes(0, Some(A0), 12, map[1 := Rec(7, A0, 0)], 0), false))
  }

  function GivenUp(): State {
    FirstRecord().(chain := [P0, P1], watchers := [Watcher(P0, true, Unstopped)], txs := [Tx(A0, true)],
                   sh := Shared(0, map[], Hashes(0, None, 0, map[], 1), false))
  }

  lemma FirstIssue(sh: Shared, uuid: Uuid)
    requires sh.nonce == 0 && sh.ranges == map[]
    ensures Issue(sh, uuid) == sh.(nonce := NONCE_RANGE_SIZE, ranges := map[uuid := [NextRange(0)]])
  {
    assert [] + [NextRange(0)] == [NextRange(0)];
  }

  lemma FirstRecordNext()
    ensures var s := Fresh();
            FirstRecord().(now := 0)
              == s.(sh := Issue(s.sh, 1).(hashes := Record(s.sh.hashes, 1, A0, Rec(7, A0, 0))),
                    handlers := [Handler(1, A0, Wrote(0))])
  {
    FirstIssue(Fresh().sh, 1);
  }

  lemma ReachFirstRecord() returns (cs: seq<Coarse>)
    ensures Reaches(cs, FirstRecord())
  {
    var c1, s1 := WorkAndAccept([], Fresh(), 1, A0, 7);
    FirstRecordNext();
    assert s1 == FirstRecord().(now := 0);
    var c2, s2 := GoFine(c1, s1, Tick(100));
    cs := c2;
  }

  lemma ReachGivenUp() returns (cs: seq<Coarse>)
    ensures Reaches(cs, GivenUp())
  {
    var c1 := ReachFirstRecord();
    var c2, s2 := SeeBest(c1, FirstRecord());
    var c3, s3 := CloseAndCopy(c2, s2);
    var c4, s4 := SendAndGiveUp(c3, s3);
    var c5, s5 := Advance4(c4, s4, None);
    assert s5 == GivenUp();
    cs := c5;
  }

  /** As LateWatcher, before the submitter looks at its guard. */
  function Looking(): State {
    LateWatcher().(submitter := GotProof(P0))
  }

  lemma LookingNext()
    ensures var s := GivenUp();
            Looking().(submitter := Idle)
              == s.(sh := Issue(s.sh, 1).(hashes := Record(s.sh.hashes, 1, A1, Rec(7, A1, 1))),
                    handlers := s.handlers + [Handler(1, A1, Wrote(1))])
  {
    FirstIssue(GivenUp().sh, 1);
  }

  lemma ReachLooking() returns (cs: seq<Coarse>)
    ensures Reaches(cs, Looking())
  {
    var c1 := ReachGivenUp();
    var c2, s2 := WorkAndAccept(c1, GivenUp(), 1, A1, 7);
    LookingNext();
    assert s2 == Looking().(submitter := Idle);
    var c3, s3 := GoFine(c2, s2, Submit(Advance));
    cs := c3;
  }

  lemma ReachLateWatcher() returns (cs: seq<Coarse>)
    ensures Reaches(cs, LateWatcher())
  {
    var c1 := ReachLooking();
    var c2, s2 := GoFine(c1, Looking(), Submit(Advance));
    assert s2 == LateWatcher();
    cs := c2;
  }

  /** The two guards can pass together: a proof that arrives after the submitter read its own leaves it free
      to close the window and the dispatcher free to begin a batch. */
  lemma GuardsPassTogether() returns (steps: seq<Step>)
    ensures Initial(Fresh()) && Valid(ToyHash(), Fresh(), steps)
    ensures var t := Exec(ToyHash(), Fresh(), steps);
            t.submitter.GotProof? && SubmitterAdvance(t).submitter.SawBest? && MayDispatch(t)
  {
    var c1 := ReachLooking();
    var c2, s2 := GoFine(c1, Looking(), Notify(P1));
    steps := CoarseRunIsFine(ToyHash(), Fresh(), c2);
  }

  lemma SendAndGiveUp(cs: seq<Coarse>, s: State) returns (cs': seq<Coarse>, s': State)
    requires Reaches(cs, s) && s.submitter.Attempting? && s.submitter.attempt == 0
    requires s.submitter.snap.best == Some(A0) && s.submitter.oldProof == P0
    requires s.txs == [] && s.watchers == [] && s.chain == [P0]
    ensures Reaches(cs', s')
    ensures s' == s.(submitter := Restoring(0, None), chain := [P0, P1],
                     watchers := [Watcher(P0, true, Unstopped)], txs := [Tx(A0, true)])
  {
    var c1, s1 := GoFine(cs, s, Submit(Send));
    var c2, s2 := GoFine(c1, s1, Land(0, 100));
    var c3, s3 := GoFine(c2, s2, Watch(0, None));
    var c4, s4 := GoFine(c3, s3, Submit(Failed));
    cs', s' := GoFine(c4, s4, Submit(GiveUp(false)));
  }

  /** The late watcher finds the new proof and resets; a client is handed work for it and is recorded. */
  function Refilled(sub: Submitter): State {
    State(100, [P0, P1], P1, Some(0),
          Shared(NONCE_RANGE_SIZE, map[1 := [NextRange(0)]],
                 Hashes(1, Some(A2), 12, map[1 := Rec(7, A2, 2)], 2), false),
          Resting, [Handler(1, A0, Wrote(0)), Handler(1, A1, Wrote(1)), Handler(1, A2, Wrote(2))], sub,
          [Watcher(P0, true, Finished)], [Tx(A0, true)], [], [])
  }

  /** The state between the late watcher's reset and the next record. */
  function Emptied(sub: Submitter): State {
    State(100, [P0, P1], P1, Some(0), Shared(0, map[], Hashes(1, None, 0, map[], 2), false), Resting,
          [Handler(1, A0, Wrote(0)), Handler(1, A1, Wrote(1))], sub,
          [Watcher(P0, true, Finished)], [Tx(A0, true)], [], [])
  }

  lemma RefilledNext(sub: Submitter)
    ensures var s := Emptied(sub);
            Refilled(sub) == s.(sh := Issue(s.sh, 1).(hashes := Record(s.sh.hashes, 1, A2, Rec(7, A2, 2))),
                                handlers := s.handlers + [Handler(1, A2, Wrote(2))])
  {
    FirstIssue(Emptied(sub).sh, 1);
  }

  lemma Refill(cs: seq<Coarse>, s: State) returns (cs': seq<Coarse>)
    requires Reaches(cs, s)
    requires s == LateWatcher()
             || s == LateWatcher().(submitter := ClosedWindow(P0), sh := LateWatcher().sh.(closed := true))
    ensures Reaches(cs', Refilled(s.submitter))
  {
    var c1, s1 := WatcherReset(cs, s);
    assert s1 == Emptied(s.submitter);
    var c2, s2 := WorkAndAccept(c1, s1, 1, A2, 7);
    RefilledNext(s.submitter);
    cs' := c2;
  }

  lemma WatcherReset(cs: seq<Coarse>, s: State) returns (cs': seq<Coarse>, s': State)
    requires Reaches(cs, s) && s.watchers == [Watcher(P0, true, Unstopped)] && s.proof == P0 && s.chain == [P0, P1]
    ensures Reaches(cs', s')
    ensures s' == s.(proof := P1, last := Some(0), watchers := [Watcher(P0, true, Finished)],
                     sh := Shared(0, map[], ClearHashes(s.sh.hashes, Some(1)), false))
  {
    var c1, s1 := GoFine(cs, s, Watch(0, None));
    var c2, s2 := GoFine(c1, s1, Watch(0, Some(P1)));
    var c3, s3 := GoFine(c2, s2, Watch(0, None));
    assert s3.watchers == [Watcher(P0, true, Resetting(0, 1))];
    cs', s' := WatcherResets(c3, s3);
  }

  lemma WatcherResets(cs: seq<Coarse>, s: State) returns (cs': seq<Coarse>, s': State)
    requires Reaches(cs, s) && s.watchers == [Watcher(P0, true, Resetting(0, 1))]
    ensures Reaches(cs', s')
    ensures s' == s.(watchers := [Watcher(P0, true, Finished)],
                     sh := Shared(0, map[], ClearHashes(s.sh.hashes, Some(1)), false))
  {
    var c1, s1 := GoFine(cs, s, Watch(0, None));
    var c2, s2 := GoFine(c1, s1, Watch(0, None));
    var c3, s3 := GoFine(c2, s2, Watch(0, None));
    cs', s' := GoFine(c3, s3, Watch(0, None));
  }

  // ---------- One submission paid twice ----------

  /** The overtaken submitter pays its copy and leaves through the exit that finds nothing to clear. */
  lemma PayFirst(cs: seq<Coarse>) returns (cs': seq<Coarse>, s': State)
    requires Reaches(cs, Refilled(ClosedWindow(P0)))
    ensures Reaches(cs', s')
    ensures var r := Refilled(Idle);
            s' == r.(chain := [P0, P1, P2], watchers := r.watchers + [Watcher(P0, true, LoopTop)],
                     txs := r.txs + [Tx(A2, true)], paid := [Payment(0, A2, r.sh.hashes)])
  {
    var r := Refilled(ClosedWindow(P0));
    var c0, s0 := GoFine(cs, r, Submit(Advance));
    cs', s' := PayAndLeave(c0, s0);
  }

  /** Send, land, finalise, find a newer proof, find the hashes up to date. */
  lemma PayAndLeave(cs: seq<Coarse>, s: State) returns (cs': seq<Coarse>, s': State)
    requires Reaches(cs, s) && s.submitter == Attempting(P0, s.sh.hashes, 0) && s.sh.hashes.best == Some(A2)
    requires s.proof == P1 && s.chain == [P0, P1] && s.sh.hashes.challenge == 1 && |s.txs| == 1 && |s.watchers| == 1
    ensures Reaches(cs', s')
    ensures s' == s.(chain := [P0, P1, P2], watchers := s.watchers + [Watcher(P0, true, LoopTop)],
                     txs := s.txs + [Tx(A2, true)], paid := s.paid + [Payment(0, A2, s.sh.hashes)], submitter := Idle)
  {
    var c1, s1 := GoFine(cs, s, Submit(Send));
    var c2, s2 := GoFine(c1, s1, Land(1, 100));
    assert s2.txs == s.txs + [Tx(A2, true)];
    var c3, s3 := GoFine(c2, s2, Submit(Finalised));
    assert s3.watchers == s.watchers + [Watcher(P0, true, LoopTop)];
    var c4, s4 := GoFine(c3, s3, Submit(Advance));
    cs', s' := GoFine(c4, s4, Submit(Advance));
  }

  /** The next challenge brings a harder solution; everything recorded before stays. */
  lemma RecordHarder(cs: seq<Coarse>, s: State) returns (cs': seq<Coarse>, s': State)
    requires Reaches(cs, s) && s.submitter.Idle? && s.dispatcher.Resting? && s.now == 100
    requires s.chain == [P0, P1, P2] && s.last == Some(0) && s.proof == P1
    requires !s.sh.closed && s.sh.nonce == NONCE_RANGE_SIZE
    requires s.sh.hashes.best.Some? && s.sh.hashes.bestDiff == 12 && 2 !in s.sh.hashes.subs && 2 !in s.sh.ranges
    ensures Reaches(cs', s') && s'.proof == P2 && s'.sh.hashes.best == Some(B)
    ensures s'.sh.hashes.subs == s.sh.hashes.subs[2 := Rec(8, B, |s.handlers|)]
    ensures s'.submitter.Idle? && s'.now == 100 && s'.chain == s.chain && s'.txs == s.txs
    ensures s'.watchers == s.watchers && s'.paid == s.paid
  {
    var c1, s1 := GoFine(cs, s, Notify(P2));
    cs', s' := WorkAndAccept(c1, s1, 2, B, 8);
  }

  /** The copy paid for it still holds what was recorded before. */
  lemma PaySecond(cs: seq<Coarse>, s: State) returns (cs': seq<Coarse>, s': State)
    requires Reaches(cs, s) && s.submitter.Idle? && s.dispatcher.Resting? && s.now == 100
    requires s.chain == [P0, P1, P2] && s.last == Some(0) && s.proof == P1
    requires |s.txs| == 2 && |s.watchers| == 2 && !s.sh.closed && s.sh.nonce == NONCE_RANGE_SIZE
    requires s.sh.hashes.best.Some? && s.sh.hashes.bestDiff == 12 && 2 !in s.sh.hashes.subs && 2 !in s.sh.ranges
    ensures Reaches(cs', s') && |s'.paid| == |s.paid| + 1 && s'.paid[..|s.paid|] == s.paid
    ensures forall u | u in s.sh.hashes.subs ::
              u in s'.paid[|s.paid|].snap.subs && s'.paid[|s.paid|].snap.subs[u] == s.sh.hashes.subs[u]
  {
    var c2, s2 := RecordHarder(cs, s);
    var c3, s3 := GoFine(c2, s2, Tick(100));
    cs', s' := PayNext(c3, s3);
  }

  /** One undisturbed iteration on challenge 2, up to its message. */
  lemma PayNext(cs: seq<Coarse>, s: State) returns (cs': seq<Coarse>, s': State)
    requires Reaches(cs, s) && s.submitter.Idle? && s.now == 200 && s.chain == [P0, P1, P2] && s.proof == P2
    requires |s.txs| == 2 && |s.watchers| == 2 && s.sh.hashes.best == Some(B)
    ensures Reaches(cs', s') && s'.paid == s.paid + [Payment(2, B, s.sh.hashes)]
  {
    var c4, s4 := SeeBest(cs, s);
    var c5, s5 := CloseAndCopy(c4, s4);
    var c6, s6 := GoFine(c5, s5, Submit(Send));
    assert s6.txs[2] == Tx(B, false);
    var c7, s7 := GoFine(c6, s6, Land(2, 200));
    cs', s' := GoFine(c7, s7, Submit(Finalised));
  }

  lemma ReachTwoMessages() returns (cs: seq<Coarse>, s: State)
    ensures Reaches(cs, s) && |s.paid| == 2 && 1 in s.paid[0].snap.subs && 1 in s.paid[1].snap.subs
    ensures s.paid[0].snap.subs[1].task == s.paid[1].snap.subs[1].task
  {
    var c1 := ReachLateWatcher();
    var c2, s2 := GoFine(c1, LateWatcher(), Submit(Advance));
    var c3 := Refill(c2, s2);
    var c4, s4 := PayFirst(c3);
    assert s4.sh.hashes.subs == map[1 := Rec(7, A2, 2)];
    cs, s := PaySecond(c4, s4);
    assert s.paid[0] == s.paid[..1][0];
  }

  /** Without the condition of NothingPaidTwice a run pays one recorded submission by two messages. */
  lemma SubmissionPaidTwice() returns (steps: seq<Step>)
    ensures Initial(Fresh()) && Valid(ToyHash(), Fresh(), steps) && !NeverPaysOvertaken(ToyHash(), Fresh(), steps)
    ensures var paid := Exec(ToyHash(), Fresh(), steps).paid;
            && |paid| == 2 && 1 in paid[0].snap.subs && 1 in paid[1].snap.subs
            && paid[0].snap.subs[1].task == paid[1].snap.subs[1].task
  {
    var cs, s := ReachTwoMessages();
    steps := CoarseRunIsFine(ToyHash(), Fresh(), cs);
    if NeverPaysOvertaken(ToyHash(), Fresh(), steps) {
      NothingPaidTwice(ToyHash(), Fresh(), steps);
    }
  }

  // ---------- A window left closed ----------

  /** Without the condition of WindowNeverOrphaned a run leaves the window closed, the submitter idle and
      no resetter with the window to reopen. */
  lemma WindowOrphaned() returns (steps: seq<Step>)
    ensures Initial(Fresh()) && Valid(ToyHash(), Fresh(), steps)
    ensures var t := Exec(ToyHash(), Fresh(), steps);
            t.sh.closed && t.submitter.Idle? && !ResetterAt(t, OPEN_WINDOW)
  {
    var cs := ReachLateWatcher();
    cs := Refill(cs, LateWatcher());
    var s := Refilled(SawBest(P0));
    cs, s := CloseAndCopy(cs, s);
    cs, s := PayAndLeave(cs, s);
    steps := CoarseRunIsFine(ToyHash(), Fresh(), cs);
  }

  // ---------- Handlers that are interrupted ----------

  ghost predicate FineReaches(steps: seq<Step>, s: State) {
    Valid(ToyHash(), Fresh(), steps) && Exec(ToyHash(), Fresh(), steps) == s
  }

  lemma Take(steps: seq<Step>, s: State, step: Step) returns (steps': seq<Step>, s': State)
    requires FineReaches(steps, s) && Enabled(ToyHash(), s, step)
    ensures s' == Apply(ToyHash(), s, step) && FineReaches(steps', s')
  {
    steps' := steps + [step];
    ExecNext(ToyHash(), Fresh(), steps, steps');
    s' := Apply(ToyHash(), s, step);
  }

  /** A message arrives and its handler passes every check and its read phase, but has not written yet. */
  lemma ArriveAndRead(steps: seq<Step>, s: State, uuid: Uuid, sol: Solution, miner: MinerId)
    returns (steps': seq<Step>, s': State)
    requires FineReaches(steps, s) && !s.sh.closed && sol.digest == s.proof.challenge
    requires uuid in s.sh.ranges && |s.sh.ranges[uuid]| > 0 && Contains(s.sh.ranges[uuid][0], sol.nonce)
    requires uuid !in s.sh.hashes.subs
    ensures FineReaches(steps', s')
    ensures s' == Joined(s, uuid, sol, Replacing(miner, ToyHash().difficulty(sol)))
  {
    var t := |s.handlers|;
    var d := ToyHash().difficulty(sol);
    assert InRanges(s.sh.ranges[uuid], sol.nonce);
    var k1, s1 := Take(steps, s, Spawn(uuid, sol));
    var k2, s2 := Take(k1, s1, Handle(t, Some(miner)));
    JoinedPhase(s, uuid, sol, Arrived, WindowOpen);
    var k3, s3 := Take(k2, s2, Handle(t, Some(miner)));
    JoinedPhase(s, uuid, sol, WindowOpen, InRange);
    var k4, s4 := Take(k3, s3, Handle(t, Some(miner)));
    JoinedPhase(s, uuid, sol, InRange, Checked(miner, d));
    steps', s' := Take(k4, s4, Handle(t, Some(miner)));
    JoinedPhase(s, uuid, sol, Checked(miner, d), Replacing(miner, d));
  }

  lemma Write(steps: seq<Step>, s: State, t: nat) returns (steps': seq<Step>, s': State)
    requires FineReaches(steps, s) && t < |s.handlers| && s.handlers[t].phase.Replacing?
    ensures FineReaches(steps', s')
    ensures var w := s.handlers[t];
            s' == SetPhase(s, t, Wrote(s.sh.hashes.clears)).(sh := s.sh.(hashes :=
              Record(s.sh.hashes, w.uuid, w.sol, MakeSubmission(w.sol, w.phase.miner, w.phase.diff, t))))
  {
    steps', s' := Take(steps, s, Handle(t, None));
  }

  lemma OpenGuards() returns (steps: seq<Step>)
    ensures FineReaches(steps, Fresh().(dispatcher := Issuing))
  {
    var k1, s1 := Take([], Fresh(), LookAtProof);
    var k2, s2 := Take(k1, s1, LookAtBest);
    var k3, s3 := Take(k2, s2, BeginBatch);
    steps := k3;
  }

  lemma OpenBatch(uuid: Uuid) returns (steps: seq<Step>, s: State)
    ensures FineReaches(steps, s)
    ensures s == Fresh().(dispatcher := Issuing, sh := Issue(Fresh().sh, uuid))
    ensures s.sh.ranges[uuid] == [NextRange(0)]
  {
    FirstIssue(Fresh().sh, uuid);
    var k1 := OpenGuards();
    steps, s := Take(k1, Fresh().(dispatcher := Issuing), IssueTo(uuid));
  }

  /** A batch under way at the freeze still issues: its client was recorded and the deadline came near
      before the batch reached the next client. */
  lemma OpenBatchIssuesFrozen() returns (steps: seq<Step>)
    ensures Initial(Fresh()) && Valid(ToyHash(), Fresh(), steps)
    ensures var t := Exec(ToyHash(), Fresh(), steps); Frozen(t) && Enabled(ToyHash(), t, IssueTo(2))
  {
    var k1, s1 := OpenBatch(1);
    var k2, s2 := ArriveAndRead(k1, s1, 1, A0, 7);
    var k3, s3 := Write(k2, s2, 0);
    var k4, s4 := Take(k3, s3, Tick(100));
    steps := k4;
  }

  /** Without the premise of DifficultyNeverDrops: two tasks of one client both read before either writes,
      the easier one writes last, and nobody's recorded submission matches the pool's best any more. */
  lemma OverlappingTasksLoseDifficulty() returns (steps: seq<Step>)
    ensures Initial(Fresh()) && Valid(ToyHash(), Fresh(), steps)
    ensures var e := Exec(ToyHash(), Fresh(), steps).sh.hashes;
            e.bestDiff == 13 && e.subs.Keys == {1} && e.subs[1].diff == 12 && !BestRecorded(e)
  {
    var k1, s1 := OpenBatch(1);
    var k2, s2 := ArriveAndRead(k1, s1, 1, Solution(3, 0), 7);
    var k3, s3 := ArriveAndRead(k2, s2, 1, Solution(2, 0), 7);
    var k4, s4 := Write(k3, s3, 0);
    var k5, s5 := Write(k4, s4, 1);
    steps := k5;
  }

  /** Client 1 has read but not written, everything was reset, and client 3 was handed the same block. */
  lemma ReachBothReading() returns (steps: seq<Step>, s: State)
    ensures FineReaches(steps, s) && |s.handlers| == 3 && s.watchers == [] && s.submitter.Idle?
    ensures s.handlers[0] == Handler(1, A0, Replacing(7, 12)) && s.handlers[2] == Handler(3, A0, Replacing(9, 12))
    ensures s.sh.ranges == map[3 := [NextRange(0)]] && s.sh.hashes.subs == map[] && s.sh.hashes.bestDiff == 0
  {
    var k1, s1 := OpenBatch(1);
    var k2, s2 := ArriveAndRead(k1, s1, 1, A0, 7);
    var k3, s3 := FailedIteration(k2, s2);
    var k4, s4 := Take(k3, s3, IssueTo(3));
    FirstIssue(s3.sh, 3);
    steps, s := ArriveAndRead(k4, s4, 3, A0, 9);
  }

  /** Without the premise of InterleavedNoncesAreOwned: a handler that a failed submission's reset overtakes between
      its range check and its write records a nonce that was since handed to another client. */
  lemma InterruptedHandlerSharesNonce() returns (steps: seq<Step>)
    ensures Initial(Fresh()) && Valid(ToyHash(), Fresh(), steps)
    ensures var t := Exec(ToyHash(), Fresh(), steps);
            && !HalfReset(t) && !Owned(t.sh) && 1 in t.sh.hashes.subs && 3 in t.sh.hashes.subs
            && t.sh.hashes.subs[1].nonce == t.sh.hashes.subs[3].nonce
  {
    var k5, s5 := ReachBothReading();
    var k6, s6 := Write(k5, s5, 2);
    var k7, s7 := Write(k6, s6, 0);
    assert s7.sh.ranges == s5.sh.ranges && 1 in s7.sh.hashes.subs;
    assert 1 !in s7.sh.ranges;
    steps := k7;
  }

  /** Without the premise of RangesStayApart: a block taken before a reset and registered after it overlaps
      one handed out since, with no reset under way. */
  lemma LateRegistrationOverlaps() returns (steps: seq<Step>)
    ensures Initial(Fresh()) && Valid(ToyHash(), Fresh(), steps)
    ensures var t := Exec(ToyHash(), Fresh(), steps); !CounterAhead(t) && !RangesApart(t.sh)
  {
    var k1, s1 := ReachLateBlock();
    var k2, s2 := Take(k1, s1, IssueTo(3));
    FirstIssue(s1.sh, 3);
    var k3, s3 := Take(k2, s2, Register(0));
    assert s3.sh.ranges[2] == [] + [NextRange(0)];
    assert Registered(s3.sh, 2, 0) && Registered(s3.sh, 3, 0);
    assert Contains(s3.sh.ranges[2][0], 0) && Contains(s3.sh.ranges[3][0], 0);
    assert !Disjoint(s3.sh.ranges[2][0], s3.sh.ranges[3][0]);
    steps := k3;
  }

  lemma ReachLateBlock() returns (steps: seq<Step>, s: State)
    ensures FineReaches(steps, s) && s.submitter.Idle? && s.dispatcher.Issuing? && s.watchers == []
    ensures s.sh.nonce == 0 && s.sh.ranges == map[] && s.blocks == [Block(2, NextRange(0))]
  {
    var sol := Solution(40_000_002, 0);
    var k0 := OpenGuards();
    var k1, s1 := Take(k0, Fresh().(dispatcher := Issuing), TakeBlock(2));
    var k2, s2 := Take(k1, s1, IssueTo(1));
    assert s2.sh.ranges[1] == [] + [NextRange(NONCE_RANGE_SIZE)];
    var k3, s3 := ArriveAndRead(k2, s2, 1, sol, 8);
    var k4, s4 := Write(k3, s3, 0);
    var k5, s5 := Take(k4, s4, Tick(100));
    steps, s := GiveUpAndReset(k5, s5);
  }

  /** Another client's solution is submitted and given up; everything shared is reset. */
  lemma FailedIteration(steps: seq<Step>, s: State) returns (steps': seq<Step>, s': State)
    requires FineReaches(steps, s) && s.now == 0 && s.proof == P0 && s.submitter.Idle? && s.dispatcher.Issuing?
    requires !s.sh.closed && s.sh.nonce == NONCE_RANGE_SIZE && 2 !in s.sh.ranges && |s.handlers| == 1
    requires s.sh.hashes.subs == map[] && s.sh.hashes.best.None? && s.sh.hashes.bestDiff == 0
    requires s.sh.hashes.challenge == 0
    ensures FineReaches(steps', s')
    ensures |s'.handlers| == 2 && s'.handlers[0] == s.handlers[0] && s'.handlers[1].phase.Wrote?
    ensures s'.sh == Shared(0, map[], Hashes(0, None, 0, map[], s.sh.hashes.clears + 1), false)
    ensures s'.proof == P0 && s'.submitter.Idle? && s'.dispatcher.Issuing? && s'.watchers == s.watchers
  {
    var sol := Solution(40_000_002, 0);
    var k1, s1 := Take(steps, s, IssueTo(2));
    assert s1.sh.ranges[2] == [] + [NextRange(s.sh.nonce)];
    var k2, s2 := ArriveAndRead(k1, s1, 2, sol, 8);
    var k3, s3 := Write(k2, s2, 1);
    var k4, s4 := Take(k3, s3, Tick(100));
    assert s4.sh.hashes.best == Some(sol);
    steps', s' := GiveUpAndReset(k4, s4);
  }

  lemma GiveUpAndReset(steps: seq<Step>, s: State) returns (steps': seq<Step>, s': State)
    requires FineReaches(steps, s) && s.now == 100 && s.proof == P0 && s.submitter.Idle? && s.sh.hashes.best.Some?
    ensures FineReaches(steps', s')
    ensures s' == s.(sh := Shared(0, map[], ClearHashes(s.sh.hashes, None), false))
  {
    var k1, s1 := Take(steps, s, Submit(Advance));
    var k2, s2 := Take(k1, s1, Submit(Advance));
    var k3, s3 := Take(k2, s2, Submit(Advance));
    var k4, s4 := Take(k3, s3, Submit(Advance));
    var k5, s5 := Take(k4, s4, Submit(GiveUp(false)));
    steps', s' := FailureReset(k5, s5);
  }

  lemma FailureReset(steps: seq<Step>, s: State) returns (steps': seq<Step>, s': State)
    requires FineReaches(steps, s) && s.submitter == Restoring(0, None)
    ensures FineReaches(steps', s')
    ensures s' == s.(submitter := Idle, sh := Shared(0, map[], ClearHashes(s.sh.hashes, None), false))
  {
    var k1, s1 := Take(steps, s, Submit(Advance));
    var k2, s2 := Take(k1, s1, Submit(Advance));
    var k3, s3 := Take(k2, s2, Submit(Advance));
    steps', s' := Take(k3, s3, Submit(Advance));
  }
}
