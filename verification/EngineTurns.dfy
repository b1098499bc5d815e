/** Whole turns of the engine's tasks when nothing comes in between, from the state they find to the state
    they leave, field by field. */
module EngineTurns {
  import opened Wrappers
  import opened Words
  import opened Epoch
  import opened Split
  import opened Engine
  import opened EngineCoarse
  import opened EngineTwice

  // ---------- Resets ----------

  /** The shared state as every reset leaves it. */
  function Emptied(sh: Shared, to: Option<Challenge>): Shared {
    var challenge := if to.Some? then to.value else sh.hashes.challenge;
    Shared(0, map[], Hashes(challenge, None, 0, map[], sh.hashes.clears + 1), false)
  }

  lemma SubmitterResets(h: Hashing, s: State, steps: seq<Step>, t: State, to: Option<Challenge>)
    returns (steps': seq<Step>, t': State)
    requires Leads(h, s, steps, t) && t.submitter == Restoring(0, to)
    ensures Leads(h, s, steps', t') && t' == t.(submitter := Idle, sh := Emptied(t.sh, to))
  {
    var k1, t1 := Then(h, s, steps, t, Submit(Advance));
    var k2, t2 := Then(h, s, k1, t1, Submit(Advance));
    var k3, t3 := Then(h, s, k2, t2, Submit(Advance));
    steps', t' := Then(h, s, k3, t3, Submit(Advance));
  }

  /** One step of watcher `w`, said of the watcher alone. */
  lemma WatchTo(h: Hashing, s: State, steps: seq<Step>, t: State, w: nat, answer: Option<Proof>, phase: WatchPhase)
    returns (steps': seq<Step>, t': State)
    requires Leads(h, s, steps, t) && Enabled(h, t, Watch(w, answer))
    requires WatchNext(t, w, answer).watchers == t.watchers[w := t.watchers[w].(phase := phase)]
    ensures t' == WatchNext(t, w, answer) && Leads(h, s, steps', t')
    ensures t'.watchers == t.watchers[w := t.watchers[w].(phase := phase)]
  {
    steps', t' := Then(h, s, steps, t, Watch(w, answer));
  }

  lemma WatcherResets(h: Hashing, s: State, steps: seq<Step>, t: State, w: nat, c: Challenge)
    returns (steps': seq<Step>, t': State)
    requires Leads(h, s, steps, t) && w < |t.watchers| && t.watchers[w].phase == Resetting(0, c)
    ensures Leads(h, s, steps', t')
    ensures t' == t.(watchers := t.watchers[w := t.watchers[w].(phase := Finished)], sh := Emptied(t.sh, Some(c)))
  {
    var k1, t1 := WatchTo(h, s, steps, t, w, None, Resetting(1, c));
    var k2, t2 := WatchTo(h, s, k1, t1, w, None, Resetting(2, c));
    var k3, t3 := WatchTo(h, s, k2, t2, w, None, Resetting(3, c));
    steps', t' := WatchTo(h, s, k3, t3, w, None, Finished);
    assert t'.watchers == t.watchers[w := t.watchers[w].(phase := Finished)];
  }

  /** A watcher at the top of its loop, not told to stop, learns of a newer proof from the RPC node: the proof
      becomes the tracked one, the old challenge the remembered one, everything shared is emptied for the new
      challenge and the window is open. */
  lemma WatcherTurn(h: Hashing, s: State, w: nat, p: Proof) returns (steps: seq<Step>, t: State)
    requires w < |s.watchers| && s.watchers[w].phase.LoopTop? && !s.watchers[w].stopped
    requires s.watchers[w].oldProof.challenge == s.proof.challenge < p.challenge && OnChain(s, p)
    ensures Leads(h, s, steps, t)
    ensures t == s.(proof := p, last := Some(s.proof.challenge), sh := Emptied(s.sh, Some(p.challenge)),
                    watchers := s.watchers[w := s.watchers[w].(phase := Finished)])
  {
    var k1, t1 := WatchTo(h, s, [], s, w, None, Unstopped);
    var k2, t2 := WatchTo(h, s, k1, t1, w, None, ProofSame);
    var k3, t3 := WatchTo(h, s, k2, t2, w, Some(p), Found(p));
    var k4, t4 := WatchTo(h, s, k3, t3, w, None, Resetting(0, p.challenge));
    assert t4.watchers == s.watchers[w := s.watchers[w].(phase := Resetting(0, p.challenge))];
    steps, t := WatcherResets(h, s, k4, t4, w, p.challenge);
    assert t.watchers == s.watchers[w := s.watchers[w].(phase := Finished)];
  }

  // ---------- The submitter ----------

  /** Past its deadline with a best solution the chain takes, the submitter closes the window, sends that
      solution, pays the submissions under the challenge it read, and, once the proof has moved on, empties
      everything for the new challenge and opens the window. */
  lemma SubmitterTurn(h: Hashing, s: State) returns (steps: seq<Step>, t: State)
    requires s.submitter.Idle? && s.sh.hashes.best.Some? && 0 <= s.proof.lastHashAt <= s.now - 59 <= I64_MAX - 59
    requires |s.chain| > 0 && h.valid(s.sh.hashes.best.value, Tip(s).challenge)
    requires KnownChallenges(s) && s.sh.hashes.challenge < |s.chain|
    ensures Leads(h, s, steps, t)
    ensures t.submitter.Idle? && t.proof == Proof(|s.chain|, 0) && t.chain == s.chain + [t.proof]
    ensures t.sh == Emptied(s.sh, Some(|s.chain|)) && t.now == s.now && t.handlers == s.handlers
    ensures t.paid == s.paid + [Payment(s.proof.challenge, s.sh.hashes.best.value, s.sh.hashes)]
    ensures t.txs == s.txs + [Tx(s.sh.hashes.best.value, true)]
  {
    var k1, t1 := CloseAndCopy(h, s);
    var k2, t2 := PayCopy(h, s, k1, t1);
    var k3, t3 := Then(h, s, k2, t2, Notify(Tip(t2)));
    assert t3.proof == Proof(|s.chain|, 0);
    var k4, t4 := Then(h, s, k3, t3, Submit(Advance));
    var k5, t5 := Then(h, s, k4, t4, Submit(Advance));
    steps, t := SubmitterResets(h, s, k5, t5, Some(|s.chain|));
  }

  lemma CloseAndCopy(h: Hashing, s: State) returns (steps: seq<Step>, t: State)
    requires s.submitter.Idle? && s.sh.hashes.best.Some? && 0 <= s.proof.lastHashAt <= s.now - 59 <= I64_MAX - 59
    ensures Leads(h, s, steps, t)
    ensures t == s.(sh := s.sh.(closed := true), submitter := Attempting(s.proof, s.sh.hashes, 0))
  {
    var k1, t1 := Then(h, s, [], s, Submit(Advance));
    var k2, t2 := Then(h, s, k1, t1, Submit(Advance));
    var k3, t3 := Then(h, s, k2, t2, Submit(Advance));
    steps, t := Then(h, s, k3, t3, Submit(Advance));
  }

  /** An attempt given up empties everything and opens the window, and leaves the epoch challenge as it was. */
  lemma FailureTurn(h: Hashing, s: State, reached: bool) returns (steps: seq<Step>, t: State)
    requires CanSend(s.submitter)
    ensures Leads(h, s, steps, t) && t.submitter.Idle? && t.sh == Emptied(s.sh, None)
    ensures t.proof == s.proof && t.paid == s.paid && t.watchers == s.watchers && t.handlers == s.handlers
    ensures t.txs == if reached then s.txs + [Tx(s.submitter.snap.best.value, false)] else s.txs
  {
    var k1, t1 := Then(h, s, [], s, Submit(GiveUp(reached)));
    steps, t := SubmitterResets(h, s, k1, t1, None);
  }

  /** So does a solution found not to be valid any more, and the newer proof becomes the tracked one. */
  lemma InvalidTurn(h: Hashing, s: State, p: Proof) returns (steps: seq<Step>, t: State)
    requires CanSend(s.submitter) && OnChain(s, p) && s.proof.challenge <= p.challenge
    requires !h.valid(s.submitter.snap.best.value, p.challenge)
    ensures Leads(h, s, steps, t) && t == s.(proof := p, submitter := Idle, sh := Emptied(s.sh, None))
  {
    var k1, t1 := Then(h, s, [], s, Submit(NoLongerValid(p)));
    steps, t := SubmitterResets(h, s, k1, t1, None);
  }

  /** While the tracked proof has not moved, the submitter asks the RPC node. A newer proof becomes the tracked
      one and everything is emptied for it; any other answer leaves the submitter where it was. */
  lemma RpcTurn(h: Hashing, s: State, answer: Option<Proof>) returns (steps: seq<Step>, t: State)
    requires s.submitter.Waiting? && s.submitter.oldProof.challenge == s.proof.challenge
    requires answer.Some? ==> OnChain(s, answer.value) && s.proof.challenge <= answer.value.challenge
    ensures Leads(h, s, steps, t)
    ensures t == if answer.Some? && s.proof.challenge < answer.value.challenge
                 then s.(proof := answer.value, submitter := Idle, sh := Emptied(s.sh, Some(answer.value.challenge)))
                 else s
  {
    var k1, t1 := Then(h, s, [], s, Submit(Advance));
    var k2, t2 := Then(h, s, k1, t1, Submit(RpcProof(answer)));
    if answer.Some? && s.proof.challenge < answer.value.challenge {
      steps, t := SubmitterResets(h, s, k2, t2, Some(answer.value.challenge));
    } else {
      steps, t := k2, t2;
    }
  }

  /** Once the tracked proof has moved, the submitter empties everything for it, unless the epoch has that
      challenge already: then it goes back to the start and changes nothing. */
  lemma MovedTurn(h: Hashing, s: State) returns (steps: seq<Step>, t: State)
    requires s.submitter.Waiting? && s.submitter.oldProof.challenge != s.proof.challenge
    ensures Leads(h, s, steps, t)
    ensures t == s.(submitter := Idle, sh := if s.proof.challenge == s.sh.hashes.challenge then s.sh
                                             else Emptied(s.sh, Some(s.proof.challenge)))
  {
    var k1, t1 := Then(h, s, [], s, Submit(Advance));
    var k2, t2 := Then(h, s, k1, t1, Submit(Advance));
    if s.proof.challenge == s.sh.hashes.challenge {
      steps, t := k2, t2;
    } else {
      steps, t := SubmitterResets(h, s, k2, t2, Some(s.proof.challenge));
    }
  }

  predicate AttemptsInv(s: State) {
    && (s.submitter.Attempting? ==> s.submitter.attempt <= 10)
    && (s.submitter.Polling? ==> s.submitter.attempt < 10)
  }

  /** In every run the submitter tries at most ten times before it gives its copy up. */
  lemma {:induction false} TenAttempts(h: Hashing, s: State, steps: seq<Step>)
    requires Initial(s) && Valid(h, s, steps)
    ensures AttemptsInv(Exec(h, s, steps))
    decreases |steps|
  {
    if steps != [] {
      TenAttempts(h, s, steps[..|steps| - 1]);
      LastStep(h, s, steps);
    }
  }

  // ---------- Dispatch and handling ----------

  lemma GuardsPass(h: Hashing, s: State) returns (steps: seq<Step>)
    requires s.dispatcher.Resting? && !s.sh.closed
    requires s.sh.hashes.best.None?
             || (0 <= s.proof.lastHashAt && 0 <= s.now <= s.proof.lastHashAt + 48 <= I64_MAX - 60)
    ensures Leads(h, s, steps, s.(dispatcher := Issuing))
  {
    var k1, t1 := Then(h, s, [], s, LookAtProof);
    var k2, t2 := Then(h, s, k1, t1, LookAtBest);
    assert t2 == s.(dispatcher := Willing);
    var t3;
    steps, t3 := Then(h, s, k2, t2, BeginBatch);
  }

  /** A dispatcher that finds its guards open hands a client the forty million nonces from the counter on, less
      the last, on top of what the client has. */
  lemma DispatchTurn(h: Hashing, s: State, uuid: Uuid) returns (steps: seq<Step>, t: State)
    requires s.dispatcher.Resting? && !s.sh.closed && s.sh.nonce + 40_000_000 <= U64_MAX
    requires s.sh.hashes.best.None?
             || (0 <= s.proof.lastHashAt && 0 <= s.now <= s.proof.lastHashAt + 48 <= I64_MAX - 60)
    ensures Leads(h, s, steps, t)
    ensures var rs := if uuid in s.sh.ranges then s.sh.ranges[uuid] else [];
            t == s.(sh := s.sh.(nonce := s.sh.nonce + 40_000_000,
                                ranges := s.sh.ranges[uuid := rs + [Range(s.sh.nonce, s.sh.nonce + 39_999_999)]]))
  {
    var k3 := GuardsPass(h, s);
    var t3 := s.(dispatcher := Issuing);
    var k4, t4 := Then(h, s, k3, t3, IssueTo(uuid));
    steps, t := Then(h, s, k4, t4, EndBatch);
  }

  /** A message that passes every check records, for its client, the socket's miner, the solution's nonce and
      its difficulty, and is the best if it is harder than the best; nothing else changes. */
  lemma HandlerTurn(h: Hashing, s: State, uuid: Uuid, sol: Solution, miner: MinerId)
    returns (steps: seq<Step>, t: State, sub: Submission)
    requires !s.sh.closed && uuid in s.sh.ranges && h.valid(sol, s.proof.challenge) && 12 <= h.difficulty(sol)
    requires exists i :: 0 <= i < |s.sh.ranges[uuid]|
                         && s.sh.ranges[uuid][i].start <= sol.nonce < s.sh.ranges[uuid][i].end
    requires uuid in s.sh.hashes.subs ==> s.sh.hashes.subs[uuid].diff < h.difficulty(sol)
    ensures Leads(h, s, steps, t)
    ensures sub.minerId == miner && sub.nonce == sol.nonce && sub.diff == h.difficulty(sol) && sub.task == |s.handlers|
    ensures sub.diff <= 69 ==> sub.realHashpower == 80 * Pow2(sub.diff - 12)
    ensures sub.diff <= 69 ==> sub.hashpower == if sub.diff <= 24 then 80 * Pow2(sub.diff - 12) else 327_680
    ensures var e := s.sh.hashes;
            t.sh == s.sh.(hashes := e.(subs := e.subs[uuid := sub],
                                       bestDiff := if sub.diff > e.bestDiff then sub.diff else e.bestDiff,
                                       best := if sub.diff > e.bestDiff then Some(sol) else e.best))
    ensures t == s.(sh := t.sh, handlers := s.handlers + [Handler(uuid, sol, Wrote(s.sh.hashes.clears))])
  {
    var i :| 0 <= i < |s.sh.ranges[uuid]| && s.sh.ranges[uuid][i].start <= sol.nonce < s.sh.ranges[uuid][i].end;
    assert Contains(s.sh.ranges[uuid][i], sol.nonce);
    assert Judge(h, s.sh, s.proof.challenge, uuid, sol, Some(miner)) == Recorded;
    AcceptIsPhases(h, s, uuid, sol, Some(miner));
    steps := [Spawn(uuid, sol)] + seq(PhaseCount(Recorded), _ => Handle(|s.handlers|, Some(miner)));
    t := CoarseApply(h, s, Accept(uuid, sol, Some(miner)));
    sub := t.sh.hashes.subs[uuid];
    HashpowerExact(h.difficulty(sol));
  }
}
