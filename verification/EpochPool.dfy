/** The shared epoch state as the server keeps it, updated in place by the critical sections that the
    engine's steps describe. */
module EpochPool {
  import opened Wrappers
  import opened Words
  import opened Cutoff
  import opened Epoch
  import opened EngineRanges
  import opened Split

  type Addr = nat

  class Pool {
    var nonce: nat
    var ranges: map<Uuid, seq<Range>>
    var challenge: Challenge
    var bestSolution: Option<Solution>
    var bestDifficulty: nat
    var submissions: map<Uuid, Submission>
    var closed: bool
    var ready: set<Addr>
    ghost var clears: nat

    /** What the four locks guard, as one value. */
    ghost function View(): Shared
      reads this
    {
      Shared(nonce, ranges, Hashes(challenge, bestSolution, bestDifficulty, submissions, clears), closed)
    }

    constructor (first: Challenge)
      ensures View() == Shared(0, map[], Hashes(first, None, 0, map[], 0), false) && ready == {}
      ensures nonce == 0 && ranges == map[] && challenge == first && submissions == map[] && !closed
      ensures bestSolution == None && bestDifficulty == 0
    {
      nonce, ranges, challenge := 0, map[], first;
      bestSolution, bestDifficulty, submissions := None, 0, map[];
      closed, ready, clears := false, {}, 0;
    }

    /** One of the five reset blocks, from start to end. */
    method Reset(to: Option<Challenge>)
      modifies this`nonce, this`ranges, this`challenge, this`bestSolution, this`bestDifficulty,
               this`submissions, this`closed, this`clears
      ensures View() == WholeReset(old(View()), to)
      ensures nonce == 0 && ranges == map[] && submissions == map[] && !closed
      ensures bestSolution == None && bestDifficulty == 0
      ensures challenge == if to.Some? then to.value else old(challenge)
    {
      nonce := 0;
      ranges := map[];
      if to.Some? {
        challenge := to.value;
      }
      bestSolution, bestDifficulty, submissions := None, 0, map[];
      clears := clears + 1;
      closed := false;
    }

    /** Take the next block off the counter. */
    method TakeBlock() returns (block: Range)
      modifies this`nonce
      ensures View() == TakeNext(old(View())) && block == NextRange(old(nonce))
      ensures block.start == old(nonce)
      ensures old(nonce) + 40_000_000 <= U64_MAX ==>
                block.end == old(nonce) + 39_999_999 && nonce == old(nonce) + 40_000_000
    {
      var start := nonce;
      nonce := Wrap64(nonce + NONCE_RANGE_SIZE);
      block := Range(start, Wrap64(start + NONCE_RANGE_SIZE - 1));
    }

    /** What the spawned task does with a block. */
    method Register(b: Block)
      modifies this`ranges
      ensures View() == AddRange(old(View()), b.uuid, b.range)
      ensures ranges == old(ranges)[b.uuid := (if b.uuid in old(ranges) then old(ranges)[b.uuid] else []) + [b.range]]
    {
      if b.uuid in ranges {
        ranges := ranges[b.uuid := ranges[b.uuid] + [b.range]];
      } else {
        ranges := ranges[b.uuid := [b.range]];
        assert [] + [b.range] == [b.range];
      }
    }

    /** One pass of the dispatcher over the clients it found ready; `spawned` are the registrations it
        leaves to tasks of their own. */
    method DispatchReady(lastHashAt: int, now: int, clients: seq<Addr>, sockets: map<Addr, Uuid>)
      returns (spawned: seq<Block>)
      modifies this`nonce, this`ready
      ensures if (GetCutoff(lastHashAt, 2, now) < 10 && old(bestSolution).Some?) || old(closed)
              then View() == old(View()) && ready == old(ready) && spawned == []
              else View() == TakeAll(old(View()), Listening(clients, sockets))
                   && spawned == BlocksFor(old(View()), Listening(clients, sockets))
                   && (forall c :: c in ready <==> c in old(ready) && c !in clients)
    {
      spawned := [];
      var shouldMine := true;
      if GetCutoff(lastHashAt, 2, now) < 10 {
        if bestSolution.Some? {
          shouldMine := false;
        }
      }
      if shouldMine && !closed {
        for k := 0 to |clients|
          invariant View() == TakeAll(old(View()), Listening(clients[..k], sockets))
          invariant spawned == BlocksFor(old(View()), Listening(clients[..k], sockets))
          invariant forall c :: c in ready <==> c in old(ready) && c !in clients[..k]
        {
          var client := clients[k];
          NextListener(old(View()), clients, k, sockets);
          if client in sockets {
            var block := TakeBlock();
            spawned := spawned + [Block(sockets[client], block)];
          }
          assert clients[..k + 1] == clients[..k] + [client];
          ready := ready - {client};
        }
        assert clients[..|clients|] == clients;
      }
    }

    /** The code's search for a range that holds the nonce. */
    static method FindRange(rs: seq<Range>, n: nat) returns (inRange: bool)
      ensures inRange <==> InRanges(rs, n)
      ensures inRange <==> exists i :: 0 <= i < |rs| && rs[i].start <= n < rs[i].end
    {
      inRange := false;
      for i := 0 to |rs|
        invariant !inRange
        invariant !InRanges(rs[..i], n)
      {
        if Contains(rs[i], n) {
          return true;
        }
        assert forall j | 0 <= j < i :: rs[..i][j] == rs[..i + 1][j];
      }
      assert rs[..|rs|] == rs;
    }

    /** One client message, handled from start to end. */
    method HandleSolution(h: Hashing, tracked: Challenge, uuid: Uuid, sol: Solution, miner: Option<MinerId>, task: nat)
      returns (v: Verdict)
      modifies this`submissions, this`bestSolution, this`bestDifficulty
      ensures v == Judge(h, old(View()), tracked, uuid, sol, miner)
      ensures View() == AcceptWhole(h, old(View()), tracked, uuid, sol, miner, task)
      ensures v == if old(closed) then Late
                   else if uuid !in old(ranges) then RangeNotSet
                   else if !(exists i :: 0 <= i < |ranges[uuid]|
                                         && ranges[uuid][i].start <= sol.nonce < ranges[uuid][i].end)
                   then OutOfRange
                   else if miner.None? then NoSocket
                   else if !h.valid(sol, tracked) then InvalidSolution
                   else if h.difficulty(sol) < 12 then DiffTooLow
                   else if uuid in old(submissions) && h.difficulty(sol) <= old(submissions)[uuid].diff then NotBetter
                   else Recorded
      ensures v != Recorded ==> View() == old(View())
      ensures v == Recorded ==>
                && miner.Some? && uuid in submissions && submissions == old(submissions)[uuid := submissions[uuid]]
                && var sub := submissions[uuid];
                && sub.minerId == miner.value && sub.nonce == sol.nonce && sub.diff == h.difficulty(sol)
                && sub.task == task
                && (sub.diff <= 69 ==> sub.realHashpower == 80 * Pow2(sub.diff - 12))
                && sub.hashpower == (if sub.realHashpower > 327_680 then 327_680 else sub.realHashpower)
                && bestDifficulty == (if sub.diff > old(bestDifficulty) then sub.diff else old(bestDifficulty))
                && bestSolution == (if sub.diff > old(bestDifficulty) then Some(sol) else old(bestSolution))
    {
      if closed {
        return Late;
      }
      if uuid !in ranges {
        return RangeNotSet;
      }
      var inRange := FindRange(ranges[uuid], sol.nonce);
      if !inRange {
        return OutOfRange;
      }
      if miner.None? {
        return NoSocket;
      }
      if !h.valid(sol, tracked) {
        return InvalidSolution;
      }
      var diff := h.difficulty(sol);
      if diff < MIN_DIFF {
        return DiffTooLow;
      }
      if uuid in submissions && diff <= submissions[uuid].diff {
        return NotBetter;
      }
      HashpowerExact(diff);
      var power := RealHashpower(diff);
      var capped := power;
      if capped > MAX_CALCULATED_HASHPOWER {
        capped := MAX_CALCULATED_HASHPOWER;
      }
      submissions := submissions[uuid := Submission(miner.value, diff, sol.nonce, capped, power, task)];
      if diff > bestDifficulty {
        bestDifficulty := diff;
        bestSolution := Some(sol);
      }
      return Recorded;
    }

    /** The submitter closes the window and copies the best solution and the submissions. */
    method CloseAndCopy() returns (best: Option<Solution>, copied: map<Uuid, Submission>)
      modifies this`closed
      ensures closed && best == bestSolution && copied == submissions
    {
      closed := true;
      best, copied := bestSolution, submissions;
    }
  }

  /** The connection ids of the clients that still have a socket, in dispatch order. */
  function Listening(clients: seq<Addr>, sockets: map<Addr, Uuid>): seq<Uuid> {
    if clients == [] then []
    else
      var init := Listening(clients[..|clients| - 1], sockets);
      var c := clients[|clients| - 1];
      if c in sockets then init + [sockets[c]] else init
  }

  /** Client by client, in order: one that has a socket is listed once under its id, any other is left out. */
  lemma {:induction false} ListeningInOrder(a: seq<Addr>, b: seq<Addr>, sockets: map<Addr, Uuid>)
    ensures Listening(a + b, sockets) == Listening(a, sockets) + Listening(b, sockets)
    ensures |b| == 1 ==> Listening(b, sockets) == if b[0] in sockets then [sockets[b[0]]] else []
    decreases |b|
  {
    if b == [] {
      assert a + b == a;
    } else {
      var n := |b| - 1;
      ListeningInOrder(a, b[..n], sockets);
      assert (a + b)[..|a| + n] == a + b[..n];
      if |b| == 1 {
        assert b[..0] == [];
      }
    }
  }

  /** The nonces a client may use after it was issued a block: all of the block but its last, and, if it held
      no other, only those. */
  lemma IssuedNonces(sh: Shared, uuid: Uuid, n: nat)
    requires sh.nonce + 40_000_000 <= U64_MAX
    ensures var rs := Issue(sh, uuid).ranges[uuid];
            && (sh.nonce <= n <= sh.nonce + 39_999_998 ==> exists i :: 0 <= i < |rs| && rs[i].start <= n < rs[i].end)
            && (uuid !in sh.ranges ==>
                  ((exists i :: 0 <= i < |rs| && rs[i].start <= n < rs[i].end)
                   <==> sh.nonce <= n <= sh.nonce + 39_999_998))
  {
    var rs := Issue(sh, uuid).ranges[uuid];
    assert rs[|rs| - 1].start == sh.nonce && rs[|rs| - 1].end == sh.nonce + 39_999_999;
  }

  /** The engine's range check says what that search says. */
  lemma InRangesMeans(rs: seq<Range>, n: nat)
    ensures InRanges(rs, n) <==> exists i :: 0 <= i < |rs| && rs[i].start <= n < rs[i].end
  {
    if InRanges(rs, n) {
      var i :| 0 <= i < |rs| && Contains(rs[i], n);
      assert rs[i].start <= n < rs[i].end;
    }
    if i :| 0 <= i < |rs| && rs[i].start <= n < rs[i].end {
      assert Contains(rs[i], n);
    }
  }

  /** One block off the counter for each client in turn. */
  function TakeAll(sh: Shared, uuids: seq<Uuid>): Shared {
    if uuids == [] then sh else TakeNext(TakeAll(sh, uuids[..|uuids| - 1]))
  }

  function BlocksFor(sh: Shared, uuids: seq<Uuid>): seq<Block> {
    if uuids == [] then []
    else
      var init := uuids[..|uuids| - 1];
      BlocksFor(sh, init) + [Block(uuids[|uuids| - 1], NextRange(TakeAll(sh, init).nonce))]
  }

  function RegisterAll(sh: Shared, blocks: seq<Block>): Shared {
    if blocks == [] then sh
    else
      var b := blocks[|blocks| - 1];
      AddRange(RegisterAll(sh, blocks[..|blocks| - 1]), b.uuid, b.range)
  }

  lemma NextListener(sh: Shared, clients: seq<Addr>, k: nat, sockets: map<Addr, Uuid>)
    requires k < |clients|
    ensures var before := Listening(clients[..k], sockets);
            Listening(clients[..k + 1], sockets)
              == if clients[k] in sockets then before + [sockets[clients[k]]] else before
    ensures clients[k] in sockets ==>
              var before, uuid := Listening(clients[..k], sockets), sockets[clients[k]];
              && TakeAll(sh, before + [uuid]) == TakeNext(TakeAll(sh, before))
              && BlocksFor(sh, before + [uuid])
                 == BlocksFor(sh, before) + [Block(uuid, NextRange(TakeAll(sh, before).nonce))]
  {
    assert clients[..k + 1][..k] == clients[..k];
    var before := Listening(clients[..k], sockets);
    if clients[k] in sockets {
      assert (before + [sockets[clients[k]]])[..|before|] == before;
    }
  }

  /** Registering what a dispatch spawned, after all its blocks were taken, is issuing one block after the other. */
  lemma {:induction false} SpawnedIsIssued(sh: Shared, uuids: seq<Uuid>)
    ensures RegisterAll(TakeAll(sh, uuids), BlocksFor(sh, uuids)) == IssueAll(sh, uuids)
    ensures TakeAll(sh, uuids).ranges == sh.ranges && TakeAll(sh, uuids).nonce == IssueAll(sh, uuids).nonce
    decreases |uuids|
  {
    if uuids != [] {
      var init, uuid := uuids[..|uuids| - 1], uuids[|uuids| - 1];
      SpawnedIsIssued(sh, init);
      var blocks := BlocksFor(sh, uuids);
      assert blocks[..|blocks| - 1] == BlocksFor(sh, init);
      RegisterIgnoresCounter(TakeAll(sh, init), BlocksFor(sh, init));
    }
  }

  lemma {:induction false} RegisterIgnoresCounter(sh: Shared, blocks: seq<Block>)
    ensures RegisterAll(TakeNext(sh), blocks) == TakeNext(RegisterAll(sh, blocks))
    ensures RegisterAll(sh, blocks).nonce == sh.nonce
    decreases |blocks|
  {
    if blocks != [] {
      RegisterIgnoresCounter(sh, blocks[..|blocks| - 1]);
    }
  }

  /** A dispatch keeps all ranges apart and advances the counter by one block a client, while the counter
      stays within u64. */
  lemma {:induction false} DispatchKeepsApart(sh: Shared, uuids: seq<Uuid>)
    requires RangesApart(sh) && sh.nonce + |uuids| * NONCE_RANGE_SIZE <= U64_MAX
    ensures var sh' := IssueAll(sh, uuids);
            && RangesApart(sh') && sh'.nonce == sh.nonce + |uuids| * NONCE_RANGE_SIZE
            && sh'.hashes == sh.hashes && sh'.closed == sh.closed
    decreases |uuids|
  {
    if uuids != [] {
      var n := |uuids| - 1;
      DispatchKeepsApart(sh, uuids[..n]);
      IssueKeepsApart(IssueAll(sh, uuids[..n]), uuids[n]);
    }
  }

  /** Nothing registered is lost, and the k-th client is registered with the k-th block. */
  lemma {:induction false} DispatchIsConsecutive(sh: Shared, uuids: seq<Uuid>)
    requires sh.nonce + |uuids| * NONCE_RANGE_SIZE <= U64_MAX
    ensures IssueAll(sh, uuids).nonce == sh.nonce + |uuids| * NONCE_RANGE_SIZE
    ensures RangesGrow(sh, IssueAll(sh, uuids))
    ensures forall k | 0 <= k < |uuids| ::
              Holds(IssueAll(sh, uuids), uuids[k], NextRange(sh.nonce + k * NONCE_RANGE_SIZE))
    decreases |uuids|
  {
    if uuids != [] {
      var n := |uuids| - 1;
      DispatchIsConsecutive(sh, uuids[..n]);
      var mid := IssueAll(sh, uuids[..n]);
      forall k | 0 <= k < |uuids|
        ensures Holds(IssueAll(sh, uuids), uuids[k], NextRange(sh.nonce + k * NONCE_RANGE_SIZE))
      {
        if k < n {
          assert uuids[..n][k] == uuids[k];
          IssueHolds(mid, uuids[n], uuids[k], NextRange(sh.nonce + k * NONCE_RANGE_SIZE));
        } else {
          IssueHolds(mid, uuids[n], uuids[n], NextRange(mid.nonce));
        }
      }
    }
  }

  predicate Holds(sh: Shared, uuid: Uuid, r: Range) {
    uuid in sh.ranges && r in sh.ranges[uuid]
  }

  lemma IssueHolds(sh: Shared, uuid: Uuid, owner: Uuid, r: Range)
    requires Holds(sh, owner, r) || (owner == uuid && r == NextRange(sh.nonce))
    ensures Holds(Issue(sh, uuid), owner, r)
  {
    var rs := Issue(sh, uuid).ranges[uuid];
    assert rs[|rs| - 1] == NextRange(sh.nonce);
  }

  /** The four critical sections of a reset with nothing in between. */
  function WholeReset(sh: Shared, to: Option<Challenge>): Shared {
    var cleared := ResetStep(ResetStep(sh, ZERO_COUNTER, to), CLEAR_RANGES, to);
    ResetStep(ResetStep(cleared, CLEAR_HASHES, to), OPEN_WINDOW, to)
  }
}
