/** The mining epoch shared by the server's tasks: the nonce counter, the registered nonce ranges,
    the epoch hashes and the submission window, with the effect of each critical section on them. */
module Epoch {
  import opened Wrappers
  import opened Words

  const MIN_DIFF: nat := 12
  const MIN_HASHPOWER: nat := 80
  const MAX_CALCULATED_HASHPOWER: nat := 327_680
  const NONCE_RANGE_SIZE: nat := 40_000_000

  type Uuid = nat
  type MinerId = int

  /** Challenges are fresh, so they are numbered in the order the chain issues them. */
  type Challenge = nat

  datatype Proof = Proof(challenge: Challenge, lastHashAt: int)

  datatype Solution = Solution(nonce: nat, digest: nat)

  /** The hash function is foreign code: which challenges a solution answers, and how well. */
  datatype Hashing = Hashing(valid: (Solution, Challenge) -> bool, difficulty: Solution -> nat)

  datatype Range = Range(start: nat, end: nat)

  /** A block taken off the counter for a client, waiting to be registered by a spawned task. */
  datatype Block = Block(uuid: Uuid, range: Range)

  /** A difficulty that passed the minimum. */
  type Difficulty = d: nat | d >= MIN_DIFF witness MIN_DIFF

  /** `task` numbers the client message that was recorded; the server does not keep it. */
  datatype Submission = Submission(minerId: MinerId, diff: Difficulty, nonce: nat,
                                   hashpower: nat, realHashpower: nat, task: nat)

  /** `clears` counts how often the submissions were emptied; the server does not keep it. */
  datatype Hashes = Hashes(challenge: Challenge, best: Option<Solution>, bestDiff: nat,
                           subs: map<Uuid, Submission>, clears: nat)

  /** What the four locks guard. */
  datatype Shared = Shared(nonce: nat, ranges: map<Uuid, seq<Range>>, hashes: Hashes, closed: bool)

  function Pow2(k: nat): (r: nat)
    ensures r >= 1
  {
    if k == 0 then 1 else 2 * Pow2(k - 1)
  }

  /** `MIN_HASHPOWER * 2u64.pow(diff - MIN_DIFF)` in wrapping u64 arithmetic. */
  function RealHashpower(diff: Difficulty): nat {
    Wrap64(MIN_HASHPOWER * Pow2(diff - MIN_DIFF))
  }

  function CappedHashpower(diff: Difficulty): nat {
    if RealHashpower(diff) > MAX_CALCULATED_HASHPOWER then MAX_CALCULATED_HASHPOWER else RealHashpower(diff)
  }

  // ---------- Range registration and lookup ----------

  predicate Contains(r: Range, n: nat) {
    r.start <= n < r.end
  }

  predicate InRanges(rs: seq<Range>, n: nat) {
    exists i :: 0 <= i < |rs| && Contains(rs[i], n)
  }

  /** The block is `start..start + SIZE - 1`, so its last nonce is never handed out. */
  function NextRange(nonce: nat): Range {
    Range(nonce, Wrap64(nonce + NONCE_RANGE_SIZE - 1))
  }

  /** Advance the u64 counter by one block. */
  function TakeNext(sh: Shared): Shared {
    sh.(nonce := Wrap64(sh.nonce + NONCE_RANGE_SIZE))
  }

  /** Register a block with one client. */
  function AddRange(sh: Shared, uuid: Uuid, block: Range): Shared {
    var rs := if uuid in sh.ranges then sh.ranges[uuid] else [];
    sh.(ranges := sh.ranges[uuid := rs + [block]])
  }

  /** Both, with nothing in between. */
  function Issue(sh: Shared, uuid: Uuid): Shared {
    AddRange(TakeNext(sh), uuid, NextRange(sh.nonce))
  }

  /** One block for each client in turn. */
  function IssueAll(sh: Shared, uuids: seq<Uuid>): Shared {
    if uuids == [] then sh else Issue(IssueAll(sh, uuids[..|uuids| - 1]), uuids[|uuids| - 1])
  }

  // ---------- Accepting a solution ----------

  function MakeSubmission(sol: Solution, miner: MinerId, diff: Difficulty, task: nat): Submission {
    Submission(miner, diff, sol.nonce, CappedHashpower(diff), RealHashpower(diff), task)
  }

  /** The write phase: record the submission, and keep it as the best if it beats the best. */
  function Record(e: Hashes, uuid: Uuid, sol: Solution, sub: Submission): Hashes {
    var e' := e.(subs := e.subs[uuid := sub]);
    if sub.diff > e.bestDiff then e'.(bestDiff := sub.diff, best := Some(sol)) else e'
  }

  /** The read phase: a client's earlier submission is only replaced by a harder one. */
  predicate Improves(e: Hashes, uuid: Uuid, diff: nat) {
    uuid in e.subs ==> diff > e.subs[uuid].diff
  }

  /** How one client message ends. */
  datatype Verdict = Late | RangeNotSet | OutOfRange | NoSocket | InvalidSolution | DiffTooLow | NotBetter | Recorded

  /** What becomes of a message that is handled from start to end without interruption. */
  function Judge(h: Hashing, sh: Shared, challenge: Challenge, uuid: Uuid, sol: Solution,
                 miner: Option<MinerId>): Verdict
  {
    if sh.closed then Late
    else if uuid !in sh.ranges then RangeNotSet
    else if !InRanges(sh.ranges[uuid], sol.nonce) then OutOfRange
    else if miner.None? then NoSocket
    else if !h.valid(sol, challenge) then InvalidSolution
    else if h.difficulty(sol) < MIN_DIFF then DiffTooLow
    else if !Improves(sh.hashes, uuid, h.difficulty(sol)) then NotBetter
    else Recorded
  }

  function AcceptWhole(h: Hashing, sh: Shared, challenge: Challenge, uuid: Uuid, sol: Solution,
                       miner: Option<MinerId>, task: nat): Shared {
    if Judge(h, sh, challenge, uuid, sol, miner) != Recorded then sh
    else sh.(hashes := Record(sh.hashes, uuid, sol, MakeSubmission(sol, miner.value, h.difficulty(sol), task)))
  }

  // ---------- The reset, one critical section at a time ----------

  const ZERO_COUNTER: nat := 0
  const CLEAR_RANGES: nat := 1
  const CLEAR_HASHES: nat := 2
  const OPEN_WINDOW: nat := 3

  /** Clearing the hashes; the failure path leaves the challenge as it was. */
  function ClearHashes(e: Hashes, challenge: Option<Challenge>): Hashes {
    Hashes(if challenge.Some? then challenge.value else e.challenge, None, 0, map[], e.clears + 1)
  }

  /** The four lock acquisitions every one of the five reset blocks makes, in order. */
  function ResetStep(sh: Shared, step: nat, challenge: Option<Challenge>): Shared
    requires step <= OPEN_WINDOW
  {
    if step == ZERO_COUNTER then sh.(nonce := 0)
    else if step == CLEAR_RANGES then sh.(ranges := map[])
    else if step == CLEAR_HASHES then sh.(hashes := ClearHashes(sh.hashes, challenge))
    else sh.(closed := false)
  }
}
