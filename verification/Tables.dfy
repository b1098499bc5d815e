/** The database tables the rewards ledger lives in, and the statements that change them. */
module Tables {
  import opened Wrappers
  import opened Epoch
  import opened Booking

  datatype Claim = Claim(miner: MinerId, amount: nat, at: int)

  /** Balances by miner, the pool's two totals, and the earnings and claims rows in insertion order. */
  datatype Db = Db(balances: Balances, totalRewards: nat, claimedRewards: nat,
                   earnings: seq<Credit>, claims: seq<Claim>)

  const MIN_CLAIM: nat := 2_000_000_000
  const ACCOUNT_FEE: nat := 2_000_000_000
  const COOLDOWN: int := 1800

  function EmptyDb(): Db {
    Db(map[], 0, 0, [], [])
  }

  function SignUp(db: Db, m: MinerId): Db {
    if m in db.balances then db else db.(balances := db.balances[m := 0])
  }

  function UpdateRewards(db: Db, batch: seq<Credit>): Db {
    db.(balances := BookBatch(db.balances, batch))
  }

  /** The unsigned column refuses to go below zero. */
  predicate CanDecrease(db: Db, m: MinerId, amount: nat) {
    m in db.balances ==> amount <= db.balances[m]
  }

  function DecreaseReward(db: Db, m: MinerId, amount: nat): Db
    requires CanDecrease(db, m, amount)
  {
    if m in db.balances then db.(balances := db.balances[m := db.balances[m] - amount]) else db
  }

  function UpdatePoolClaimed(db: Db, amount: nat): Db {
    db.(claimedRewards := db.claimedRewards + amount)
  }

  function UpdatePoolRewards(db: Db, amount: nat): Db {
    db.(totalRewards := db.totalRewards + amount)
  }

  function AddEarnings(db: Db, batch: seq<Credit>): Db {
    db.(earnings := db.earnings + batch)
  }

  function AddClaim(db: Db, c: Claim): Db {
    db.(claims := db.claims + [c])
  }

  /** `SELECT created_at FROM claims WHERE miner_id = ? ORDER BY id DESC`, first row. */
  function LastClaim(claims: seq<Claim>, m: MinerId): Option<Claim> {
    if claims == [] then None
    else if claims[|claims| - 1].miner == m then Some(claims[|claims| - 1])
    else LastClaim(claims[..|claims| - 1], m)
  }

  function ClaimedBy(claims: seq<Claim>, m: MinerId): nat {
    if claims == [] then 0
    else
      var last := claims[|claims| - 1];
      ClaimedBy(claims[..|claims| - 1], m) + (if last.miner == m then last.amount else 0)
  }

  // ---------- The two claim handlers ----------

  datatype Refusal = MinerNotFound | BelowMinimum | CoolingDown | AlreadyQueued | ExceedsBalance

  predicate StillCooling(db: Db, m: MinerId, now: int) {
    LastClaim(db.claims, m).Some? && now - LastClaim(db.claims, m).value.at <= COOLDOWN
  }

  /** Claim everything: the whole balance, less the account fee when the account has to be made. */
  function DirectClaim(db: Db, m: MinerId, needsAccount: bool, now: int): Result<nat, Refusal> {
    if m !in db.balances then Err(MinerNotFound)
    else if db.balances[m] < MIN_CLAIM then Err(BelowMinimum)
    else if StillCooling(db, m, now) then Err(CoolingDown)
    else Ok(if needsAccount then db.balances[m] - ACCOUNT_FEE else db.balances[m])
  }

  /** Claim a stated amount; the fee is checked but the full amount is queued. */
  function PostedClaim(db: Db, queue: map<MinerId, nat>, m: MinerId, amount: nat, now: int): Result<nat, Refusal> {
    if m in queue then Err(AlreadyQueued)
    else if amount < MIN_CLAIM then Err(BelowMinimum)
    else if m !in db.balances then Err(MinerNotFound)
    else if amount > db.balances[m] then Err(ExceedsBalance)
    else if StillCooling(db, m, now) then Err(CoolingDown)
    else Ok(amount)
  }

  /** Row `k` is the last claim of miner `m`. */
  predicate IsLastOf(claims: seq<Claim>, m: MinerId, k: int) {
    && 0 <= k < |claims| && claims[k].miner == m
    && forall j | k < j < |claims| :: claims[j].miner != m
  }

  /** There is no last claim exactly when the miner has none; otherwise it is the miner's own, and the miner
      has none after it. */
  lemma {:induction false} LastClaimIs(claims: seq<Claim>, m: MinerId)
    ensures LastClaim(claims, m).None? <==> forall k | 0 <= k < |claims| :: claims[k].miner != m
    ensures LastClaim(claims, m).Some? ==> exists k :: IsLastOf(claims, m, k) && claims[k] == LastClaim(claims, m).value
    decreases |claims|
  {
    if claims != [] {
      var n := |claims| - 1;
      if claims[n].miner == m {
        assert IsLastOf(claims, m, n);
      } else {
        LastClaimIs(claims[..n], m);
        assert forall k | 0 <= k < n :: claims[..n][k] == claims[k];
        if LastClaim(claims[..n], m).Some? {
          var k :| IsLastOf(claims[..n], m, k) && claims[..n][k] == LastClaim(claims[..n], m).value;
          assert IsLastOf(claims, m, k);
        }
      }
    }
  }

  predicate InTimeOrder(claims: seq<Claim>) {
    forall i, j | 0 <= i < j < |claims| :: claims[i].at <= claims[j].at
  }

  /** Some claim of miner `m` itself is at most half an hour old. */
  predicate ClaimedLately(claims: seq<Claim>, m: MinerId, now: int) {
    exists i :: 0 <= i < |claims| && claims[i].miner == m && now - claims[i].at <= 1800
  }

  /** With claims in time order, that is what keeps a miner waiting, and nothing else. */
  lemma CoolingExactly(db: Db, m: MinerId, now: int)
    requires InTimeOrder(db.claims)
    ensures StillCooling(db, m, now) <==> ClaimedLately(db.claims, m, now)
  {
    LastClaimIs(db.claims, m);
    if LastClaim(db.claims, m).Some? {
      var k :| IsLastOf(db.claims, m, k) && db.claims[k] == LastClaim(db.claims, m).value;
      if i :| 0 <= i < |db.claims| && db.claims[i].miner == m && now - db.claims[i].at <= 1800 {
        assert i <= k && db.claims[i].at <= db.claims[k].at;
      } else {
        assert now - db.claims[k].at > 1800;
      }
    }
  }

  /** With claims in time order, no claim of the miner is later than its last. */
  lemma LastClaimIsLatest(claims: seq<Claim>, m: MinerId)
    requires InTimeOrder(claims)
    ensures forall i | 0 <= i < |claims| && claims[i].miner == m ::
              LastClaim(claims, m).Some? && claims[i].at <= LastClaim(claims, m).value.at
  {
    LastClaimIs(claims, m);
  }
}
