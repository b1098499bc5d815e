/** The claims queue, the two handlers that fill it and the worker that empties it. */
module ClaimDesk {
  import opened Wrappers
  import opened Epoch
  import opened Tables
  import opened Database

  class ClaimsQueue {
    var queue: map<MinerId, nat>

    constructor ()
      ensures queue == map[]
    {
      queue := map[];
    }

    /** Claim the whole balance. A queued claim of the same miner is overwritten. */
    method ClaimDirect(db: AppDatabase, m: MinerId, needsAccount: bool, now: int) returns (r: Result<nat, Refusal>)
      modifies this
      ensures r == DirectClaim(db.View(), m, needsAccount, now)
      ensures queue == if r.Ok? then old(queue)[m := r.value] else old(queue)
      ensures InTimeOrder(db.claims) ==>
                (r.Ok? <==> m in db.balances && db.balances[m] >= 2_000_000_000 && !ClaimedLately(db.claims, m, now))
      ensures r.Ok? ==> m in queue && queue[m] + (if needsAccount then 2_000_000_000 else 0) == db.balances[m]
      ensures r.Err? ==>
                r.error == if m !in db.balances then MinerNotFound
                           else if db.balances[m] < 2_000_000_000 then BelowMinimum else CoolingDown
    {
      if InTimeOrder(db.claims) {
        CoolingExactly(db.View(), m, now);
      }
      if m !in db.balances {
        return Err(MinerNotFound);
      }
      var balance := db.balances[m];
      if balance < MIN_CLAIM {
        return Err(BelowMinimum);
      }
      var last := db.GetLastClaim(m);
      if last.Some? {
        if now - last.value.at <= COOLDOWN {
          return Err(CoolingDown);
        }
      }
      var amount := balance;
      if needsAccount {
        amount := amount - ACCOUNT_FEE;
      }
      queue := queue[m := amount];
      return Ok(amount);
    }

    /** Claim a stated amount; only one claim of a miner may be queued this way. */
    method PostClaim(db: AppDatabase, m: MinerId, amount: nat, needsAccount: bool, now: int)
      returns (r: Result<nat, Refusal>)
      modifies this
      ensures r == PostedClaim(db.View(), old(queue), m, amount, now)
      ensures queue == if r.Ok? then old(queue)[m := amount] else old(queue)
      ensures InTimeOrder(db.claims) ==>
                (r.Ok? <==> m !in old(queue) && 2_000_000_000 <= amount && m in db.balances
                            && amount <= db.balances[m] && !ClaimedLately(db.claims, m, now))
      ensures r.Err? ==>
                r.error == if m in old(queue) then AlreadyQueued
                           else if amount < 2_000_000_000 then BelowMinimum
                           else if m !in db.balances then MinerNotFound
                           else if amount > db.balances[m] then ExceedsBalance else CoolingDown
    {
      if InTimeOrder(db.claims) {
        CoolingExactly(db.View(), m, now);
      }
      if m in queue {
        return Err(AlreadyQueued);
      }
      if amount < MIN_CLAIM {
        return Err(BelowMinimum);
      }
      if m !in db.balances {
        return Err(MinerNotFound);
      }
      if amount > db.balances[m] {
        return Err(ExceedsBalance);
      }
      var last := db.GetLastClaim(m);
      if last.Some? {
        if now - last.value.at <= COOLDOWN {
          return Err(CoolingDown);
        }
      }
      var claimAmount := amount;
      if needsAccount {
        claimAmount := claimAmount - ACCOUNT_FEE;
      }
      queue := queue[m := amount];
      return Ok(amount);
    }
  }

  /** What the RPC node answers while one claim is worked off. */
  datatype Answers = Answers(needsAccount: bool, blockhash: bool, finalised: bool)

  datatype Served = Unaffordable | NoBlockhash | NotFinalised | DebitRefused | Served(payment: nat)

  /** One turn of the worker on the item it picked, nothing interfering. The payment may be short of the
      account fee, but the full queued amount is debited, counted and recorded. */
  method ServeOne(db: AppDatabase, q: ClaimsQueue, m: MinerId, a: Answers, now: int) returns (s: Served)
    requires m in q.queue
    modifies db, q
    ensures var amount := old(q.queue)[m];
            var fee := if a.needsAccount then 2_000_000_000 else 0;
            && (s.Unaffordable? <==> amount < fee)
            && (s.NoBlockhash? <==> amount >= fee && !a.blockhash)
            && (s.NotFinalised? <==> amount >= fee && a.blockhash && !a.finalised)
            && (s.DebitRefused? <==>
                  amount >= fee && a.blockhash && a.finalised && m in old(db.balances) && amount > old(db.balances)[m])
            && (s.Served? ==> s.payment + fee == amount)
            && (!s.Served? ==> db.View() == old(db.View()))
            && q.queue == (if s.NotFinalised? || s.DebitRefused? then old(q.queue) else old(q.queue) - {m})
    ensures s.Served? ==>
              var amount := old(q.queue)[m];
              && (m in old(db.balances) ==> amount <= old(db.balances)[m])
              && db.balances == (if m in old(db.balances) then old(db.balances)[m := old(db.balances)[m] - amount]
                                 else old(db.balances))
              && db.claimedRewards == old(db.claimedRewards) + amount
              && db.claims == old(db.claims) + [Claim(m, amount, now)]
              && db.totalRewards == old(db.totalRewards) && db.earnings == old(db.earnings)
  {
    var amount := q.queue[m];
    var claimAmount := amount;
    if a.needsAccount {
      if claimAmount >= ACCOUNT_FEE {
        claimAmount := claimAmount - ACCOUNT_FEE;
      } else {
        q.queue := q.queue - {m};
        return Unaffordable;
      }
    }
    if !a.blockhash {
      q.queue := q.queue - {m};
      return NoBlockhash;
    }
    if !a.finalised {
      return NotFinalised;
    }
    var ok := db.DecreaseMinerReward(m, amount);
    if !ok {
      return DebitRefused;
    }
    db.UpdatePoolClaimed(amount);
    db.AddNewClaim(m, amount, now);
    q.queue := q.queue - {m};
    return Served(claimAmount);
  }
}
