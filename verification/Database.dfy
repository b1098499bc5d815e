/** The database object: every operation changes its tables in place, as one SQL statement does. */
module Database {
  import opened Wrappers
  import opened Epoch
  import opened Booking
  import opened MineSuccess
  import opened Tables

  function EarningCredits(es: seq<Earning>): seq<Credit> {
    seq(|es|, i requires 0 <= i < |es| => Credit(es[i].minerId, es[i].amount))
  }

  /** How one reward update ends: no connection or a broken one, a statement that failed, or one that ran. */
  datatype Attempt = Unreachable | StatementFailed | Ran

  lemma EarningCreditsAppend(a: seq<Earning>, b: seq<Earning>)
    ensures EarningCredits(a + b) == EarningCredits(a) + EarningCredits(b)
  {
  }

  class AppDatabase {
    var balances: Balances
    var totalRewards: nat
    var claimedRewards: nat
    var earnings: seq<Earning>
    var claims: seq<Claim>
    var submissions: seq<SubmissionRow>

    /** The tables the ledger is about, each earnings row cut down to miner and amount. */
    function View(): Db
      reads this
    {
      Db(balances, totalRewards, claimedRewards, EarningCredits(earnings), claims)
    }

    constructor ()
      ensures View() == EmptyDb() && submissions == []
      ensures balances == map[] && totalRewards == 0 && claimedRewards == 0 && earnings == [] && claims == []
    {
      balances, totalRewards, claimedRewards, earnings, claims, submissions := map[], 0, 0, [], [], [];
    }

    method SignupUser(m: MinerId)
      modifies this`balances
      ensures View() == SignUp(old(View()), m)
      ensures balances == if m in old(balances) then old(balances) else old(balances)[m := 0]
    {
      if m !in balances {
        balances := balances[m := 0];
      }
    }

    /** Union all rows, sum them per miner, and add each sum to the row it joins. A statement that failed
        answers success like one that ran. */
    method UpdateRewards(batch: seq<Credit>, attempt: Attempt) returns (ok: bool)
      modifies this`balances
      ensures ok <==> !attempt.Unreachable?
      ensures View() == if attempt.Ran? then Tables.UpdateRewards(old(View()), batch) else old(View())
      ensures attempt.Ran? ==> balances == OneByOne(old(balances), batch)
    {
      if attempt.Unreachable? {
        return false;
      }
      if attempt.StatementFailed? {
        return true;
      }
      BatchIsOwed(balances, batch);
      OneByOneIsOwed(balances, batch);
      var grouped: Balances := map[];
      for k := 0 to |batch|
        invariant grouped == Grouped(batch[..k])
      {
        var c := batch[k];
        assert batch[..k + 1][..k] == batch[..k];
        grouped := grouped[c.miner := (if c.miner in grouped then grouped[c.miner] else 0) + c.amount];
      }
      assert batch[..|batch|] == batch;
      balances := map m | m in balances :: if m in grouped then balances[m] + grouped[m] else balances[m];
      return true;
    }

    /** The unsigned balance column refuses a debit it cannot cover; then nothing changes. */
    method DecreaseMinerReward(m: MinerId, amount: nat) returns (ok: bool)
      modifies this`balances
      ensures ok <==> CanDecrease(old(View()), m, amount)
      ensures View() == if ok then DecreaseReward(old(View()), m, amount) else old(View())
      ensures ok <==> m !in old(balances) || amount <= old(balances)[m]
      ensures balances == if ok && m in old(balances) then old(balances)[m := old(balances)[m] - amount]
                          else old(balances)
    {
      if m in balances {
        if amount > balances[m] {
          return false;
        }
        balances := balances[m := balances[m] - amount];
      }
      return true;
    }

    method UpdatePoolClaimed(amount: nat)
      modifies this`claimedRewards
      ensures View() == Tables.UpdatePoolClaimed(old(View()), amount)
      ensures claimedRewards == old(claimedRewards) + amount
    {
      claimedRewards := claimedRewards + amount;
    }

    method UpdatePoolRewards(amount: nat)
      modifies this`totalRewards
      ensures View() == Tables.UpdatePoolRewards(old(View()), amount)
      ensures totalRewards == old(totalRewards) + amount
    {
      totalRewards := totalRewards + amount;
    }

    method AddNewEarningsBatch(batch: seq<Earning>)
      modifies this`earnings
      ensures View() == AddEarnings(old(View()), EarningCredits(batch))
      ensures earnings == old(earnings) + batch
    {
      EarningCreditsAppend(earnings, batch);
      earnings := earnings + batch;
    }

    method AddNewSubmissionsBatch(batch: seq<SubmissionRow>)
      modifies this`submissions
      ensures submissions == old(submissions) + batch
    {
      submissions := submissions + batch;
    }

    method AddNewClaim(m: MinerId, amount: nat, now: int)
      modifies this`claims
      ensures View() == AddClaim(old(View()), Claim(m, amount, now))
      ensures claims == old(claims) + [Claim(m, amount, now)]
    {
      claims := claims + [Claim(m, amount, now)];
    }

    /** The latest claim of a miner is the last one inserted. */
    method GetLastClaim(m: MinerId) returns (last: Option<Claim>)
      ensures last == LastClaim(claims, m)
      ensures last.None? <==> forall k | 0 <= k < |claims| :: claims[k].miner != m
      ensures last.Some? ==> exists k :: IsLastOf(claims, m, k) && claims[k] == last.value
    {
      LastClaimIs(claims, m);
      var k := |claims|;
      assert claims[..k] == claims;
      while k > 0
        invariant 0 <= k <= |claims|
        invariant LastClaim(claims, m) == LastClaim(claims[..k], m)
      {
        k := k - 1;
        assert claims[..k + 1][..k] == claims[..k];
        if claims[k].miner == m {
          return Some(claims[k]);
        }
      }
      return None;
    }
  }
}
