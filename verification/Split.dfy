/** The reward split: commission, hashpower totals and the nested floor divisions of each share. */
module Split {
  import opened Words
  import opened Epoch
  import opened Sums

  const PARTS: nat := 1_000_000

  /** `full_rewards.mul(5).saturating_div(100)` in wrapping u64 arithmetic. */
  function Commission(full: nat): nat {
    Wrap64(full * 5) / 100
  }

  /** A miner's share in the server's arithmetic: saturating u128, then truncated to u64. */
  function Earned(power: nat, total: nat, rewards: nat): nat
    requires total > 0
  {
    Wrap64(Saturate128(Saturate128(power * PARTS) / total * rewards) / PARTS)
  }

  /** Parts per million of the total, rounded down. */
  function PerMillion(power: nat, total: nat): nat
    requires total > 0
  {
    power * PARTS / total
  }

  function Share(power: nat, total: nat, rewards: nat): nat
    requires total > 0
  {
    PerMillion(power, total) * rewards / PARTS
  }

  // ---------- No overflow, truncation or division by zero ----------

  lemma DivBounds(a: nat, b: nat)
    requires b > 0
    ensures a / b * b <= a < a / b * b + b
  {
  }

  lemma PerMillionBounds(power: nat, total: nat)
    requires total > 0
    ensures total * PerMillion(power, total) <= power * PARTS
    ensures power * PARTS <= total * PerMillion(power, total) + total - 1
    ensures power <= total ==> PerMillion(power, total) <= PARTS
  {
    DivBounds(power * PARTS, total);
    if power <= total {
      MulMono(power, total, PARTS);
      Cancel(total, PerMillion(power, total), PARTS);
    }
  }

  lemma MulMono(a: nat, b: nat, c: nat)
    requires a <= b
    ensures a * c <= b * c
  {
  }

  lemma ShareBounds(power: nat, total: nat, rewards: nat)
    requires total > 0
    ensures PARTS * Share(power, total, rewards) <= PerMillion(power, total) * rewards
    ensures PerMillion(power, total) * rewards <= PARTS * Share(power, total, rewards) + PARTS - 1
    ensures power <= total ==> Share(power, total, rewards) <= rewards
  {
    var x := PerMillion(power, total) * rewards;
    DivBounds(x, PARTS);
    PerMillionBounds(power, total);
    if power <= total {
      MulMono(PerMillion(power, total), PARTS, rewards);
    }
  }

  /** For a part of a total that fits u64, and rewards that do, the server's arithmetic is exact: nothing
      saturates, and the final cast to u64 loses nothing. */
  lemma EarnedExact(power: nat, total: nat, rewards: nat)
    requires 0 < total <= U64_MAX && power <= total && rewards <= U64_MAX
    ensures Earned(power, total, rewards) == Share(power, total, rewards) <= rewards
  {
    PerMillionBounds(power, total);
    ShareBounds(power, total, rewards);
    MulMono(PerMillion(power, total), PARTS, rewards);
  }

  /** The commission is the exact five per cent, rounded down, exactly up to a fifth of the u64 range;
      beyond it the product wraps, and the commission still never exceeds a hundredth of the range. */
  lemma CommissionExact(full: nat)
    requires full <= U64_MAX
    ensures Commission(full) == full * 5 / 100 <==> full <= U64_MAX / 5
    ensures Commission(full) <= full && Commission(full) <= U64_MAX / 100
  {
  }

  lemma {:induction false} Pow2Add(a: nat, b: nat)
    ensures Pow2(a + b) == Pow2(a) * Pow2(b)
    decreases b
  {
    if b > 0 {
      Pow2Add(a, b - 1);
    }
  }

  lemma Pow2At57()
    ensures Pow2(57) == 0x200_0000_0000_0000
  {
    assert Pow2(8) == 256;
    Pow2Add(8, 8);
    Pow2Add(16, 16);
    Pow2Add(32, 16);
    Pow2Add(48, 8);
    Pow2Add(56, 1);
  }

  lemma {:induction false} Pow2Mono(a: nat, b: nat)
    requires a <= b
    ensures Pow2(a) <= Pow2(b)
    decreases b
  {
    if a < b {
      Pow2Mono(a, b - 1);
    }
  }

  lemma CapAt24(diff: Difficulty)
    ensures diff <= 24 <==> 80 * Pow2(diff - 12) <= 327_680
  {
    assert Pow2(6) == 64;
    Pow2Add(6, 6);
    if diff <= 24 {
      Pow2Mono(diff - 12, 12);
    } else {
      Pow2Mono(13, diff - 12);
    }
  }

  /** Recorded hashpower is the exact power of two exactly up to difficulty 69; there it is at least 80, and
      the capped one stands still from difficulty 24 on. */
  lemma HashpowerExact(diff: Difficulty)
    ensures RealHashpower(diff) == MIN_HASHPOWER * Pow2(diff - MIN_DIFF) <==> diff <= 69
    ensures diff <= 69 ==> 80 <= CappedHashpower(diff) <= RealHashpower(diff)
    ensures diff <= 69 ==> CappedHashpower(diff) == if diff <= 24 then 80 * Pow2(diff - 12) else 327_680
  {
    Pow2At57();
    CapAt24(diff);
    if diff <= 69 {
      Pow2Mono(diff - MIN_DIFF, 57);
    } else {
      Pow2Mono(58, diff - MIN_DIFF);
    }
  }

  // ---------- Fairness ----------

  /** More hashpower never earns less. */
  lemma ShareMonotone(power: nat, power': nat, total: nat, rewards: nat)
    requires total > 0 && power <= power'
    ensures Share(power, total, rewards) <= Share(power', total, rewards)
  {
    DivMono(power * PARTS, power' * PARTS, total);
    MulMono(PerMillion(power, total), PerMillion(power', total), rewards);
    DivMono(PerMillion(power, total) * rewards, PerMillion(power', total) * rewards, PARTS);
  }

  lemma DivMono(a: nat, b: nat, c: nat)
    requires a <= b && c > 0
    ensures a / c <= b / c
  {
    DivBounds(a, c);
    DivBounds(b, c);
    if a / c > b / c {
      MulMono(b / c + 1, a / c, c);
    }
  }

  /** A higher difficulty never earns less. */
  lemma HigherDifficultyEarnsNoLess(diff: Difficulty, diff': Difficulty, total: nat, rewards: nat)
    requires diff <= diff' <= 69 && total > 0
    ensures Share(RealHashpower(diff), total, rewards) <= Share(RealHashpower(diff'), total, rewards)
  {
    HashpowerExact(diff);
    HashpowerExact(diff');
    Pow2Mono(diff - MIN_DIFF, diff' - MIN_DIFF);
    ShareMonotone(RealHashpower(diff), RealHashpower(diff'), total, rewards);
  }

  /** No payout exceeds the exact proportional share. */
  lemma ShareAtMostProportional(power: nat, total: nat, rewards: nat)
    requires total > 0
    ensures Share(power, total, rewards) * total <= power * rewards
  {
    var s, p := Share(power, total, rewards), PerMillion(power, total);
    ShareBounds(power, total, rewards);
    PerMillionBounds(power, total);
    MulMono(PARTS * s, p * rewards, total);
    MulMono(total * p, power * PARTS, rewards);
    assert PARTS * s * total == PARTS * (s * total);
    assert p * rewards * total == total * p * rewards;
    assert power * PARTS * rewards == PARTS * (power * rewards);
    assert PARTS * (s * total) <= PARTS * (power * rewards);
  }

  lemma FloorsAddUp(a: nat, b: nat, c: nat)
    requires c > 0
    ensures a / c + b / c <= (a + b) / c
  {
    var x, p := Floor(a, c);
    var y, q := Floor(b, c);
    var z, r := Floor(a + b, c);
    MultiplesAddUp(x, y, z, c, p, q, r);
  }

  /** The quotient, and the greatest multiple of `c` up to `a`. */
  lemma Floor(a: nat, c: nat) returns (x: nat, p: nat)
    requires c > 0
    ensures x == a / c && p == x * c && p <= a < p + c
  {
    x, p := a / c, a / c * c;
    DivBounds(a, c);
  }

  /** Multiples `p` and `q` of `c` that together fall short of the next multiple after `r`. */
  lemma MultiplesAddUp(x: nat, y: nat, z: nat, c: nat, p: nat, q: nat, r: nat)
    requires c > 0 && p == x * c && q == y * c && r == z * c && p + q < r + c
    ensures x + y <= z
  {
    Distribute(c, x, y);
    Distribute(c, z, 1);
    CancelStrict(c, x + y, z + 1);
  }

  /** Splitting one's hashpower over two submissions never pays more. */
  lemma SplittingNeverPays(power: nat, power': nat, total: nat, rewards: nat)
    requires total > 0
    ensures Share(power, total, rewards) + Share(power', total, rewards) <= Share(power + power', total, rewards)
  {
    var p, p', q := PerMillion(power, total), PerMillion(power', total), PerMillion(power + power', total);
    assert power * PARTS + power' * PARTS == (power + power') * PARTS;
    FloorsAddUp(power * PARTS, power' * PARTS, total);
    MulMono(p + p', q, rewards);
    assert (p + p') * rewards == p * rewards + p' * rewards;
    FloorsAddUp(p * rewards, p' * rewards, PARTS);
    DivMono(p * rewards + p' * rewards, q * rewards, PARTS);
  }

  // ---------- The whole split ----------

  function Shares(powers: seq<nat>, total: nat, rewards: nat): (r: seq<nat>)
    requires total > 0
    ensures |r| == |powers|
  {
    seq(|powers|, i requires 0 <= i < |powers| => Share(powers[i], total, rewards))
  }

  function PerMillions(powers: seq<nat>, total: nat): seq<nat>
    requires total > 0
  {
    seq(|powers|, i requires 0 <= i < |powers| => PerMillion(powers[i], total))
  }

  /** The first rounding loses less than one part per submission. */
  lemma {:induction false} PartsSum(powers: seq<nat>, total: nat)
    requires total > 0
    ensures var n, p, h := |powers|, Total(PerMillions(powers, total)), Total(powers);
            total * p <= PARTS * h <= total * p + n * (total - 1)
    decreases |powers|
  {
    if powers != [] {
      var m := |powers| - 1;
      var last, init := powers[m], powers[..m];
      PartsSum(init, total);
      assert PerMillions(powers, total)[..m] == PerMillions(init, total);
      PerMillionBounds(last, total);
      PartsSnoc(total, Total(PerMillions(init, total)), PerMillion(last, total), Total(init), last, m);
    }
  }

  lemma PartsSnoc(total: nat, p: nat, q: nat, h: nat, x: nat, m: nat)
    requires total > 0
    requires total * p <= PARTS * h <= total * p + m * (total - 1)
    requires total * q <= PARTS * x <= total * q + total - 1
    ensures total * (p + q) <= PARTS * (h + x) <= total * (p + q) + (m + 1) * (total - 1)
  {
    Distribute(total, p, q);
    Distribute(total - 1, m, 1);
  }

  /** The second rounding loses less than one unit per submission. */
  lemma {:induction false} SharesSum(powers: seq<nat>, total: nat, rewards: nat)
    requires total > 0
    ensures var n, p, e := |powers|, Total(PerMillions(powers, total)), Total(Shares(powers, total, rewards));
            PARTS * e <= rewards * p <= PARTS * e + n * (PARTS - 1)
    decreases |powers|
  {
    if powers != [] {
      var m := |powers| - 1;
      var last, init := powers[m], powers[..m];
      SharesSum(init, total, rewards);
      assert PerMillions(powers, total)[..m] == PerMillions(init, total);
      assert Shares(powers, total, rewards)[..m] == Shares(init, total, rewards);
      ShareBounds(last, total, rewards);
      Distribute(rewards, Total(PerMillions(init, total)), PerMillion(last, total));
    }
  }

  lemma Distribute(a: nat, b: nat, c: nat)
    ensures a * (b + c) == a * b + a * c
  {
  }

  lemma Cancel(a: nat, b: int, c: int)
    requires a > 0 && a * b <= a * c
    ensures b <= c
  {
    assert a * (c + 1) == a * c + a;
    CancelStrict(a, b, c + 1);
  }

  lemma CancelStrict(a: nat, b: int, c: int)
    requires a > 0 && a * b < a * c
    ensures b < c
  {
  }

  /** Nothing is overpaid, and with `n` submissions fewer than `n` millionths of the rewards and `n` units
      stay behind. The bound is a little tighter than that. */
  lemma SplitIsBounded(powers: seq<nat>, rewards: nat)
    requires powers != [] && Total(powers) > 0
    ensures var n, e := |powers|, Total(Shares(powers, Total(powers), rewards));
            && e <= rewards
            && PARTS * (rewards - e) <= (n - 1) * rewards + n * (PARTS - 1)
            && PARTS * (rewards - e) < n * (rewards + PARTS)
  {
    var total, n := Total(powers), |powers|;
    var p, e := Total(PerMillions(powers, total)), Total(Shares(powers, total, rewards));
    PartsSum(powers, total);
    SharesSum(powers, total, rewards);
    PartsLost(n, total, p);
    RewardsLost(n, rewards, p, e);
  }

  /** The parts per million handed out miss one million by less than one part per submission. */
  lemma PartsLost(n: nat, total: nat, p: nat)
    requires n > 0 && total > 0
    requires total * p <= PARTS * total <= total * p + n * (total - 1)
    ensures PARTS - n + 1 <= p <= PARTS
  {
    Cancel(total, p, PARTS);
    assert n * (total - 1) == total * n - n;
    assert total * (PARTS - n) == total * PARTS - total * n;
    CancelStrict(total, PARTS - n, p);
  }

  lemma RewardsLost(n: nat, rewards: nat, p: nat, e: nat)
    requires n > 0 && PARTS - n + 1 <= p <= PARTS
    requires PARTS * e <= rewards * p <= PARTS * e + n * (PARTS - 1)
    ensures e <= rewards
    ensures PARTS * (rewards - e) <= (n - 1) * rewards + n * (PARTS - 1)
    ensures PARTS * (rewards - e) < n * (rewards + PARTS)
  {
    MulMono(p, PARTS, rewards);
    AtLeast(rewards, PARTS - n + 1, p);
    Distribute'(rewards, PARTS, n - 1);
    Distribute'(rewards, n, 1);
    Combine(n, rewards, e, rewards * p, rewards * n);
    Distribute(n, rewards, PARTS);
  }

  lemma Distribute'(a: nat, b: int, c: int)
    ensures a * (b - c) == a * b - a * c
  {
  }

  lemma AtLeast(a: nat, b: int, c: int)
    requires b <= c
    ensures a * b <= a * c
  {
  }

  lemma Combine(n: nat, rewards: nat, e: nat, a: int, c: int)
    requires PARTS * rewards - (c - rewards) <= a <= PARTS * rewards
    requires PARTS * e <= a <= PARTS * e + n * (PARTS - 1)
    ensures e <= rewards
    ensures PARTS * (rewards - e) <= c - rewards + n * (PARTS - 1)
  {
  }
}
