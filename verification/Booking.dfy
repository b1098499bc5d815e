/** Booking a list of rewards: entry by entry, or in batches joined on the sum per miner. */
module Booking {
  import opened Epoch
  import opened Sums

  /** One entry of a reward or earnings list. */
  datatype Credit = Credit(miner: MinerId, amount: nat)

  type Balances = map<MinerId, nat>

  const BATCH: nat := 200

  // ---------- Two ways to book ----------

  function CreditOne(table: Balances, c: Credit): Balances {
    if c.miner in table then table[c.miner := table[c.miner] + c.amount] else table
  }

  function OneByOne(table: Balances, cs: seq<Credit>): Balances {
    if cs == [] then table else CreditOne(OneByOne(table, cs[..|cs| - 1]), cs[|cs| - 1])
  }

  /** `SELECT miner_id, SUM(balance) ... GROUP BY miner_id`. */
  function Grouped(cs: seq<Credit>): Balances {
    if cs == [] then map[]
    else
      var g := Grouped(cs[..|cs| - 1]);
      var c := cs[|cs| - 1];
      g[c.miner := (if c.miner in g then g[c.miner] else 0) + c.amount]
  }

  /** `UPDATE rewards r JOIN grouped ... SET r.balance = r.balance + grouped.total_balance`. */
  function JoinUpdate(table: Balances, grouped: Balances): Balances {
    map m | m in table :: if m in grouped then table[m] + grouped[m] else table[m]
  }

  function BookBatch(table: Balances, cs: seq<Credit>): Balances {
    JoinUpdate(table, Grouped(cs))
  }

  function BookAll(table: Balances, batches: seq<seq<Credit>>): Balances {
    if batches == [] then table else BookBatch(BookAll(table, batches[..|batches| - 1]), batches[|batches| - 1])
  }

  /** `slice::chunks(size)`. */
  function Chunks<T>(xs: seq<T>, size: nat): seq<seq<T>>
    requires size > 0
    decreases |xs|
  {
    if xs == [] then []
    else if |xs| <= size then [xs]
    else [xs[..size]] + Chunks(xs[size..], size)
  }

  function Concat<T>(xss: seq<seq<T>>): seq<T> {
    if xss == [] then [] else Concat(xss[..|xss| - 1]) + xss[|xss| - 1]
  }

  // ---------- What a list owes ----------

  /** All of a miner's entries together. */
  function SumFor(cs: seq<Credit>, m: MinerId): nat {
    if cs == [] then 0
    else SumFor(cs[..|cs| - 1], m) + (if cs[|cs| - 1].miner == m then cs[|cs| - 1].amount else 0)
  }

  function SumAll(cs: seq<Credit>): nat {
    if cs == [] then 0 else SumAll(cs[..|cs| - 1]) + cs[|cs| - 1].amount
  }

  /** Every row grows by exactly what the list owes its miner; nobody else gains a row. */
  function Owed(table: Balances, cs: seq<Credit>): Balances {
    map m | m in table :: table[m] + SumFor(cs, m)
  }

  lemma {:induction false} GroupedIsSum(cs: seq<Credit>, m: MinerId)
    ensures (if m in Grouped(cs) then Grouped(cs)[m] else 0) == SumFor(cs, m)
    decreases |cs|
  {
    if cs != [] {
      GroupedIsSum(cs[..|cs| - 1], m);
    }
  }

  lemma BatchIsOwed(table: Balances, cs: seq<Credit>)
    ensures BookBatch(table, cs) == Owed(table, cs)
  {
    forall m | m in table
      ensures BookBatch(table, cs)[m] == Owed(table, cs)[m]
    {
      GroupedIsSum(cs, m);
    }
  }

  lemma {:induction false} OneByOneIsOwed(table: Balances, cs: seq<Credit>)
    ensures OneByOne(table, cs) == Owed(table, cs)
    decreases |cs|
  {
    if cs == [] {
      assert Owed(table, cs) == table;
    } else {
      OneByOneIsOwed(table, cs[..|cs| - 1]);
    }
  }

  lemma {:induction false} SumForAppend(a: seq<Credit>, b: seq<Credit>, m: MinerId)
    ensures SumFor(a + b, m) == SumFor(a, m) + SumFor(b, m)
    decreases |b|
  {
    if b == [] {
      assert a + b == a;
    } else {
      var n := |b| - 1;
      SumForAppend(a, b[..n], m);
      assert (a + b)[..|a| + n] == a + b[..n];
    }
  }

  lemma {:induction false} SumAllAppend(a: seq<Credit>, b: seq<Credit>)
    ensures SumAll(a + b) == SumAll(a) + SumAll(b)
    decreases |b|
  {
    if b == [] {
      assert a + b == a;
    } else {
      var n := |b| - 1;
      SumAllAppend(a, b[..n]);
      assert (a + b)[..|a| + n] == a + b[..n];
    }
  }

  // ---------- Batches refine single entries ----------

  /** However a list is cut into batches, booking them is booking its entries one by one. */
  lemma {:induction false} BatchesRefineEntries(table: Balances, batches: seq<seq<Credit>>)
    ensures BookAll(table, batches) == OneByOne(table, Concat(batches))
    decreases |batches|
  {
    OneByOneIsOwed(table, Concat(batches));
    if batches == [] {
      assert Owed(table, Concat(batches)) == table;
    } else {
      var init, last := batches[..|batches| - 1], batches[|batches| - 1];
      BatchesRefineEntries(table, init);
      OneByOneIsOwed(table, Concat(init));
      BatchIsOwed(BookAll(table, init), last);
      forall m | m in table
        ensures BookAll(table, batches)[m] == Owed(table, Concat(batches))[m]
      {
        SumForAppend(Concat(init), last, m);
      }
    }
  }

  lemma {:induction false} ConcatCons<T>(x: seq<T>, xss: seq<seq<T>>)
    ensures Concat([x] + xss) == x + Concat(xss)
    decreases |xss|
  {
    if xss == [] {
      assert ([x] + xss)[..0] == [];
    } else {
      ConcatCons(x, xss[..|xss| - 1]);
      assert ([x] + xss)[..|xss|] == [x] + xss[..|xss| - 1];
    }
  }

  lemma {:induction false} ChunksCover<T>(xs: seq<T>, size: nat)
    requires size > 0
    ensures Concat(Chunks(xs, size)) == xs
    ensures forall i | 0 <= i < |Chunks(xs, size)| :: 0 < |Chunks(xs, size)[i]| <= size
    decreases |xs|
  {
    if xs != [] {
      if |xs| <= size {
        assert [xs][..0] == [];
      } else {
        ChunksCover(xs[size..], size);
        ConcatCons(xs[..size], Chunks(xs[size..], size));
        assert xs == xs[..size] + xs[size..];
      }
    }
  }

  lemma {:induction false} SumForByContents(a: seq<Credit>, b: seq<Credit>, m: MinerId)
    requires multiset(a) == multiset(b)
    ensures SumFor(a, m) == SumFor(b, m)
    decreases |a|
  {
    if a == [] {
      assert |b| == |multiset(b)| == 0;
    } else {
      var n := |a| - 1;
      var c := a[n];
      assert c in multiset(b);
      var j :| 0 <= j < |b| && b[j] == c;
      var b' := b[..j] + b[j + 1..];
      assert a == a[..n] + [c];
      assert b == b[..j] + [c] + b[j + 1..];
      assert multiset(a) == multiset(a[..n]) + multiset{c};
      assert multiset(b) == multiset(b[..j]) + multiset{c} + multiset(b[j + 1..]);
      assert multiset(b') == multiset(b[..j]) + multiset(b[j + 1..]);
      assert multiset(b) == multiset(b') + multiset{c};
      assert multiset(a[..n]) == multiset(a) - multiset{c};
      assert multiset(b') == multiset(b) - multiset{c};
      SumForByContents(a[..n], b', m);
      SumForAppend(b[..j], b[j + 1..], m);
      SumForAppend(b[..j] + [c], b[j + 1..], m);
      SumForAppend(b[..j], [c], m);
      assert [c][..0] == [];
    }
  }

  /** What a list owes does not depend on its order. */
  lemma OwedByContents(table: Balances, a: seq<Credit>, b: seq<Credit>)
    requires multiset(a) == multiset(b)
    ensures Owed(table, a) == Owed(table, b)
  {
    forall m | m in table
      ensures SumFor(a, m) == SumFor(b, m)
    {
      SumForByContents(a, b, m);
    }
  }

  /** Cutting a reward list with repeated miners into chunks of any size and applying the grouped join
      to each, whatever order a map handed the entries out in, is crediting the entries singly. */
  lemma ChunkedBookingRefines(table: Balances, cs: seq<Credit>, walked: seq<Credit>, size: nat)
    requires size > 0 && multiset(walked) == multiset(cs)
    ensures BookAll(table, Chunks(walked, size)) == OneByOne(table, cs) == Owed(table, cs)
  {
    ChunksCover(walked, size);
    BatchesRefineEntries(table, Chunks(walked, size));
    OneByOneIsOwed(table, walked);
    OneByOneIsOwed(table, cs);
    OwedByContents(table, walked, cs);
  }

  // ---------- What booking does to the sum of all balances ----------

  lemma {:induction false} BookingAddsUp(table: Balances, cs: seq<Credit>)
    requires forall i | 0 <= i < |cs| :: cs[i].miner in table
    ensures SumOver(BookBatch(table, cs)) == SumOver(table) + SumAll(cs)
    decreases |cs|
  {
    BatchIsOwed(table, cs);
    OneByOneIsOwed(table, cs);
    if cs != [] {
      var init, c := cs[..|cs| - 1], cs[|cs| - 1];
      BookingAddsUp(table, init);
      BatchIsOwed(table, init);
      OneByOneIsOwed(table, init);
      var t := OneByOne(table, init);
      SumPut(t, c.miner, t[c.miner] + c.amount);
    } else {
      assert Owed(table, cs) == table;
    }
  }
}
