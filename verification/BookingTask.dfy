/** The loops that book a mine-success message, retries included. */
module BookingTask {
  import opened Epoch
  import opened Booking
  import opened MineSuccess
  import opened Database

  // ---------- One reward update, retried ----------

  predicate IsAnswered(attempts: seq<Attempt>) {
    exists i :: 0 <= i < |attempts| && !attempts[i].Unreachable?
  }

  lemma LaterAnswered(attempts: seq<Attempt>)
    requires IsAnswered(attempts) && attempts[0].Unreachable?
    ensures IsAnswered(attempts[1..])
  {
    var i :| 0 <= i < |attempts| && !attempts[i].Unreachable?;
    assert attempts[1..][i - 1] == attempts[i];
  }

  /** The first attempt that is answered with success; the code retries until there is one. */
  function Answered(attempts: seq<Attempt>): (a: Attempt)
    requires IsAnswered(attempts)
    ensures !a.Unreachable? && a in attempts
  {
    if !attempts[0].Unreachable? then attempts[0]
    else
      LaterAnswered(attempts);
      Answered(attempts[1..])
  }

  /** Each chunk is tried until it is answered with success. */
  predicate AllAnswered(attempts: seq<seq<Attempt>>) {
    forall k | 0 <= k < |attempts| :: IsAnswered(attempts[k])
  }

  /** The credits of the chunks whose answered attempt ran, or of those whose statement failed. */
  function ChunksThat(ran: bool, batches: seq<seq<Credit>>, attempts: seq<seq<Attempt>>): seq<Credit>
    requires |batches| == |attempts| && AllAnswered(attempts)
  {
    if batches == [] then []
    else
      var n := |batches| - 1;
      var rest := ChunksThat(ran, batches[..n], attempts[..n]);
      if Answered(attempts[n]).Ran? == ran then rest + batches[n] else rest
  }

  /** What ran and what was lost are all there is. */
  lemma {:induction false} RanOrLost(batches: seq<seq<Credit>>, attempts: seq<seq<Attempt>>, m: MinerId)
    requires |batches| == |attempts| && AllAnswered(attempts)
    ensures SumFor(ChunksThat(true, batches, attempts), m) + SumFor(ChunksThat(false, batches, attempts), m)
         == SumFor(Concat(batches), m)
    decreases |batches|
  {
    if batches != [] {
      var n := |batches| - 1;
      RanOrLost(batches[..n], attempts[..n], m);
      SumForAppend(ChunksThat(true, batches[..n], attempts[..n]), batches[n], m);
      SumForAppend(ChunksThat(false, batches[..n], attempts[..n]), batches[n], m);
      SumForAppend(Concat(batches[..n]), batches[n], m);
    }
  }

  /** `while let Err(_) = app_database.update_rewards(...)`. */
  method UpdateRewardsUntilOk(db: AppDatabase, batch: seq<Credit>, attempts: seq<Attempt>)
    requires IsAnswered(attempts)
    modifies db`balances
    ensures db.balances == if Answered(attempts).Ran? then OneByOne(old(db.balances), batch) else old(db.balances)
  {
    var i := 0;
    var ok := db.UpdateRewards(batch, attempts[0]);
    while !ok
      invariant 0 <= i < |attempts| && (ok <==> !attempts[i].Unreachable?)
      invariant IsAnswered(attempts[i..])
      invariant if ok && attempts[i].Ran? then db.balances == OneByOne(old(db.balances), batch)
                else db.balances == old(db.balances)
      invariant Answered(attempts[i..]) == Answered(attempts)
      decreases |attempts| - i, !ok
    {
      LaterAnswered(attempts[i..]);
      assert attempts[i..][1..] == attempts[i + 1..];
      i := i + 1;
      ok := db.UpdateRewards(batch, attempts[i]);
    }
  }

  // ---------- A whole message ----------

  /** What was lost is exactly what the balances miss: they are those of single crediting if and only if
      the failed statements owed nothing to any row. */
  lemma {:induction false} LostChunksAreMissing(table: Balances, batches: seq<seq<Credit>>, attempts: seq<seq<Attempt>>)
    requires |batches| == |attempts| && AllAnswered(attempts)
    ensures var ran, lost := ChunksThat(true, batches, attempts), ChunksThat(false, batches, attempts);
            var whole, booked := OneByOne(table, Concat(batches)), OneByOne(table, ran);
            && whole.Keys == booked.Keys == table.Keys
            && (forall m | m in table :: booked[m] + SumFor(lost, m) == whole[m])
            && (booked == whole <==> forall m | m in table :: SumFor(lost, m) == 0)
  {
    var ran := ChunksThat(true, batches, attempts);
    OneByOneIsOwed(table, Concat(batches));
    OneByOneIsOwed(table, ran);
    forall m | m in table
      ensures SumFor(ran, m) + SumFor(ChunksThat(false, batches, attempts), m) == SumFor(Concat(batches), m)
    {
      RanOrLost(batches, attempts, m);
    }
  }

  /** The rewards of a message, one chunk after the other. */
  method BookRewards(db: AppDatabase, batches: seq<seq<Credit>>, attempts: seq<seq<Attempt>>)
    requires |batches| == |attempts| && AllAnswered(attempts)
    modifies db`balances
    ensures db.balances == OneByOne(old(db.balances), ChunksThat(true, batches, attempts))
  {
    for k := 0 to |batches|
      invariant db.balances == OneByOne(old(db.balances), ChunksThat(true, batches[..k], attempts[..k]))
    {
      ghost var before := ChunksThat(true, batches[..k], attempts[..k]);
      assert batches[..k + 1][..k] == batches[..k] && attempts[..k + 1][..k] == attempts[..k];
      OneByOneAppend(old(db.balances), before, batches[k]);
      UpdateRewardsUntilOk(db, batches[k], attempts[k]);
    }
    assert batches[..|batches|] == batches && attempts[..|batches|] == attempts;
  }

  lemma {:induction false} OneByOneAppend(table: Balances, a: seq<Credit>, b: seq<Credit>)
    ensures OneByOne(table, a + b) == OneByOne(OneByOne(table, a), b)
    decreases |b|
  {
    if b == [] {
      assert a + b == a;
    } else {
      var n := |b| - 1;
      OneByOneAppend(table, a, b[..n]);
      assert (a + b)[..|a| + n] == a + b[..n];
    }
  }

  /** The earnings of a message, one chunk after the other. */
  method PostEarnings(db: AppDatabase, earnings: seq<Earning>)
    modifies db`earnings
    ensures db.earnings == old(db.earnings) + earnings
  {
    var i := 0;
    while i < |earnings|
      invariant 0 <= i <= |earnings|
      invariant db.earnings == old(db.earnings) + earnings[..i]
    {
      var upTo := if i + BATCH < |earnings| then i + BATCH else |earnings|;
      assert old(db.earnings) + earnings[..i] + earnings[i..upTo] == old(db.earnings) + earnings[..upTo];
      db.AddNewEarningsBatch(earnings[i..upTo]);
      i := upTo;
    }
    assert earnings[..|earnings|] == earnings;
  }

  /** Its submissions, one chunk after the other. */
  method PostSubmissions(db: AppDatabase, rows: seq<SubmissionRow>)
    modifies db`submissions
    ensures db.submissions == old(db.submissions) + rows
  {
    var i := 0;
    while i < |rows|
      invariant 0 <= i <= |rows|
      invariant db.submissions == old(db.submissions) + rows[..i]
    {
      var upTo := if i + BATCH < |rows| then i + BATCH else |rows|;
      assert old(db.submissions) + rows[..i] + rows[i..upTo] == old(db.submissions) + rows[..upTo];
      db.AddNewSubmissionsBatch(rows[i..upTo]);
      i := upTo;
    }
    assert rows[..|rows|] == rows;
  }

  /** A message worked off: rows, earnings in chunks, rewards in chunks, submissions in chunks, pool total. */
  method BookMessage(db: AppDatabase, msg: Message, order: seq<Uuid>, socks: seq<Connection>,
                     attempts: seq<seq<Attempt>>)
    returns (earnings: seq<Earning>, rewards: seq<Credit>, rows: seq<SubmissionRow>)
    requires CanSplit(msg, order)
    requires |attempts| == |Chunks(CreditsOf(Entries(msg, order, socks)), 200)| && AllAnswered(attempts)
    modifies db
    ensures rewards == CreditsOf(Entries(msg, order, socks)) == EarningCredits(earnings)
    ensures db.earnings == old(db.earnings) + earnings && db.submissions == old(db.submissions) + rows
    ensures db.balances == OneByOne(old(db.balances), ChunksThat(true, Chunks(rewards, 200), attempts))
    ensures db.totalRewards == old(db.totalRewards) + msg.rewards
    ensures db.claims == old(db.claims) && db.claimedRewards == old(db.claimedRewards)
    ensures FreshIds(socks) ==>
              var us := Paying(order, Connected(socks));
              && |earnings| == |rewards| == |rows| == |us|
              && (order != [] ==>
                  forall i | 0 <= i < |us| :: RowSays(msg, socks, us[i], earnings[i], rewards[i], rows[i]))
  {
    earnings, rewards, rows := BuildRows(msg, order, socks);
    assert rewards == CreditsOf(Entries(msg, order, socks)) == EarningCredits(earnings);
    PostEarnings(db, earnings);
    BookRewards(db, Chunks(rewards, BATCH), attempts);
    PostSubmissions(db, rows);
    db.UpdatePoolRewards(msg.rewards);
  }

  /** If every answered attempt ran, a message is booked as if its entries were credited one by one. */
  lemma {:induction false} AllRan(batches: seq<seq<Credit>>, attempts: seq<seq<Attempt>>)
    requires |batches| == |attempts| && AllAnswered(attempts)
    requires forall k | 0 <= k < |attempts| :: Answered(attempts[k]).Ran?
    ensures ChunksThat(true, batches, attempts) == Concat(batches) && ChunksThat(false, batches, attempts) == []
    decreases |batches|
  {
    if batches != [] {
      AllRan(batches[..|batches| - 1], attempts[..|batches| - 1]);
    }
  }

  lemma CreditedSingly(table: Balances, rewards: seq<Credit>, attempts: seq<seq<Attempt>>)
    requires |attempts| == |Chunks(rewards, BATCH)| && AllAnswered(attempts)
    requires forall k | 0 <= k < |attempts| :: Answered(attempts[k]).Ran?
    ensures OneByOne(table, ChunksThat(true, Chunks(rewards, BATCH), attempts)) == OneByOne(table, rewards)
  {
    AllRan(Chunks(rewards, BATCH), attempts);
    ChunksCover(rewards, BATCH);
  }
}
