/** From a finalised mine transaction to the rows that book it: totals, shares, one row per submission
    whose client is still connected. */
module MineSuccess {
  import opened Words
  import opened Epoch
  import opened EngineBest
  import opened Sums
  import opened Split
  import opened Booking

  datatype Connection = Connection(uuid: Uuid, minerId: MinerId, worker: string)

  datatype Message = Message(challengeId: int, rewards: nat, commissions: nat,
                             totalHashpower: nat, totalRealHashpower: nat, subs: map<Uuid, Submission>)

  /** One pushed row; its three faces go to three tables. */
  datatype Entry = Entry(minerId: MinerId, amount: nat, diff: nat, nonce: nat, worker: string)

  datatype Earning = Earning(minerId: MinerId, challengeId: int, amount: nat, difficulty: int, worker: string)

  datatype SubmissionRow = SubmissionRow(minerId: MinerId, challengeId: int, nonce: nat, difficulty: int)

  /** A u32 cast to i8. */
  function AsI8(x: nat): int {
    if x % 256 < 128 then x % 256 else x % 256 - 256
  }

  function EarningOf(e: Entry, challengeId: int): Earning {
    Earning(e.minerId, challengeId, e.amount, AsI8(e.diff), e.worker)
  }

  function CreditOf(e: Entry): Credit {
    Credit(e.minerId, e.amount)
  }

  function SubmissionOf(e: Entry, challengeId: int): SubmissionRow {
    SubmissionRow(e.minerId, challengeId, e.nonce, AsI8(e.diff))
  }

  // ---------- Totals ----------

  ghost function RealPowers(subs: map<Uuid, Submission>): map<Uuid, nat> {
    map u | u in subs :: subs[u].realHashpower
  }

  ghost function CappedPowers(subs: map<Uuid, Submission>): map<Uuid, nat> {
    map u | u in subs :: subs[u].hashpower
  }

  function Walk(order: seq<Uuid>, m: map<Uuid, nat>): seq<nat>
    requires forall i | 0 <= i < |order| :: order[i] in m
  {
    seq(|order|, i requires 0 <= i < |order| => m[order[i]])
  }

  /** The accumulation loop, in u64 arithmetic, over whatever order the map hands its entries out. */
  method SumPowers(order: seq<Uuid>, subs: map<Uuid, Submission>) returns (total: nat, totalReal: nat)
    requires Enumerates(order, subs)
    ensures total == Wrap64(SumOver(CappedPowers(subs)))
    ensures totalReal == Wrap64(SumOver(RealPowers(subs)))
  {
    ghost var capped, uncapped := CappedPowers(subs), RealPowers(subs);
    total, totalReal := 0, 0;
    for k := 0 to |order|
      invariant total == WalkTotal(order, k, capped)
      invariant totalReal == WalkTotal(order, k, uncapped)
    {
      WalkStep(order, capped, k);
      WalkStep(order, uncapped, k);
      var sub := subs[order[k]];
      total := Wrap64(total + sub.hashpower);
      totalReal := Wrap64(totalReal + sub.realHashpower);
    }
    WalkWhole(order, capped);
    WalkWhole(order, uncapped);
  }

  lemma WalkWhole(order: seq<Uuid>, m: map<Uuid, nat>)
    requires Enumerates(order, m)
    ensures Total(Walk(order[..|order|], m)) == SumOver(m)
  {
    assert order[..|order|] == order;
    WalkSum(order, m);
  }

  /** The accumulator after `k` turns of the loop. */
  function WalkTotal(order: seq<Uuid>, k: nat, m: map<Uuid, nat>): nat
    requires k <= |order| && forall i | 0 <= i < |order| :: order[i] in m
  {
    Wrap64(Total(Walk(order[..k], m)))
  }

  lemma WalkStep(order: seq<Uuid>, m: map<Uuid, nat>, k: nat)
    requires k < |order| && forall i | 0 <= i < |order| :: order[i] in m
    ensures WalkTotal(order, k + 1, m) == Wrap64(WalkTotal(order, k, m) + m[order[k]])
  {
    var xs := Walk(order[..k], m);
    TotalSnoc(xs, m[order[k]]);
    assert Walk(order[..k + 1], m) == xs + [m[order[k]]];
    WrapAdd(Total(xs), m[order[k]]);
  }

  lemma WrapAdd(a: nat, b: nat)
    ensures Wrap64(Wrap64(a) + b) == Wrap64(a + b)
  {
  }

  // ---------- Rows ----------

  /** What one submission earns. */
  function AmountOf(msg: Message, sub: Submission): nat
    requires msg.totalRealHashpower > 0 && msg.commissions <= msg.rewards
  {
    Earned(sub.realHashpower, msg.totalRealHashpower, msg.rewards - msg.commissions)
  }

  /** The connections of one client, in the order the sockets are walked. */
  function Matches(uuid: Uuid, socks: seq<Connection>): seq<Connection> {
    if socks == [] then []
    else Matches(uuid, socks[..|socks| - 1]) + (if socks[|socks| - 1].uuid == uuid then [socks[|socks| - 1]] else [])
  }

  /** The loop over these submissions runs through: it divides by both totals, once per submission. */
  predicate CanSplit(msg: Message, order: seq<Uuid>) {
    && msg.commissions <= msg.rewards
    && (forall i | 0 <= i < |order| :: order[i] in msg.subs)
    && (order != [] ==> msg.totalHashpower > 0 && msg.totalRealHashpower > 0)
  }

  /** A submission's part of the capped total, in millionths. The server works it out and pays by the
      uncapped one. */
  function CappedPart(msg: Message, sub: Submission): nat
    requires msg.totalHashpower > 0
  {
    Saturate128(sub.hashpower * PARTS) / msg.totalHashpower
  }

  function EntriesFor(msg: Message, sub: Submission, conns: seq<Connection>): seq<Entry>
    requires msg.totalRealHashpower > 0 && msg.commissions <= msg.rewards
  {
    seq(|conns|, i requires 0 <= i < |conns| =>
      Entry(sub.minerId, AmountOf(msg, sub), sub.diff, sub.nonce, conns[i].worker))
  }

  function Entries(msg: Message, order: seq<Uuid>, socks: seq<Connection>): seq<Entry>
    requires CanSplit(msg, order)
  {
    if order == [] then []
    else
      var n := |order| - 1;
      Entries(msg, order[..n], socks) + EntriesFor(msg, msg.subs[order[n]], Matches(order[n], socks))
  }

  /** The three row lists are three faces of one list of entries. */
  predicate Aligned(es: seq<Entry>, challengeId: int, earnings: seq<Earning>, rewards: seq<Credit>,
                    rows: seq<SubmissionRow>)
  {
    && |earnings| == |rewards| == |rows| == |es|
    && (forall i | 0 <= i < |es| :: earnings[i] == EarningOf(es[i], challengeId))
    && (forall i | 0 <= i < |es| :: rewards[i] == CreditOf(es[i]))
    && (forall i | 0 <= i < |es| :: rows[i] == SubmissionOf(es[i], challengeId))
  }

  /** One row of each list, about client `u`: its submission's miner, amount, difficulty and nonce, the
      challenge of the message, and the worker name of one of the client's connections. */
  ghost predicate RowSays(msg: Message, socks: seq<Connection>, u: Uuid, e: Earning, r: Credit, row: SubmissionRow)
    requires msg.totalRealHashpower > 0 && msg.commissions <= msg.rewards
  {
    && u in msg.subs
    && var sub := msg.subs[u];
    && (exists c :: c in socks && c.uuid == u && c.worker == e.worker)
    && e.minerId == r.miner == row.minerId == sub.minerId
    && e.amount == r.amount == AmountOf(msg, sub)
    && e.challengeId == row.challengeId == msg.challengeId
    && (sub.diff <= 127 ==> e.difficulty == row.difficulty == sub.diff)
    && row.nonce == sub.nonce
  }

  /** The nested loop over submissions and sockets, pushing onto three lists. */
  method BuildRows(msg: Message, order: seq<Uuid>, socks: seq<Connection>)
    returns (earnings: seq<Earning>, rewards: seq<Credit>, rows: seq<SubmissionRow>)
    requires CanSplit(msg, order)
    ensures Aligned(Entries(msg, order, socks), msg.challengeId, earnings, rewards, rows)
    ensures FreshIds(socks) ==>
              var us := Paying(order, Connected(socks));
              && |earnings| == |rewards| == |rows| == |us|
              && (order != [] ==>
                  forall i | 0 <= i < |us| :: RowSays(msg, socks, us[i], earnings[i], rewards[i], rows[i]))
  {
    earnings, rewards, rows := [], [], [];
    for k := 0 to |order|
      invariant Aligned(Entries(msg, order[..k], socks), msg.challengeId, earnings, rewards, rows)
    {
      var sub := msg.subs[order[k]];
      var hashpowerPercent := CappedPart(msg, sub);
      var amount := AmountOf(msg, sub);
      ghost var before := Entries(msg, order[..k], socks);
      for j := 0 to |socks|
        invariant Aligned(before + EntriesFor(msg, sub, Matches(order[k], socks[..j])), msg.challengeId,
                          earnings, rewards, rows)
      {
        ghost var so := Matches(order[k], socks[..j]);
        assert socks[..j + 1][..j] == socks[..j];
        if socks[j].uuid == order[k] {
          var e := Entry(sub.minerId, amount, sub.diff, sub.nonce, socks[j].worker);
          assert before + EntriesFor(msg, sub, so + [socks[j]]) == before + EntriesFor(msg, sub, so) + [e];
          earnings := earnings + [EarningOf(e, msg.challengeId)];
          rewards := rewards + [CreditOf(e)];
          rows := rows + [SubmissionOf(e, msg.challengeId)];
        } else {
          assert so + [] == so;
        }
      }
      assert socks[..|socks|] == socks;
      assert order[..k + 1][..k] == order[..k];
    }
    assert order[..|order|] == order;
    if FreshIds(socks) {
      RowsSay(msg, order, socks, earnings, rewards, rows);
    }
  }

  // ---------- At most one row per submission ----------

  /** Fresh connection ids: no two live connections share one. */
  predicate FreshIds(socks: seq<Connection>) {
    forall i, j | 0 <= i < j < |socks| :: socks[i].uuid != socks[j].uuid
  }

  function Connected(socks: seq<Connection>): set<Uuid> {
    set i | 0 <= i < |socks| :: socks[i].uuid
  }

  /** The credits of the submissions whose client is in `connected`. */
  function Credits(msg: Message, order: seq<Uuid>, connected: set<Uuid>): seq<Credit>
    requires CanSplit(msg, order)
  {
    if order == [] then []
    else
      var n := |order| - 1;
      var rest := Credits(msg, order[..n], connected);
      if order[n] in connected
      then rest + [Credit(msg.subs[order[n]].minerId, AmountOf(msg, msg.subs[order[n]]))]
      else rest
  }

  /** The clients of those credits, in the same order. */
  function Paying(order: seq<Uuid>, connected: set<Uuid>): seq<Uuid> {
    if order == [] then []
    else
      var n := |order| - 1;
      var rest := Paying(order[..n], connected);
      if order[n] in connected then rest + [order[n]] else rest
  }

  lemma {:induction false} CreditsArePaying(msg: Message, order: seq<Uuid>, connected: set<Uuid>)
    requires CanSplit(msg, order)
    ensures |Credits(msg, order, connected)| == |Paying(order, connected)|
    ensures forall i | 0 <= i < |Paying(order, connected)| ::
              var u := Paying(order, connected)[i];
              && u in msg.subs
              && Credits(msg, order, connected)[i] == Credit(msg.subs[u].minerId, AmountOf(msg, msg.subs[u]))
    decreases |order|
  {
    if order != [] {
      CreditsArePaying(msg, order[..|order| - 1], connected);
    }
  }

  /** In an order without repeats no client is paid twice. */
  lemma {:induction false} PayingOnce(order: seq<Uuid>, connected: set<Uuid>)
    requires forall i, j | 0 <= i < j < |order| :: order[i] != order[j]
    ensures forall u :: u in Paying(order, connected) <==> u in order && u in connected
    ensures forall i, j | 0 <= i < j < |Paying(order, connected)| ::
              Paying(order, connected)[i] != Paying(order, connected)[j]
    decreases |order|
  {
    if order != [] {
      var n := |order| - 1;
      PayingOnce(order[..n], connected);
      assert forall i | 0 <= i < n :: order[..n][i] == order[i];
      assert order[n] !in order[..n];
    }
  }

  lemma {:induction false} OneMatch(uuid: Uuid, socks: seq<Connection>)
    requires FreshIds(socks)
    ensures |Matches(uuid, socks)| == if uuid in Connected(socks) then 1 else 0
    decreases |socks|
  {
    if socks != [] {
      var n := |socks| - 1;
      OneMatch(uuid, socks[..n]);
      if uuid in Connected(socks[..n]) {
        var i :| 0 <= i < n && socks[..n][i].uuid == uuid;
        assert socks[i].uuid == uuid;
      } else {
        assert forall i | 0 <= i < n :: socks[..n][i].uuid != uuid;
        assert forall i | 0 <= i < n :: socks[i].uuid != uuid;
        assert socks[n].uuid == uuid <==> uuid in Connected(socks);
      }
    }
  }

  lemma {:induction false} MatchesAre(uuid: Uuid, socks: seq<Connection>)
    ensures forall c | c in Matches(uuid, socks) :: c in socks && c.uuid == uuid
    decreases |socks|
  {
    if socks != [] {
      MatchesAre(uuid, socks[..|socks| - 1]);
    }
  }

  /** What one entry holds, about client `u`. */
  ghost predicate EntrySays(msg: Message, socks: seq<Connection>, u: Uuid, e: Entry)
    requires msg.totalRealHashpower > 0 && msg.commissions <= msg.rewards
  {
    && u in msg.subs
    && (exists c :: c in socks && c.uuid == u && c.worker == e.worker)
    && e.minerId == msg.subs[u].minerId && e.amount == AmountOf(msg, msg.subs[u])
    && e.diff == msg.subs[u].diff && e.nonce == msg.subs[u].nonce
  }

  lemma {:induction false} EntriesSay(msg: Message, order: seq<Uuid>, socks: seq<Connection>)
    requires CanSplit(msg, order) && FreshIds(socks)
    ensures |Entries(msg, order, socks)| == |Paying(order, Connected(socks))|
    ensures forall i | 0 <= i < |Paying(order, Connected(socks))| && order != [] ::
              EntrySays(msg, socks, Paying(order, Connected(socks))[i], Entries(msg, order, socks)[i])
    decreases |order|
  {
    if order != [] {
      var n := |order| - 1;
      EntriesSay(msg, order[..n], socks);
      OneMatch(order[n], socks);
      MatchesAre(order[n], socks);
      var us, es := Paying(order, Connected(socks)), Entries(msg, order, socks);
      forall i | 0 <= i < |us|
        ensures EntrySays(msg, socks, us[i], es[i])
      {
        if i < |Paying(order[..n], Connected(socks))| {
          assert EntrySays(msg, socks, Paying(order[..n], Connected(socks))[i], Entries(msg, order[..n], socks)[i]);
        }
      }
    }
  }

  lemma RowsSay(msg: Message, order: seq<Uuid>, socks: seq<Connection>,
                earnings: seq<Earning>, rewards: seq<Credit>, rows: seq<SubmissionRow>)
    requires CanSplit(msg, order) && FreshIds(socks)
    requires Aligned(Entries(msg, order, socks), msg.challengeId, earnings, rewards, rows)
    ensures var us := Paying(order, Connected(socks));
            && |earnings| == |rewards| == |rows| == |us|
            && (order != [] ==>
                  forall i | 0 <= i < |us| :: RowSays(msg, socks, us[i], earnings[i], rewards[i], rows[i]))
  {
    EntriesSay(msg, order, socks);
    var us, es := Paying(order, Connected(socks)), Entries(msg, order, socks);
    if order != [] {
      forall i | 0 <= i < |us|
        ensures RowSays(msg, socks, us[i], earnings[i], rewards[i], rows[i])
      {
        assert EntrySays(msg, socks, us[i], es[i]);
      }
    }
  }

  function CreditsOf(es: seq<Entry>): seq<Credit> {
    seq(|es|, i requires 0 <= i < |es| => CreditOf(es[i]))
  }

  /** With fresh ids, every submission of a connected client earns exactly one row, any other none. */
  lemma {:induction false} OneRowEach(msg: Message, order: seq<Uuid>, socks: seq<Connection>)
    requires CanSplit(msg, order) && FreshIds(socks)
    ensures CreditsOf(Entries(msg, order, socks)) == Credits(msg, order, Connected(socks))
    decreases |order|
  {
    if order != [] {
      var n := |order| - 1;
      OneRowEach(msg, order[..n], socks);
      OneMatch(order[n], socks);
      var es := Entries(msg, order[..n], socks);
      var more := EntriesFor(msg, msg.subs[order[n]], Matches(order[n], socks));
      assert CreditsOf(es + more) == CreditsOf(es) + CreditsOf(more);
    }
  }

  // ---------- What a message pays in all ----------

  /** A snapshot whose hashpowers did not overflow: what the split is promised to work on. */
  ghost predicate Splittable(subs: map<Uuid, Submission>) {
    && (forall u | u in subs :: PowersFit(subs[u]) && subs[u].diff <= 69)
    && SumOver(RealPowers(subs)) <= U64_MAX
  }

  /** The message the submitter sends for a reward and a snapshot. */
  ghost predicate MessageFor(msg: Message, full: nat, subs: map<Uuid, Submission>) {
    && msg.rewards == full && msg.commissions == Commission(full) && msg.subs == subs
    && msg.totalHashpower == Wrap64(SumOver(CappedPowers(subs)))
    && msg.totalRealHashpower == Wrap64(SumOver(RealPowers(subs)))
  }

  /** Both totals are at least every one of their parts, each of which is at least 80, and the capped one is
      no more than the other: neither wraps and neither is zero. */
  lemma TotalsArePositive(subs: map<Uuid, Submission>)
    requires Splittable(subs) && subs != map[]
    ensures 0 < SumOver(CappedPowers(subs)) <= SumOver(RealPowers(subs))
    ensures forall u | u in subs ::
              && MIN_HASHPOWER <= subs[u].hashpower <= SumOver(CappedPowers(subs))
              && MIN_HASHPOWER <= subs[u].realHashpower <= SumOver(RealPowers(subs))
  {
    forall u | u in subs
      ensures MIN_HASHPOWER <= subs[u].hashpower <= SumOver(CappedPowers(subs))
      ensures MIN_HASHPOWER <= subs[u].realHashpower <= SumOver(RealPowers(subs))
      ensures subs[u].hashpower <= subs[u].realHashpower
    {
      SumTakeOut(CappedPowers(subs), u);
      SumTakeOut(RealPowers(subs), u);
      HashpowerExact(subs[u].diff);
    }
    SumMono(CappedPowers(subs), RealPowers(subs));
    var u :| u in subs;
  }

  lemma TotalsAreExact(msg: Message, full: nat, subs: map<Uuid, Submission>)
    requires MessageFor(msg, full, subs) && Splittable(subs)
    ensures msg.totalHashpower == SumOver(CappedPowers(subs)) && msg.totalRealHashpower == SumOver(RealPowers(subs))
    ensures subs != map[] ==> msg.totalHashpower > 0 && msg.totalRealHashpower > 0
  {
    if subs == map[] {
      assert CappedPowers(subs) == map[] && RealPowers(subs) == map[];
    } else {
      TotalsArePositive(subs);
    }
  }

  /** Neither part of one submission saturates or is truncated. */
  lemma PartsAreExact(msg: Message, full: nat, subs: map<Uuid, Submission>, u: Uuid)
    requires MessageFor(msg, full, subs) && Splittable(subs) && full <= U64_MAX && u in subs
    requires msg.totalHashpower > 0 && msg.totalRealHashpower > 0 && msg.commissions <= full
    ensures CappedPart(msg, subs[u]) == PerMillion(subs[u].hashpower, msg.totalHashpower) <= PARTS
    ensures AmountOf(msg, subs[u]) == Share(subs[u].realHashpower, msg.totalRealHashpower, full - msg.commissions)
  {
    TotalsArePositive(subs);
    TotalsAreExact(msg, full, subs);
    PerMillionBounds(subs[u].hashpower, msg.totalHashpower);
    EarnedExact(subs[u].realHashpower, msg.totalRealHashpower, full - msg.commissions);
  }

  /** On a splittable snapshot the message can be split: neither division is by zero, whatever the order, the
      totals are the exact sums, and each amount is the exact share. */
  lemma CanAlwaysSplit(msg: Message, full: nat, subs: map<Uuid, Submission>, order: seq<Uuid>)
    requires MessageFor(msg, full, subs) && Splittable(subs) && full <= U64_MAX && Enumerates(order, subs)
    ensures CanSplit(msg, order)
    ensures msg.totalHashpower == SumOver(CappedPowers(subs)) && msg.totalRealHashpower == SumOver(RealPowers(subs))
    ensures forall u | u in subs ::
              && msg.totalHashpower > 0 && msg.totalRealHashpower > 0
              && CappedPart(msg, subs[u]) == PerMillion(subs[u].hashpower, msg.totalHashpower) <= PARTS
              && AmountOf(msg, subs[u]) == Share(subs[u].realHashpower, msg.totalRealHashpower, full - msg.commissions)
  {
    CommissionExact(full);
    TotalsAreExact(msg, full, subs);
    assert order != [] ==> order[0] in subs;
    forall u | u in subs
      ensures CappedPart(msg, subs[u]) == PerMillion(subs[u].hashpower, msg.totalHashpower) <= PARTS
      ensures AmountOf(msg, subs[u]) == Share(subs[u].realHashpower, msg.totalRealHashpower, full - msg.commissions)
    {
      PartsAreExact(msg, full, subs, u);
    }
  }

  lemma CreditsSnoc(msg: Message, order: seq<Uuid>, connected: set<Uuid>)
    requires CanSplit(msg, order) && order != []
    ensures var n := |order| - 1;
            SumAll(Credits(msg, order, connected)) == SumAll(Credits(msg, order[..n], connected))
              + (if order[n] in connected then AmountOf(msg, msg.subs[order[n]]) else 0)
  {
    var n := |order| - 1;
    var rest := Credits(msg, order[..n], connected);
    if order[n] in connected {
      var c := Credit(msg.subs[order[n]].minerId, AmountOf(msg, msg.subs[order[n]]));
      assert (rest + [c])[..|rest|] == rest;
    }
  }

  /** Splitting the submissions by connection splits the paid sum. */
  lemma {:induction false} CreditsSplit(msg: Message, order: seq<Uuid>, connected: set<Uuid>, others: set<Uuid>)
    requires CanSplit(msg, order)
    requires forall i | 0 <= i < |order| :: order[i] in connected <==> order[i] !in others
    ensures SumAll(Credits(msg, order, connected)) + SumAll(Credits(msg, order, others)) == Total(Amounts(msg, order))
    decreases |order|
  {
    if order != [] {
      var n := |order| - 1;
      CreditsSplit(msg, order[..n], connected, others);
      assert Amounts(msg, order)[..n] == Amounts(msg, order[..n]);
      CreditsSnoc(msg, order, connected);
      CreditsSnoc(msg, order, others);
    }
  }

  function Amounts(msg: Message, order: seq<Uuid>): seq<nat>
    requires CanSplit(msg, order)
  {
    seq(|order|, i requires 0 <= i < |order| => AmountOf(msg, msg.subs[order[i]]))
  }

  /** Amounts left in the pool because of rounding: what a split over all submissions would not pay. */
  function Rounding(msg: Message, order: seq<Uuid>): int
    requires CanSplit(msg, order)
  {
    msg.rewards - msg.commissions - Total(Amounts(msg, order))
  }

  /** Amounts of submissions whose client was gone when the rows were built. */
  function Unpaid(msg: Message, order: seq<Uuid>, connected: set<Uuid>): nat
    requires CanSplit(msg, order)
  {
    SumAll(Credits(msg, order, (set i | 0 <= i < |order| :: order[i]) - connected))
  }

  /** A message never pays out more than its reward; what it keeps is the rounding loss plus the shares
      of clients who left; and with everybody connected the loss is bounded. */
  lemma MessagePaysItsReward(msg: Message, full: nat, subs: map<Uuid, Submission>, order: seq<Uuid>,
                             connected: set<Uuid>)
    requires MessageFor(msg, full, subs) && Splittable(subs) && full <= U64_MAX && Enumerates(order, subs)
    ensures CanSplit(msg, order) && 0 <= Rounding(msg, order)
    ensures msg.commissions + SumAll(Credits(msg, order, connected))
            + Rounding(msg, order) + Unpaid(msg, order, connected) == full
    ensures msg.commissions + SumAll(Credits(msg, order, connected)) <= full
    ensures subs != map[] ==>
              PARTS * Rounding(msg, order) <= (|order| - 1) * (full - msg.commissions) + |order| * (PARTS - 1)
  {
    CanAlwaysSplit(msg, full, subs, order);
    CreditsSplit(msg, order, connected, (set i | 0 <= i < |order| :: order[i]) - connected);
    RoundingBounds(msg, full, subs, order);
  }

  /** What a message credits, commission included, is at most its reward. */
  lemma MessageWithin(msg: Message, order: seq<Uuid>, connected: set<Uuid>)
    requires MessageFor(msg, msg.rewards, msg.subs) && Splittable(msg.subs) && msg.rewards <= U64_MAX
    requires Enumerates(order, msg.subs) && CanSplit(msg, order)
    ensures msg.commissions + SumAll(Credits(msg, order, connected)) <= msg.rewards
  {
    MessagePaysItsReward(msg, msg.rewards, msg.subs, order, connected);
  }

  lemma SharesLoseLittle(amounts: seq<nat>, powers: seq<nat>, rewards: nat)
    requires powers != [] && Total(powers) > 0 && amounts == Shares(powers, Total(powers), rewards)
    ensures Total(amounts) <= rewards
    ensures PARTS * (rewards - Total(amounts)) <= (|amounts| - 1) * rewards + |amounts| * (PARTS - 1)
  {
    SplitIsBounded(powers, rewards);
  }

  lemma RoundingBounds(msg: Message, full: nat, subs: map<Uuid, Submission>, order: seq<Uuid>)
    requires MessageFor(msg, full, subs) && Splittable(subs) && full <= U64_MAX && Enumerates(order, subs)
    requires CanSplit(msg, order)
    ensures 0 <= Rounding(msg, order)
    ensures subs != map[] ==>
              PARTS * Rounding(msg, order) <= (|order| - 1) * (full - msg.commissions) + |order| * (PARTS - 1)
  {
    if order == [] {
      assert forall u :: u !in subs;
    } else {
      var powers := AmountsAreShares(msg, full, subs, order);
      SharesLoseLittle(Amounts(msg, order), powers, full - msg.commissions);
    }
  }

  lemma AmountsAreShares(msg: Message, full: nat, subs: map<Uuid, Submission>, order: seq<Uuid>)
    returns (powers: seq<nat>)
    requires MessageFor(msg, full, subs) && Splittable(subs) && full <= U64_MAX && Enumerates(order, subs)
    requires CanSplit(msg, order) && order != []
    ensures |powers| == |order| && Total(powers) > 0
    ensures Amounts(msg, order) == Shares(powers, Total(powers), full - msg.commissions)
  {
    assert order[0] in subs;
    CanAlwaysSplit(msg, full, subs, order);
    powers := Walk(order, RealPowers(subs));
    WalkSum(order, RealPowers(subs));
    TotalsArePositive(subs);
    forall i | 0 <= i < |order|
      ensures Amounts(msg, order)[i] == Shares(powers, Total(powers), full - msg.commissions)[i]
    {
      assert order[i] in subs;
    }
  }

  /** The cast to the tables' difficulty column keeps a difficulty exactly up to 127, so on all of these. */
  lemma DifficultyFitsRow(diff: nat)
    ensures AsI8(diff) == diff <==> diff <= 127
  {
  }
}
