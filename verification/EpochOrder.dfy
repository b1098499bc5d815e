/** Solutions handled one at a time in one epoch: who gets how much hashpower does not depend on the
    order they arrive in. */
module EpochOrder {
  import opened Wrappers
  import opened Epoch
  import opened Engine
  import opened EngineBest
  import opened EngineCoarse
  import opened Sums
  import opened MineSuccess

  /** A message that passes every check but the comparison with the client's earlier one. */
  datatype Offer = Offer(uuid: Uuid, sol: Solution, miner: MinerId)

  predicate AllHardEnough(h: Hashing, os: seq<Offer>) {
    forall i | 0 <= i < |os| :: h.difficulty(os[i].sol) >= MIN_DIFF
  }

  /** The handler's effect on the hashes when nothing comes between its read and its write. */
  function HandleOne(h: Hashing, e: Hashes, o: Offer, task: nat): Hashes
    requires h.difficulty(o.sol) >= MIN_DIFF
  {
    var diff := h.difficulty(o.sol);
    if Improves(e, o.uuid, diff) then Record(e, o.uuid, o.sol, MakeSubmission(o.sol, o.miner, diff, task)) else e
  }

  /** One after the other, by tasks numbered from `first` on. */
  function HandleAll(h: Hashing, e: Hashes, os: seq<Offer>, first: nat): Hashes
    requires AllHardEnough(h, os)
  {
    if os == [] then e
    else HandleOne(h, HandleAll(h, e, os[..|os| - 1], first), os[|os| - 1], first + |os| - 1)
  }

  predicate JustCleared(e: Hashes) {
    e.best.None? && e.bestDiff == 0 && e.subs == map[]
  }

  /** Each client is recorded with the greatest difficulty it offered. */
  ghost predicate ClientsGreatest(h: Hashing, e: Hashes, os: seq<Offer>) {
    && (forall i | 0 <= i < |os| :: os[i].uuid in e.subs && h.difficulty(os[i].sol) <= e.subs[os[i].uuid].diff)
    && (forall u | u in e.subs ::
          PowersFit(e.subs[u])
          && exists i :: 0 <= i < |os| && os[i].uuid == u && h.difficulty(os[i].sol) == e.subs[u].diff)
  }

  /** The pool's best difficulty is the greatest of all offers. */
  ghost predicate PoolGreatest(h: Hashing, e: Hashes, os: seq<Offer>) {
    && (forall i | 0 <= i < |os| :: h.difficulty(os[i].sol) <= e.bestDiff)
    && (if os == [] then e.bestDiff == 0
        else exists i :: 0 <= i < |os| && h.difficulty(os[i].sol) == e.bestDiff)
  }

  lemma {:induction false} ClientsStep(h: Hashing, f: Hashes, init: seq<Offer>, o: Offer, task: nat)
    requires h.difficulty(o.sol) >= MIN_DIFF && ClientsGreatest(h, f, init)
    ensures ClientsGreatest(h, HandleOne(h, f, o, task), init + [o])
  {
    var f' := HandleOne(h, f, o, task);
    var os := init + [o];
    forall u | u in f'.subs
      ensures PowersFit(f'.subs[u])
      ensures exists i :: 0 <= i < |os| && os[i].uuid == u && h.difficulty(os[i].sol) == f'.subs[u].diff
    {
      if u in f.subs && f'.subs[u] == f.subs[u] {
        var i :| 0 <= i < |init| && init[i].uuid == u && h.difficulty(init[i].sol) == f.subs[u].diff;
        assert os[i] == init[i];
      } else {
        assert os[|init|] == o;
      }
    }
    forall i | 0 <= i < |os|
      ensures os[i].uuid in f'.subs && h.difficulty(os[i].sol) <= f'.subs[os[i].uuid].diff
    {
      if i < |init| {
        assert os[i] == init[i];
      }
    }
  }

  lemma {:induction false} PoolStep(h: Hashing, f: Hashes, init: seq<Offer>, o: Offer, task: nat)
    requires h.difficulty(o.sol) >= MIN_DIFF && ClientsGreatest(h, f, init) && PoolGreatest(h, f, init)
    ensures PoolGreatest(h, HandleOne(h, f, o, task), init + [o])
  {
    var f' := HandleOne(h, f, o, task);
    var os := init + [o];
    if o.uuid in f.subs && !Improves(f, o.uuid, h.difficulty(o.sol)) {
      var i :| 0 <= i < |init| && init[i].uuid == o.uuid && h.difficulty(init[i].sol) == f.subs[o.uuid].diff;
    }
    if f'.bestDiff == f.bestDiff {
      assert init != [];
      var i :| 0 <= i < |init| && h.difficulty(init[i].sol) == f.bestDiff;
      assert os[i] == init[i];
    } else {
      assert os[|init|] == o;
    }
  }

  lemma HandleSnoc(h: Hashing, e: Hashes, init: seq<Offer>, o: Offer, first: nat)
    requires AllHardEnough(h, init + [o])
    ensures AllHardEnough(h, init)
    ensures HandleAll(h, e, init + [o], first) == HandleOne(h, HandleAll(h, e, init, first), o, first + |init|)
  {
    assert (init + [o])[..|init|] == init;
    assert forall i | 0 <= i < |init| :: (init + [o])[i] == init[i];
  }

  lemma {:induction false} OneMoreOffer(h: Hashing, f: Hashes, init: seq<Offer>, o: Offer, task: nat)
    requires h.difficulty(o.sol) >= MIN_DIFF && ClientsGreatest(h, f, init) && PoolGreatest(h, f, init)
    ensures var f' := HandleOne(h, f, o, task); ClientsGreatest(h, f', init + [o]) && PoolGreatest(h, f', init + [o])
  {
    ClientsStep(h, f, init, o, task);
    PoolStep(h, f, init, o, task);
  }

  /** Each client and the pool keep the greatest of all offers. */
  ghost predicate Greatest(h: Hashing, e: Hashes, os: seq<Offer>) {
    ClientsGreatest(h, e, os) && PoolGreatest(h, e, os)
  }

  lemma OfferAfter(h: Hashing, f: Hashes, f': Hashes, init: seq<Offer>, o: Offer, task: nat, os: seq<Offer>)
    requires h.difficulty(o.sol) >= MIN_DIFF && Greatest(h, f, init)
    requires f' == HandleOne(h, f, o, task) && os == init + [o]
    ensures Greatest(h, f', os)
  {
    OneMoreOffer(h, f, init, o, task);
  }

  lemma {:induction false} HandlingKeepsGreatest(h: Hashing, e: Hashes, os: seq<Offer>, first: nat) returns (f: Hashes)
    requires JustCleared(e) && AllHardEnough(h, os)
    ensures f == HandleAll(h, e, os, first) && Greatest(h, f, os)
    decreases |os|
  {
    f := HandleAll(h, e, os, first);
    if os != [] {
      var init, o := os[..|os| - 1], os[|os| - 1];
      var f0 := HandlingKeepsGreatest(h, e, init, first);
      assert os == init + [o];
      HandleSnoc(h, e, init, o, first);
      OfferAfter(h, f0, f, init, o, first + |init|, os);
    }
  }

  /** The same offers in another order. */
  lemma SameOffers(os: seq<Offer>, os': seq<Offer>, i: nat) returns (j: nat)
    requires multiset(os) == multiset(os') && i < |os|
    ensures j < |os'| && os'[j] == os[i]
  {
    assert os[i] in multiset(os');
    j :| 0 <= j < |os'| && os'[j] == os[i];
  }

  lemma GreatestNoGreater(h: Hashing, e: Hashes, os: seq<Offer>, e': Hashes, os': seq<Offer>)
    requires ClientsGreatest(h, e, os) && PoolGreatest(h, e, os)
    requires ClientsGreatest(h, e', os') && PoolGreatest(h, e', os') && multiset(os) == multiset(os')
    ensures forall u | u in e.subs :: u in e'.subs && e.subs[u].diff <= e'.subs[u].diff
    ensures e.bestDiff <= e'.bestDiff
  {
    forall u | u in e.subs
      ensures u in e'.subs && e.subs[u].diff <= e'.subs[u].diff
    {
      var i :| 0 <= i < |os| && os[i].uuid == u && h.difficulty(os[i].sol) == e.subs[u].diff;
      var j := SameOffers(os, os', i);
    }
    if os != [] {
      var i :| 0 <= i < |os| && h.difficulty(os[i].sol) == e.bestDiff;
      var j := SameOffers(os, os', i);
    }
  }

  /** The same clients, difficulties, hashpowers and totals. */
  ghost predicate SameForRewards(f: Hashes, f': Hashes) {
    && f.subs.Keys == f'.subs.Keys && f.bestDiff == f'.bestDiff
    && (forall u | u in f.subs ::
          && f.subs[u].diff == f'.subs[u].diff
          && f.subs[u].hashpower == f'.subs[u].hashpower
          && f.subs[u].realHashpower == f'.subs[u].realHashpower)
    && SumOver(RealPowers(f.subs)) == SumOver(RealPowers(f'.subs))
    && SumOver(CappedPowers(f.subs)) == SumOver(CappedPowers(f'.subs))
  }

  lemma SameDifficulties(f: Hashes, f': Hashes)
    requires f.subs.Keys == f'.subs.Keys && f.bestDiff == f'.bestDiff
    requires forall u | u in f.subs ::
               PowersFit(f.subs[u]) && PowersFit(f'.subs[u]) && f.subs[u].diff == f'.subs[u].diff
    ensures SameForRewards(f, f')
  {
    assert RealPowers(f.subs) == RealPowers(f'.subs);
    assert CappedPowers(f.subs) == CappedPowers(f'.subs);
  }

  lemma PermutedOffers(h: Hashing, e: Hashes, os: seq<Offer>, os': seq<Offer>, first: nat)
    requires JustCleared(e) && AllHardEnough(h, os) && AllHardEnough(h, os') && multiset(os) == multiset(os')
    ensures SameForRewards(HandleAll(h, e, os, first), HandleAll(h, e, os', first))
  {
    var f := HandlingKeepsGreatest(h, e, os, first);
    var f' := HandlingKeepsGreatest(h, e, os', first);
    GreatestNoGreater(h, f, os, f', os');
    GreatestNoGreater(h, f', os', f, os);
    SameDifficulties(f, f');
  }

  // ---------- The engine's handlers ----------

  /** A message that the engine's handler takes as far as the comparison with the client's earlier one. */
  predicate PassesChecks(h: Hashing, s: State, o: Offer) {
    && !s.sh.closed && o.uuid in s.sh.ranges && InRanges(s.sh.ranges[o.uuid], o.sol.nonce)
    && h.valid(o.sol, s.proof.challenge) && h.difficulty(o.sol) >= MIN_DIFF
  }

  predicate AllPass(h: Hashing, s: State, os: seq<Offer>) {
    forall i | 0 <= i < |os| :: PassesChecks(h, s, os[i])
  }

  /** The run that handles these messages one at a time. */
  function Accepts(os: seq<Offer>): (cs: seq<Coarse>)
    ensures |cs| == |os|
  {
    if os == [] then [] else Accepts(os[..|os| - 1]) + [Accept(Last(os).uuid, Last(os).sol, Some(Last(os).miner))]
  }

  function Last(os: seq<Offer>): Offer
    requires os != []
  {
    os[|os| - 1]
  }

  lemma AcceptNext(h: Hashing, s: State, os: seq<Offer>, t: State)
    requires os != [] && AllPass(h, s, os)
    requires CoarseValid(h, s, Accepts(os[..|os| - 1])) && CoarseExec(h, s, Accepts(os[..|os| - 1])) == t
    ensures var o := Last(os);
            && CoarseValid(h, s, Accepts(os))
            && CoarseExec(h, s, Accepts(os)) == CoarseApply(h, t, Accept(o.uuid, o.sol, Some(o.miner)))
  {
    var cs := Accepts(os);
    assert cs[..|cs| - 1] == Accepts(os[..|os| - 1]);
  }

  lemma OneAccept(h: Hashing, t: State, o: Offer)
    requires PassesChecks(h, t, o)
    ensures var t' := CoarseApply(h, t, Accept(o.uuid, o.sol, Some(o.miner)));
            && t'.sh == t.sh.(hashes := HandleOne(h, t.sh.hashes, o, |t.handlers|))
            && t'.proof == t.proof && |t'.handlers| == |t.handlers| + 1
  {
    assert t.sh.(hashes := t.sh.hashes) == t.sh;
  }

  /** `t` is `s` after these offers. */
  predicate Handled(h: Hashing, s: State, os: seq<Offer>, t: State)
    requires AllHardEnough(h, os)
  {
    && t.sh == s.sh.(hashes := HandleAll(h, s.sh.hashes, os, |s.handlers|))
    && t.proof == s.proof && |t.handlers| == |s.handlers| + |os|
  }

  lemma HandledNext(h: Hashing, s: State, init: seq<Offer>, o: Offer, t: State)
    requires AllPass(h, s, init + [o]) && AllHardEnough(h, init) && AllHardEnough(h, init + [o])
    requires Handled(h, s, init, t)
    ensures Handled(h, s, init + [o], CoarseApply(h, t, Accept(o.uuid, o.sol, Some(o.miner))))
  {
    assert PassesChecks(h, s, (init + [o])[|init|]);
    HandleSnoc(h, s.sh.hashes, init, o, |s.handlers|);
    OneAccept(h, t, o);
  }

  /** What that run leaves is what handling the offers leaves, and nothing else of the shared state changes. */
  lemma {:induction false} AcceptsAreHandled(h: Hashing, s: State, os: seq<Offer>) returns (t: State)
    requires AllPass(h, s, os) && AllHardEnough(h, os)
    ensures CoarseValid(h, s, Accepts(os)) && t == CoarseExec(h, s, Accepts(os)) && Handled(h, s, os, t)
    decreases |os|
  {
    if os == [] {
      t := s;
      assert s.sh.(hashes := s.sh.hashes) == s.sh;
    } else {
      var init, o := os[..|os| - 1], Last(os);
      var t0 := AcceptsAreHandled(h, s, init);
      assert os == init + [o];
      HandledNext(h, s, init, o, t0);
      AcceptNext(h, s, os, t0);
      t := CoarseApply(h, t0, Accept(o.uuid, o.sol, Some(o.miner)));
    }
  }

  /** From any state of the engine whose hashes are just cleared, handling the same messages in any order
      records the same clients with the same difficulty and hashpower, the same best difficulty, and so the
      same two totals the rewards are split by. */
  lemma OrderDoesNotMatter(h: Hashing, s: State, os: seq<Offer>, os': seq<Offer>)
    requires JustCleared(s.sh.hashes) && AllPass(h, s, os) && multiset(os) == multiset(os')
    ensures CoarseValid(h, s, Accepts(os)) && CoarseValid(h, s, Accepts(os'))
    ensures SameForRewards(CoarseExec(h, s, Accepts(os)).sh.hashes, CoarseExec(h, s, Accepts(os')).sh.hashes)
  {
    forall i | 0 <= i < |os'|
      ensures PassesChecks(h, s, os'[i])
    {
      var j := SameOffers(os', os, i);
    }
    assert AllHardEnough(h, os) && AllHardEnough(h, os');
    var t := AcceptsAreHandled(h, s, os);
    var t' := AcceptsAreHandled(h, s, os');
    PermutedOffers(h, s.sh.hashes, os, os', |s.handlers|);
  }
}
