/** Joins the epoch engine to the reward split: what the submitter pays can always be split. */
module Pipeline {
  import opened Words
  import opened Epoch
  import opened Engine
  import opened EngineBest
  import opened Sums
  import opened Split
  import opened MineSuccess

  /** In every run, the submissions of every mine-success message, if no difficulty exceeds 69 and the
      hashpower total fits u64, split without overflow or division by zero, in any order, and pay at most
      the reward. */
  lemma PaidSubmissionsSplit(h: Hashing, s: State, steps: seq<Step>, k: nat, subs: map<Uuid, Submission>,
                             full: nat, msg: Message, order: seq<Uuid>)
    requires Initial(s) && Valid(h, s, steps)
    requires k < |Exec(h, s, steps).paid| && subs == Exec(h, s, steps).paid[k].snap.subs
    requires (forall u | u in subs :: subs[u].diff <= 69) && SumOver(RealPowers(subs)) <= U64_MAX
    requires MessageFor(msg, full, subs) && full <= U64_MAX && Enumerates(order, subs)
    ensures order != [] && msg.totalHashpower > 0 && msg.totalRealHashpower > 0 && CanSplit(msg, order)
    ensures msg.commissions + Total(Amounts(msg, order)) <= full
    ensures forall u | u in subs ::
              AmountOf(msg, subs[u]) == Share(subs[u].realHashpower, msg.totalRealHashpower, full - msg.commissions)
  {
    SnapshotsFit(h, s, steps, k);
    SplitsWhole(full, msg, order);
  }

  lemma SnapshotsFit(h: Hashing, s: State, steps: seq<Step>, k: nat)
    requires Initial(s) && Valid(h, s, steps) && k < |Exec(h, s, steps).paid|
    ensures var subs := Exec(h, s, steps).paid[k].snap.subs;
            subs != map[] && forall u | u in subs :: PowersFit(subs[u])
  {
    BestAlwaysFits(h, s, steps);
    var snap := Exec(h, s, steps).paid[k].snap;
    assert BestFits(h, snap) && snap.best.Some?;
  }

  lemma SplitsWhole(full: nat, msg: Message, order: seq<Uuid>)
    requires msg.subs != map[] && Splittable(msg.subs) && full <= U64_MAX
    requires MessageFor(msg, full, msg.subs) && Enumerates(order, msg.subs)
    ensures order != [] && msg.totalHashpower > 0 && msg.totalRealHashpower > 0 && CanSplit(msg, order)
    ensures msg.commissions + Total(Amounts(msg, order)) <= full
    ensures forall u | u in msg.subs :: AmountOf(msg, msg.subs[u])
              == Share(msg.subs[u].realHashpower, msg.totalRealHashpower, full - msg.commissions)
  {
    var u :| u in msg.subs;
    assert u in order;
    CanAlwaysSplit(msg, full, msg.subs, order);
    NothingOverpaid(full, msg, order);
  }

  lemma NothingOverpaid(full: nat, msg: Message, order: seq<Uuid>)
    requires Splittable(msg.subs) && full <= U64_MAX && CanSplit(msg, order)
    requires MessageFor(msg, full, msg.subs) && Enumerates(order, msg.subs)
    ensures msg.commissions + Total(Amounts(msg, order)) <= full
  {
    RoundingBounds(msg, full, msg.subs, order);
  }
}
