/** The websocket task that keeps the tracked proof up to date. */
module ProofTracking {
  import opened Wrappers
  import opened Epoch

  /** A notice for the challenge remembered as the last one is ignored; any other replaces the proof. */
  function AfterNotice(proof: Proof, last: Option<Challenge>, notice: Proof): Proof {
    if last == Some(notice.challenge) then proof else notice
  }

  /** A notice as the loop handles it: the proof it brings and the challenge remembered at that moment. */
  datatype Notice = Notice(proof: Proof, last: Option<Challenge>)

  predicate Late(n: Notice) {
    n.last == Some(n.proof.challenge)
  }

  function AfterNotices(proof: Proof, notices: seq<Notice>): Proof {
    if notices == [] then proof
    else
      var n := notices[|notices| - 1];
      AfterNotice(AfterNotices(proof, notices[..|notices| - 1]), n.last, n.proof)
  }

  class Tracker {
    var proof: Proof

    constructor (first: Proof)
      ensures proof == first
    {
      proof := first;
    }

    /** The notification loop, over the notices one connection delivers. */
    method Follow(notices: seq<Notice>)
      modifies this
      ensures proof == AfterNotices(old(proof), notices)
    {
      for k := 0 to |notices|
        invariant proof == AfterNotices(old(proof), notices[..k])
      {
        assert notices[..k + 1][..k] == notices[..k];
        if notices[k].last != Some(notices[k].proof.challenge) {
          proof := notices[k].proof;
        }
      }
      assert notices[..|notices|] == notices;
    }
  }

  /** Whatever order the notices come in: the proof stays if all are late, and otherwise it is the one the
      last notice that is not late brings. */
  lemma {:induction false} LastNoticeWins(proof: Proof, notices: seq<Notice>)
    ensures (forall i | 0 <= i < |notices| :: Late(notices[i])) ==> AfterNotices(proof, notices) == proof
    ensures forall k | 0 <= k < |notices| && !Late(notices[k]) && (forall j | k < j < |notices| :: Late(notices[j])) ::
              AfterNotices(proof, notices) == notices[k].proof
    decreases |notices|
  {
    if notices != [] {
      var n := |notices| - 1;
      var init := notices[..n];
      LastNoticeWins(proof, init);
      assert forall i | 0 <= i < n :: init[i] == notices[i];
      if Late(notices[n]) {
        assert AfterNotices(proof, notices) == AfterNotices(proof, init);
      }
    }
  }

  /** If all notices are in chain order, except late ones of whatever challenge is remembered when they
      come, the tracked proof ends at the newest notice that is not late, and never falls back. */
  lemma {:induction false} LateNoticesAreHarmless(proof: Proof, notices: seq<Notice>)
    requires forall i, j | 0 <= i < j < |notices| && !Late(notices[i]) && !Late(notices[j]) ::
               notices[i].proof.challenge <= notices[j].proof.challenge
    requires forall i | 0 <= i < |notices| && !Late(notices[i]) :: proof.challenge <= notices[i].proof.challenge
    ensures var p := AfterNotices(proof, notices);
            && proof.challenge <= p.challenge
            && (forall i | 0 <= i < |notices| && !Late(notices[i]) :: notices[i].proof.challenge <= p.challenge)
            && (p == proof || exists i :: 0 <= i < |notices| && !Late(notices[i]) && notices[i].proof == p)
    decreases |notices|
  {
    if notices != [] {
      var n := |notices| - 1;
      var init := notices[..n];
      LateNoticesAreHarmless(proof, init);
      assert forall i | 0 <= i < n :: init[i] == notices[i];
      if !Late(notices[n]) {
        assert AfterNotices(proof, notices) == notices[n].proof;
      } else if AfterNotices(proof, init) != proof {
        var i :| 0 <= i < |init| && !Late(init[i]) && init[i].proof == AfterNotices(proof, init);
        assert !Late(notices[i]);
      }
    }
  }
}
