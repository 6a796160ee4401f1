/**
 The loop over the authorizations of a pending order, told from what the ACME server and the cluster
 answer: where it stops, how it ends, and how often it asks to be run again.
 */
module Authorizations {
  import opened Api
  import opened Orders
  import opened ResourceFitting

  /** The last http-01 challenge of the authorization is in this state. */
  predicate Offers(z: Authorization, state: OrderStatus)
    requires z.Authorization?
  {
    exists i :: && 0 <= i < |z.challenges|
                && z.challenges[i].kind == "http-01" && z.challenges[i].status == state
                && forall j :: i < j < |z.challenges| ==> z.challenges[j].kind != "http-01"
  }

  /** An exposer object that was created just now, or was found to be ours. */
  predicate Usable(o: ObjectReply)
  {
    o == Missing(true) || o == Found(true, true)
  }

  /** Everything that comes before the exposer's container is in place. */
  predicate Prepared(x: Exposure)
  {
    x.keyAuthorization && Usable(x.route) && Usable(x.secret) && x.limitRangesListed
  }

  /** The ACME server refuses to be told that the challenge is exposed and validates. */
  predicate Rejected(x: Exposure)
  {
    x.admitted && x.available && x.selfValidated && !x.accepted
  }

  predicate Exposed(x: Exposure)
  {
    && Prepared(x) && Refusals(x.limitRanges) == 0
    && Usable(x.replicaSet) && Usable(x.service)
    && !Rejected(x)
  }

  /** Nothing is left to do: the authorization is in a final state. */
  predicate Concluded(z: Authorization)
  {
    z.Authorization? && z.status in {Valid, Invalid, Deactivated, Expired, Revoked}
  }

  /** The controller has done its part and waits: for the exposer, or for the server. */
  predicate Waiting(z: Authorization)
  {
    && z.Authorization? && z.status.Pending?
    && (|| Offers(z, Processing) || Offers(z, Valid) || Offers(z, Invalid)
        || (Offers(z, Pending) && Exposed(z.exposure)))
  }

  /** The exposer's container does not fit the LimitRanges. */
  predicate Unfit(z: Authorization)
  {
    && z.Authorization? && z.status.Pending? && Offers(z, Pending)
    && Prepared(z.exposure) && Refusals(z.exposure.limitRanges) != 0
  }

  /** A call failed, an object is not ours, or a state has no place here. */
  predicate Faulty(z: Authorization)
  {
    || z.Unreachable?
    || (!z.status.Pending? && !Concluded(z))
    || (&& z.status.Pending?
        && !Offers(z, Processing) && !Offers(z, Valid) && !Offers(z, Invalid)
        && (|| !Offers(z, Pending)
            || !Prepared(z.exposure)
            || (&& Refusals(z.exposure.limitRanges) == 0
                && (!Usable(z.exposure.replicaSet) || !Usable(z.exposure.service) || Rejected(z.exposure)))))
  }

  lemma OffersIff(z: Authorization, state: OrderStatus)
    requires z.Authorization?
    ensures Offers(z, state) <==> HttpChallenge(z.challenges).Some? && HttpChallenge(z.challenges).value.status == state
  {
    var c := HttpChallenge(z.challenges);
    if c.Some? {
      var i :| && 0 <= i < |z.challenges| && z.challenges[i] == c.value && c.value.kind == "http-01"
               && forall j :: i < j < |z.challenges| ==> z.challenges[j].kind != "http-01";
      if Offers(z, state) {
        var k :| && 0 <= k < |z.challenges|
                 && z.challenges[k].kind == "http-01" && z.challenges[k].status == state
                 && forall j :: k < j < |z.challenges| ==> z.challenges[j].kind != "http-01";
        assert i == k;
      }
    }
  }

  /** How one turn of the loop ends, by the authorization and what is answered about its exposer. */
  lemma TurnIff(z: Authorization)
    ensures Turn(z).Passed? <==> Concluded(z)
    ensures Turn(z).Requeued? <==> Waiting(z)
    ensures Turn(z).Declined? <==> Unfit(z)
    ensures Turn(z).Errored? <==> Faulty(z)
  {
    if z.Authorization? {
      OffersIff(z, Pending);
      OffersIff(z, Processing);
      OffersIff(z, Valid);
      OffersIff(z, Invalid);
    }
  }

  /** Which items of the namespace's LimitRanges are at fault when a turn is refused. */
  lemma DeclinedIff(z: Authorization)
    requires z.Authorization? ==> SaneRanges(z.exposure.limitRanges)
    ensures Turn(z).Declined? <==>
            && z.Authorization? && z.status.Pending? && Offers(z, Pending)
            && Prepared(z.exposure) && Unfittable(z.exposure.limitRanges)
  {
    TurnIff(z);
    if z.Authorization? {
      RefusedIff(z.exposure.limitRanges);
    }
  }

  // ---------------------------------------------------------------- the loop

  /** All before k are concluded or waiting, and k itself, if there is one, is neither. */
  predicate StopsAt(zs: seq<Authorization>, k: nat)
  {
    && k <= |zs|
    && (forall i :: 0 <= i < k ==> Concluded(zs[i]) || Waiting(zs[i]))
    && (k < |zs| ==> !Concluded(zs[k]) && !Waiting(zs[k]))
  }

  function CountWaiting(zs: seq<Authorization>): (n: nat)
  {
    if zs == [] then 0 else (if Waiting(zs[0]) then 1 else 0) + CountWaiting(zs[1..])
  }

  /** One requeue after 15 seconds for each authorization that waits, up to where the loop stops. */
  function Rechecks(zs: seq<Authorization>, k: nat): (delays: seq<int>)
    requires k <= |zs|
  {
    seq(CountWaiting(zs[..k]), _ => 15_000_000_000)
  }

  predicate Ends(zs: seq<Authorization>, k: nat, delays: seq<int>, end: LoopEnd)
    requires StopsAt(zs, k)
  {
    && end.delays == delays + Rechecks(zs, k)
    && (end.Completed? <==> k == |zs|)
    && (end.Refused? <==> k < |zs| && Unfit(zs[k]))
    && (end.Broken? <==> k < |zs| && Faulty(zs[k]))
  }

  lemma {:induction false} LoopStops(zs: seq<Authorization>) returns (k: nat)
    ensures StopsAt(zs, k)
    decreases |zs|
  {
    if zs == [] || !(Concluded(zs[0]) || Waiting(zs[0])) {
      k := 0;
    } else {
      var j := LoopStops(zs[1..]);
      k := j + 1;
      forall i | 0 <= i < k
        ensures Concluded(zs[i]) || Waiting(zs[i])
      {
        assert i > 0 ==> zs[i] == zs[1..][i - 1];
      }
    }
  }

  lemma StopsBehind(zs: seq<Authorization>, k: nat)
    requires 0 < k && StopsAt(zs, k)
    ensures StopsAt(zs[1..], k - 1)
    ensures CountWaiting(zs[..k]) == (if Waiting(zs[0]) then 1 else 0) + CountWaiting(zs[1..][..k - 1])
  {
    assert zs[..k][1..] == zs[1..][..k - 1];
  }

  /** The loop runs to the first authorization that is neither concluded nor waiting. That one decides
      how it ends, and every waiting one before it has asked for a recheck. */
  lemma {:induction false} WalkEnds(zs: seq<Authorization>, k: nat, delays: seq<int>)
    requires StopsAt(zs, k)
    ensures Ends(zs, k, delays, Walk(zs, delays))
    decreases |zs|
  {
    if zs == [] {
      assert Rechecks(zs, k) == [];
    } else {
      TurnIff(zs[0]);
      if k == 0 {
        assert Rechecks(zs, k) == [];
      } else {
        StopsBehind(zs, k);
        if Waiting(zs[0]) {
          WalkEnds(zs[1..], k - 1, delays + [RECHECK]);
          assert Rechecks(zs, k) == [RECHECK] + Rechecks(zs[1..], k - 1);
          assert delays + [RECHECK] + Rechecks(zs[1..], k - 1) == delays + Rechecks(zs, k);
        } else {
          WalkEnds(zs[1..], k - 1, delays);
        }
      }
    }
  }

  // ---------------------------------------------------------------- ends without a requeue

  predicate AllConcluded(zs: seq<Authorization>)
  {
    forall i :: 0 <= i < |zs| ==> Concluded(zs[i])
  }

  /** The first authorization that is not concluded is refused for the exposer's resources. */
  predicate UnfitFirst(zs: seq<Authorization>)
  {
    exists k :: 0 <= k < |zs| && Unfit(zs[k]) && AllConcluded(zs[..k])
  }

  lemma {:induction false} NoneWaiting(zs: seq<Authorization>)
    requires forall i :: 0 <= i < |zs| ==> Concluded(zs[i]) || Waiting(zs[i])
    ensures CountWaiting(zs) == 0 <==> AllConcluded(zs)
    decreases |zs|
  {
    if zs != [] {
      NoneWaiting(zs[1..]);
      if AllConcluded(zs[1..]) && Concluded(zs[0]) {
        assert forall i :: 0 < i < |zs| ==> zs[i] == zs[1..][i - 1];
      }
    }
  }

  /** Exactly when the loop ends without an error and without a requeue. */
  lemma WalkOutcome(zs: seq<Authorization>)
    ensures Walk(zs, []) == Completed([]) <==> AllConcluded(zs)
    ensures Walk(zs, []) == Refused([]) <==> UnfitFirst(zs)
  {
    var k := LoopStops(zs);
    QuietWalk(zs, k);
    CompletedStop(zs, k);
    UnfitStop(zs, k);
  }

  lemma QuietWalk(zs: seq<Authorization>, k: nat)
    requires StopsAt(zs, k)
    ensures Walk(zs, []) == Completed([]) <==> k == |zs| && AllConcluded(zs[..k])
    ensures Walk(zs, []) == Refused([]) <==> k < |zs| && Unfit(zs[k]) && AllConcluded(zs[..k])
  {
    WalkEnds(zs, k, []);
    NoneWaiting(zs[..k]);
    assert Walk(zs, []).delays == [] <==> CountWaiting(zs[..k]) == 0;
  }

  lemma CompletedStop(zs: seq<Authorization>, k: nat)
    requires StopsAt(zs, k)
    ensures AllConcluded(zs) <==> k == |zs| && AllConcluded(zs[..k])
  {
    assert zs[..|zs|] == zs;
  }

  lemma UnfitStop(zs: seq<Authorization>, k: nat)
    requires StopsAt(zs, k)
    ensures UnfitFirst(zs) <==> k < |zs| && Unfit(zs[k]) && AllConcluded(zs[..k])
  {
    if UnfitFirst(zs) {
      var j :| 0 <= j < |zs| && Unfit(zs[j]) && AllConcluded(zs[..j]);
      assert forall i :: 0 <= i < j ==> zs[i] == zs[..j][i];
      TurnIff(zs[j]);
      assert k == j;
    }
  }
}
