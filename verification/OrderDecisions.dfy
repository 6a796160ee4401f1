/**
 What a sync does, told from the Route, the stored status and the answers it gets: whom it acts for, when
 it talks to the ACME server, and what it stores. The statements hold in every world, reachable or not;
 the last part lifts them to runs.
 */
module OrderDecisions {
  import opened Api
  import opened Renewal
  import opened Orders
  import opened OrderRuns
  import Issuance
  import Backoff

  /** A certificate has to be replaced, or an order is on its way. */
  predicate Wanted(w: World, s: Status, a: Answers)
  {
    var v := NeedsCertKey(a.evaluatedAt, w.route.tls, w.route.host);
    v.Renew? || (v.Healthy? && s.orderStatus in {Pending, Processing, Ready})
  }

  /** The order on record failed, and it is too early for the next one. */
  predicate TooEarly(cfg: Config, s: Status, a: Answers)
  {
    && s.orderStatus in {Invalid, Expired, Revoked, Deactivated}
    && s.startedAt + Backoff.Written(s.failures, cfg.backoffInitial, cfg.backoffMax) > a.delayCheckedAt
  }

  /** There is no order on record that could still be used. */
  predicate Vacant(s: Status)
  {
    s.orderURI == "" || s.orderStatus in {Unset, Valid, Invalid, Expired, Revoked, Deactivated}
  }

  ghost predicate Proceeds(cfg: Config, w: World, a: Answers)
  {
    && Entitled(cfg, w.route) && Decode(w.route.status).Some?
    && var s := Decode(w.route.status).value;
       Wanted(w, s, a) && !TooEarly(cfg, s, a) && a.accountUsable
  }

  /** The ACME server is contacted exactly for an entitled Route that wants a certificate and has an
      account to order it with; a new order is placed exactly if none is on record. */
  lemma ContactIff(cfg: Config, w: World, a: Answers)
    ensures ContactOf(Decide(cfg, w, a)) != NoContact <==> Proceeds(cfg, w, a)
    ensures ContactOf(Decide(cfg, w, a)) == Ordering <==>
            Proceeds(cfg, w, a) && Vacant(Decode(w.route.status).value)
  {
  }

  /** The other things an entitled Route can meet with. */
  lemma RestIff(cfg: Config, w: World, a: Answers)
    requires Entitled(cfg, w.route)
    ensures var act := Decide(cfg, w, a); var v := NeedsCertKey(a.evaluatedAt, w.route.tls, w.route.host);
            if w.route.status.Garbled? || v.BadCertificate? then act == Abort(NoContact)
            else
              var s := Decode(w.route.status).value;
              var earliest := s.startedAt + Backoff.Written(s.failures, cfg.backoffInitial, cfg.backoffMax);
              if !Wanted(w, s, a) then
                && Delays(act) == [v.requeueAfter]
                && if s.orderURI == "" && s.orderStatus.Unset? then act == Rest(v.requeueAfter)
                   else
                     && act.Settle?
                     && act.next == s.(orderURI := "", orderStatus := Unset, earliestAttemptAt := earliest)
              else if TooEarly(cfg, s, a) then
                && act.Throttle? && act.next == s.(earliestAttemptAt := earliest)
                && Delays(act) == [Sub(earliest, a.delayCheckedAt)] && Sub(earliest, a.delayCheckedAt) > 0
              else if !a.accountUsable then act == Abort(NoContact)
              else ContactOf(act) != NoContact
  {
  }

  /** What comes of a request for a new order. */
  lemma OrderingOutcome(cfg: Config, w: World, a: Answers)
    requires ContactOf(Decide(cfg, w, a)) == Ordering
    ensures var act := Decide(cfg, w, a); var s := Decode(w.route.status).value;
            && Decode(w.route.status).Some?
            && (a.newOrder.NotOrdered? ==> act == Abort(Ordering))
            && (a.newOrder.OrderedUnseen? ==> act == Lose(a.newOrder.uri, a.newOrder.status))
            && (a.newOrder.Ordered? ==>
                  && act.Open? && act.uri == a.newOrder.uri && act.status == a.newOrder.status
                  && act.next == s.(startedAt := a.orderedAt, orderURI := a.newOrder.uri,
                                    orderStatus := a.newOrder.status, earliestAttemptAt := act.next.earliestAttemptAt))
  {
  }

  /** What comes of looking at the order on record. Every failed order met this way is counted: an order
      already recorded as failed is let go before it is looked at again. */
  lemma PollingOutcome(cfg: Config, w: World, a: Answers)
    requires ContactOf(Decide(cfg, w, a)) == Polling
    ensures Decode(w.route.status).Some?
    ensures var act := Decide(cfg, w, a); var s := Decode(w.route.status).value;
            if !a.orderFetched then act == Abort(Polling)
            else if s.orderURI !in w.orders || w.orders[s.orderURI].Gone? then
              act.Forget? && act.uri == s.orderURI
              && act.next == s.(orderURI := "", earliestAttemptAt := act.next.earliestAttemptAt)
            else PolledOutcome(act, s, w.orders[s.orderURI].status, a)
  {
  }

  /** The requeues of a sync that has talked to the server: those of the authorization loop, however it
      ended, one for an order in processing, and none otherwise. */
  lemma RequeuesAfterContact(cfg: Config, w: World, a: Answers)
    requires Proceeds(cfg, w, a)
    ensures var s := Decode(w.route.status).value;
            var polled := if !Vacant(s) && a.orderFetched && s.orderURI in w.orders && w.orders[s.orderURI].Live?
                          then w.orders[s.orderURI].status else Unset;
            Delays(Decide(cfg, w, a)) == if polled.Pending? then Walk(a.authorizations, []).delays
                                         else if polled.Processing? then [15_000_000_000] else []
  {
  }

  predicate PolledOutcome(act: Action, s: Status, polled: OrderStatus, a: Answers)
  {
    if polled.Unset? || polled.Other? then act == Abort(Polling)
    else if polled.Ready? then
      match a.finalize
      case NotFinalized => act == Abort(Polling)
      case Unconvertible => act == Burn(s.orderURI)
      case Issued(key, certificate) =>
        && act.Issue? && act.uri == s.orderURI && act.key == key && act.certificate == certificate
        && act.next == s.(orderStatus := Valid, failures := 0, earliestAttemptAt := act.next.earliestAttemptAt)
    else if polled.Processing? then
      && act.Await? && act.delays == [15_000_000_000]
      && act.next == s.(orderStatus := polled, earliestAttemptAt := act.next.earliestAttemptAt)
    else if polled.Pending? then
      match Walk(a.authorizations, [])
      case Completed(delays) =>
        && act.Await? && act.delays == delays
        && act.next == s.(orderStatus := polled, earliestAttemptAt := act.next.earliestAttemptAt)
      case Refused(delays) => act == Blocked(delays)
      case Broken(delays) => act == Interrupted(delays)
    else
      && act.CountFailure? && act.uri == s.orderURI
      && act.next == s.(orderStatus := if polled.Valid? then Unset else polled,
                        orderURI := if polled.Valid? then "" else s.orderURI,
                        failures := s.failures + 1, earliestAttemptAt := act.next.earliestAttemptAt)
  }

  /** Even if such an order were looked at, it would not be counted twice. */
  lemma SameStateIsNotCountedAgain(s: Status, a: Answers)
    requires Terminal(s.orderStatus)
    ensures Progress(s, s.orderStatus, a).CountFailure? && Progress(s, s.orderStatus, a).next.failures == s.failures
  {
  }

  // ---------------------------------------------------------------- what is stored

  predicate Patches(act: Action)
  {
    act.Settle? || act.Throttle? || act.Open? || act.Forget? || act.Await? || act.CountFailure?
  }

  /** A sync that decides on a new status and reports no error has stored it, with the generation it saw;
      one whose write was lost has stored nothing, and reports an error unless the very text was there. */
  lemma SuccessMeansStored(w: World, act: Action, a: Answers)
    requires Patches(act)
    ensures var stored := act.next.(observedGeneration := w.route.generation); var r' := After(w, act, a).route;
            && r'.(status := w.route.status) == w.route
            && (!Fails(w, act, a) ==> Decode(r'.status) == Some(stored))
            && (!a.write.Dropped? ==> Decode(r'.status) == Some(stored))
            && (a.write.Dropped? ==> r' == w.route)
            && (Fails(w, act, a) <==> !a.write.Acknowledged? && w.route.status != Yaml(stored))
  {
  }

  /** Of the other syncs, those report an error in which a call failed or an answer made no sense, and they
      leave the Route as it is. */
  lemma FailedCallIsReported(w: World, act: Action, a: Answers)
    requires !Patches(act) && !act.Issue?
    ensures Fails(w, act, a) <==> act.Abort? || act.Interrupted? || act.Lose? || act.Burn?
    ensures After(w, act, a).route == w.route
  {
  }

  /** A sync that stores no certificate leaves the Route's TLS alone; one that reports to have stored it
      leaves its key, its certificate and its status on the Route, and does so exactly if one of five
      attempts is undisturbed and answered after nothing but lost races. */
  lemma IssueMeansStored(w: World, act: Action, a: Answers)
    ensures !act.Issue? ==> After(w, act, a).route.tls == w.route.tls
    ensures act.Issue? && !Fails(w, act, a) ==>
              var r' := After(w, act, a).route;
              && r'.tls.Some? && r'.tls.value.key == act.key && r'.tls.value.certificate == act.certificate
              && Decode(r'.status) == Some(act.next.(observedGeneration := r'.generation))
    ensures act.Issue? ==>
              (!Fails(w, act, a) <==>
               exists k :: && 0 <= k < 5 && Issuance.LostRaces(a.attempts, k)
                           && !a.attempts[k].getFails && a.attempts[k].between == []
                           && a.attempts[k].update.Acknowledged?)
  {
    if act.Issue? {
      Issuance.StoredWithinFiveAttempts(a.attempts);
      var k := Issuance.SomeAttemptIsTheLast(a.attempts);
      Issuance.LastAttemptDecides(a.attempts, k);
    }
  }

  /** The certificate was issued, and its private key is lost with the sync: the order is valid at the
      server for good, whatever is on the Route. */
  lemma LostKeyIsAnOrphan(w: World, act: Action, a: Answers)
    requires act.Burn? || (act.Issue? && !Issuance.Stores(a.attempts))
    ensures var w' := After(w, act, a);
            && act.uri in w'.orders && w'.orders[act.uri] == Live(Valid)
            && w'.history == w.history
            && (act.Burn? ==> w'.route == w.route)
  {
  }

  // ---------------------------------------------------------------- runs

  /** No sync of the run finds the Route entitled. */
  ghost predicate NeverEntitled(cfg: Config, w: World, es: seq<Event>)
  {
    forall k :: 0 <= k < |es| && es[k].Sync? ==> !Entitled(cfg, Exec(cfg, w, es[..k]).route)
  }

  /** Then nothing is ordered, polled or written for it, however long the run. */
  lemma {:induction false} NotEntitledNotTouched(cfg: Config, w: World, es: seq<Event>)
    requires LegalRun(cfg, w, es) && NeverEntitled(cfg, w, es)
    ensures var w' := Exec(cfg, w, es); w'.history == w.history && w'.route.status == w.route.status
    decreases |es|
  {
    if es != [] {
      var w1 := Step(cfg, w, es[0]);
      if es[0].Sync? {
        assert es[..0] == [];
        SkipIff(cfg, w, es[0].answers);
      }
      assert NeverEntitled(cfg, w1, es[1..]) by {
        forall k | 0 <= k < |es| - 1 && es[1..][k].Sync?
          ensures !Entitled(cfg, Exec(cfg, w1, es[1..][..k]).route)
        {
          assert es[..k + 1][1..] == es[1..][..k] && es[..k + 1][0] == es[0];
        }
      }
      NotEntitledNotTouched(cfg, w1, es[1..]);
    }
  }

  /** Every order of a run goes back to a sync that found the Route entitled and without a usable order. */
  lemma {:induction false} CreatedForEntitled(cfg: Config, w: World, es: seq<Event>, n: nat, u: string) returns (k: nat)
    requires Initial(w) && LegalRun(cfg, w, es) && n <= |es| && u in Exec(cfg, w, es[..n]).history.created
    ensures k < n && es[k].Sync? && Proceeds(cfg, Exec(cfg, w, es[..k]), es[k].answers)
    ensures Vacant(Decode(Exec(cfg, w, es[..k]).route.status).value)
    ensures u !in Exec(cfg, w, es[..k]).history.created && u in Exec(cfg, w, es[..k + 1]).history.created
    decreases n
  {
    assert es[..0] == [];
    PrefixNext(cfg, w, es, n - 1);
    var before := Exec(cfg, w, es[..n - 1]);
    if u in before.history.created {
      k := CreatedForEntitled(cfg, w, es, n - 1, u);
    } else {
      k := n - 1;
      CreationIsOrdered(cfg, before, es[k], u);
    }
  }

  lemma PrefixNext(cfg: Config, w: World, es: seq<Event>, n: nat)
    requires Initial(w) && LegalRun(cfg, w, es) && n < |es|
    ensures Exec(cfg, w, es[..n + 1]) == Step(cfg, Exec(cfg, w, es[..n]), es[n])
  {
    InitialInv(w);
    PrefixStep(cfg, w, es, n);
  }

  lemma CreationIsOrdered(cfg: Config, w: World, e: Event, u: string)
    requires u !in w.history.created && u in Step(cfg, w, e).history.created
    ensures e.Sync? && Proceeds(cfg, w, e.answers) && Vacant(Decode(w.route.status).value)
  {
    if e.Sync? {
      ContactIff(cfg, w, e.answers);
    }
  }
}
