/** The route controller's sync in its own imperative form, proved to take the decision of Orders. */
module RouteSync {
  import opened Api
  import opened Renewal
  import opened Orders
  import opened Authorizations
  import Issuance
  import ResourceFitting
  import Backoff

  class RouteController {
    const cfg: Config
    /** The Route at the API server, and the orders at the ACME server. */
    var route: Route
    var orders: map<string, Entry>
    var clock: int
    /** Every AddAfter asked for, oldest first. */
    var scheduled: seq<int>
    ghost var history: History

    constructor (cfg: Config, route: Route, orders: map<string, Entry>, clock: int)
      ensures this.cfg == cfg && Snapshot() == World(route, orders, clock, NO_HISTORY) && scheduled == []
    {
      this.cfg, this.route, this.orders, this.clock := cfg, route, orders, clock;
      this.scheduled, this.history := [], NO_HISTORY;
    }

    ghost function Snapshot(): (w: World)
      reads this
    {
      World(route, orders, clock, history)
    }

    method UpdateStatus(status: Status, outcome: WriteOutcome) returns (err: bool)
      modifies this`route
      ensures route == Patched(old(route), status, outcome)
      ensures err <==> PatchFails(old(route), status, outcome)
    {
      var next := status.(observedGeneration := route.generation);
      if route.status == Yaml(next) {
        return false;
      }
      if outcome.Dropped? {
        return true;
      }
      route := route.(status := Json(next));
      return outcome.Unacknowledged?;
    }

    method FindChallenge(challenges: seq<Challenge>) returns (challenge: Option<Challenge>)
      ensures challenge == HttpChallenge(challenges)
    {
      challenge := None;
      for i := 0 to |challenges|
        invariant challenge == HttpChallenge(challenges[..i])
      {
        assert challenges[..i + 1][..i] == challenges[..i];
        if challenges[i].kind == "http-01" {
          challenge := Some(challenges[i]);
        }
      }
      assert challenges[..|challenges|] == challenges;
    }

    /** One turn of the loop over the authorizations: pass over one in a final state, expose the challenge
        of a pending one and offer it to the server, or wait for the server. */
    method Attend(z: Authorization) returns (turn: TurnEnd)
      ensures turn == Turn(z)
      ensures turn.Passed? <==> Concluded(z)
      ensures turn.Requeued? <==> Waiting(z)
      ensures turn.Declined? <==> Unfit(z)
      ensures turn.Errored? <==> Faulty(z)
    {
      TurnIff(z);
      if z.Unreachable? {
        return Errored;
      }
      if Terminal(z.status) {
        return Passed;
      }
      if !z.status.Pending? {
        return Errored;
      }
      var challenge := FindChallenge(z.challenges);
      if challenge.None? {
        return Errored;
      }
      if challenge.value.status.Pending? {
        var x := z.exposure;
        if !x.keyAuthorization || !Ensured(x.route) || !Ensured(x.secret) || !x.limitRangesListed {
          return Errored;
        }
        var errors, _, _ := ResourceFitting.FitExposer(x.limitRanges);
        if errors > 0 {
          return Declined;
        }
        if !Ensured(x.replicaSet) || !Ensured(x.service) {
          return Errored;
        }
        if x.admitted && x.available && x.selfValidated && !x.accepted {
          return Errored;
        }
      } else {
        var state := challenge.value.status;
        if !state.Processing? && !state.Valid? && !state.Invalid? {
          return Errored;
        }
      }
      return Requeued;
    }

    /** The loop over the authorizations of a pending order. */
    method SatisfyAuthorizations(zs: seq<Authorization>) returns (end: LoopEnd)
      modifies this`scheduled
      ensures end == Walk(zs, [])
      ensures scheduled == old(scheduled) + end.delays
    {
      var delays := [];
      for i := 0 to |zs|
        invariant Walk(zs, []) == Walk(zs[i..], delays)
        invariant scheduled == old(scheduled) + delays
      {
        assert zs[i..][0] == zs[i] && zs[i..][1..] == zs[i + 1..];
        var turn := Attend(zs[i]);
        match turn
        case Passed =>
        case Requeued =>
          scheduled := scheduled + [RECHECK];
          delays := delays + [RECHECK];
        case Declined => return Refused(delays);
        case Errored => return Broken(delays);
      }
      return Completed(delays);
    }

    /** AuthorizeOrder: the server may have executed the request even when the client sees an error. */
    method AuthorizeOrder(reply: NewOrderReply, ghost recorded: bool) returns (err: bool)
      modifies this`orders, this`history
      ensures err <==> !reply.Ordered?
      ensures reply.NotOrdered? ==> orders == old(orders) && history == old(history)
      ensures !reply.NotOrdered? ==>
                && orders == old(orders)[reply.uri := Live(reply.status)]
                && history == old(history).(created := old(history).created + {reply.uri},
                                            lost := if recorded && reply.Ordered? then old(history).lost
                                                    else old(history).lost + {reply.uri})
    {
      if reply.NotOrdered? {
        return true;
      }
      orders := orders[reply.uri := Live(reply.status)];
      history := history.(created := history.created + {reply.uri});
      if !(recorded && reply.Ordered?) {
        history := history.(lost := history.lost + {reply.uri});
      }
      return reply.OrderedUnseen?;
    }

    /** Store a failed order's status and remember whether it was counted. */
    method ReportFailure(uri: string, status: Status, outcome: WriteOutcome) returns (err: bool)
      modifies this`route, this`history
      ensures route == Patched(old(route), status, outcome)
      ensures err <==> PatchFails(old(route), status, outcome)
      ensures history == old(history).(polled := old(history).polled + {uri},
                                       counted := if outcome.Dropped? then old(history).counted
                                                  else old(history).counted + {uri})
    {
      err := UpdateStatus(status, outcome);
      history := history.(polled := history.polled + {uri});
      if !outcome.Dropped? {
        history := history.(counted := history.counted + {uri});
      }
    }

    /** One work item. The outcome, the requeues and the new world are those of the decision table. */
    method Sync(a: Answers) returns (err: bool)
      modifies this
      ensures var act := Decide(cfg, old(Snapshot()), a);
              && Snapshot() == After(old(Snapshot()), act, a)
              && scheduled == old(scheduled) + Delays(act)
              && (err <==> Fails(old(Snapshot()), act, a))
    {
      err := Guarded(a);
      clock := a.orderedAt;
    }

    /** The guards in front of the certificate check. */
    method Guarded(a: Answers) returns (err: bool)
      modifies this`route, this`orders, this`history, this`scheduled
      ensures var act := Decide(cfg, old(Snapshot()), a);
              && Snapshot() == Effect(old(Snapshot()), act, a)
              && scheduled == old(scheduled) + Delays(act)
              && (err <==> Fails(old(Snapshot()), act, a))
    {
      ghost var act := Decide(cfg, Snapshot(), a);
      if route.deleting || !IsManaged(route.annotations, route.labels, cfg.annotation) {
        assert act == Skip;
        return false;
      }
      var admitted := IsAdmitted(route.ingress);
      if !admitted {
        assert act == Skip;
        return false;
      }
      if Decode(route.status).None? {
        assert act == Abort(NoContact);
        return true;
      }
      var status := Decode(route.status).value;
      var backoff := Backoff.Compute(status.failures, cfg.backoffInitial, cfg.backoffMax);
      status := status.(earliestAttemptAt := status.startedAt + backoff);
      assert act == Judge(route, orders, status, a);
      err := Examine(status, a);
    }

    /** Look at the certificate: rest until the renewal instant, or provision. */
    method Examine(status0: Status, a: Answers) returns (err: bool)
      modifies this`route, this`orders, this`history, this`scheduled
      ensures var act := Judge(old(route), old(orders), status0, a);
              && Snapshot() == Effect(old(Snapshot()), act, a)
              && scheduled == old(scheduled) + Delays(act)
              && (err <==> Fails(old(Snapshot()), act, a))
    {
      var status := status0;
      var verdict := NeedsCertKey(a.evaluatedAt, route.tls, route.host);
      if verdict.BadCertificate? {
        return true;
      }
      if verdict.Healthy? && !InFlight(status.orderStatus) {
        NeverLate(route.tls.value.certificate.leaf, a.evaluatedAt);
        if verdict.requeueAfter > 0 {
          scheduled := scheduled + [verdict.requeueAfter];
        }
        if status.orderURI != "" || status.orderStatus != Unset {
          status := Clear(status);
          err := UpdateStatus(status, a.write);
          return err;
        }
        return false;
      }
      err := Continue(status, a);
    }

    /** The rest of sync, once a certificate is wanted. */
    method Continue(status0: Status, a: Answers) returns (err: bool)
      modifies this`route, this`orders, this`history, this`scheduled
      ensures var act := Provision(old(orders), status0, a);
              && Snapshot() == Effect(old(Snapshot()), act, a)
              && scheduled == old(scheduled) + Delays(act)
              && (err <==> Fails(old(Snapshot()), act, a))
    {
      var status := status0;
      if status.orderStatus.Unset? || status.orderStatus.Valid? {
        status := Clear(status);
      } else if Failed(status.orderStatus) {
        var delay := Sub(status.earliestAttemptAt, a.delayCheckedAt);
        if delay > 0 {
          scheduled := scheduled + [delay];
          err := UpdateStatus(status, a.write);
          return err;
        }
        status := Clear(status);
      }

      if !a.accountUsable {
        return true;
      }

      if status.orderURI == "" {
        err := AuthorizeOrder(a.newOrder, !a.write.Dropped?);
        if err {
          return true;
        }
        status := status.(startedAt := a.orderedAt);
        status := status.(orderURI := a.newOrder.uri, orderStatus := a.newOrder.status);
        err := UpdateStatus(status, a.write);
        return err;
      }

      if !a.orderFetched {
        return true;
      }
      if status.orderURI !in orders || orders[status.orderURI].Gone? {
        var dropped := status.orderURI;
        status := status.(orderURI := "");
        err := UpdateStatus(status, a.write);
        if !a.write.Dropped? && dropped in history.polled - history.counted {
          history := history.(forgotten := history.forgotten + {dropped});
        }
        return err;
      }
      err := Advance(status, orders[status.orderURI].status, a);
    }

    /** The switch on the state of the fetched order. */
    method Advance(status0: Status, polled: OrderStatus, a: Answers) returns (err: bool)
      modifies this`route, this`orders, this`history, this`scheduled
      ensures var act := Progress(status0, polled, a);
              && Snapshot() == Effect(old(Snapshot()), act, a)
              && scheduled == old(scheduled) + Delays(act)
              && (err <==> Fails(old(Snapshot()), act, a))
    {
      var previous := status0.orderStatus;
      var status := status0.(orderStatus := polled);
      match polled
      case Pending =>
        err := Pursue(status, a);
      case Processing =>
        scheduled := scheduled + [RECHECK];
        err := UpdateStatus(status, a.write);
      case Ready =>
        err := Finalize(status, a);
      case Valid =>
        if status.orderStatus != previous {
          status := status.(failures := status.failures + 1);
        }
        status := Clear(status);
        err := ReportFailure(status0.orderURI, status, a.write);
      case Unset =>
        return true;
      case Other(_) =>
        return true;
      case _ =>
        if status.orderStatus != previous {
          status := status.(failures := status.failures + 1);
        }
        err := ReportFailure(status0.orderURI, status, a.write);
    }

    /** A pending order: see to its authorizations, then store its state. */
    method Pursue(status: Status, a: Answers) returns (err: bool)
      modifies this`route, this`scheduled
      requires status.orderStatus.Pending?
      ensures var act := Progress(status, Pending, a);
              && Snapshot() == Effect(old(Snapshot()), act, a)
              && scheduled == old(scheduled) + Delays(act)
              && (err <==> Fails(old(Snapshot()), act, a))
    {
      var end := SatisfyAuthorizations(a.authorizations);
      if end.Refused? {
        return false;
      }
      if end.Broken? {
        return true;
      }
      err := UpdateStatus(status, a.write);
    }

    /** A ready order: finalize it and store the certificate with its status, retrying on conflicts. */
    method Finalize(status0: Status, a: Answers) returns (err: bool)
      modifies this`route, this`orders, this`history
      requires status0.orderStatus.Ready?
      ensures var act := Progress(status0, Ready, a);
              && Snapshot() == Effect(old(Snapshot()), act, a)
              && (err <==> Fails(old(Snapshot()), act, a))
    {
      var status := status0;
      if a.finalize.NotFinalized? {
        return true;
      }
      orders := orders[status.orderURI := Live(Valid)];
      if a.finalize.Unconvertible? {
        return true;
      }
      status := status.(orderStatus := Valid);
      status := status.(failures := 0);
      var store := new Issuance.RouteStore(Issuance.Versioned(0, route));
      var issue := Issuance.NewCertificate(a.finalize.key, a.finalize.certificate, status);
      var ok := store.StoreCertificate(a.attempts, issue);
      route := store.stored.route;
      if Issuance.Stores(a.attempts) {
        history := history.(polled := {}, counted := {}, forgotten := {});
      }
      return !ok;
    }
  }
}
