/** No reachable status is a dead end: with a cooperating server a wanted certificate is always near. */
module OrderProgress {
  import opened Api
  import opened Renewal
  import opened Orders
  import opened OrderRuns
  import Issuance

  /** An admitted, managed Route whose certificate has to be replaced now. */
  ghost predicate Wanting(cfg: Config, w: World)
  {
    var r := w.route;
    && Entitled(cfg, r)
    && NeedsCertKey(w.clock, r.tls, r.host).Renew?
  }

  /** Every call works, and no time passes. */
  function Smooth(w: World, newOrder: NewOrderReply, finalize: FinalizeReply): (a: Answers)
  {
    var undisturbed := Issuance.Attempt([], false, [], Acknowledged);
    Answers(w.clock, w.clock, w.clock, true, newOrder, true, [], finalize,
            seq(Issuance.ATTEMPTS, _ => undisturbed), Acknowledged)
  }

  function Stored(w: World): (s: Status)
    requires Decode(w.route.status).Some?
  {
    Decode(w.route.status).value
  }

  /** No order has to be looked after any more. */
  predicate Free(w: World)
    requires Decode(w.route.status).Some?
  {
    Stored(w).orderURI == "" || Terminal(Stored(w).orderStatus)
  }

  predicate Provisioned(w: World, key: string, certificate: Pem)
  {
    && Decode(w.route.status).Some?
    && Stored(w).orderStatus.Valid? && Stored(w).failures == 0
    && w.route.tls.Some? && w.route.tls.value.key == key && w.route.tls.value.certificate == certificate
  }

  /** A sync that finds its order dead lets go of it. */
  lemma DropStep(cfg: Config, w: World, e: Event)
    requires Inv(w) && Wanting(cfg, w) && !Free(w) && Dead(w.orders[Stored(w).orderURI])
    requires e == Sync(Smooth(w, NotOrdered, NotFinalized))
    ensures Legal(w, e)
    ensures var w' := Step(cfg, w, e); Inv(w') && Wanting(cfg, w') && Free(w') && w'.orders == w.orders
  {
    SyncKeepsInv(cfg, w, e.answers);
    DecisionIsChosen(cfg, w, e.answers);
    var act := Decide(cfg, w, e.answers);
    DeadOrderIsDropped(cfg, w, e.answers);
  }

  lemma DeadOrderIsDropped(cfg: Config, w: World, a: Answers)
    requires Inv(w) && Wanting(cfg, w) && !Free(w) && Dead(w.orders[Stored(w).orderURI])
    requires a == Smooth(w, NotOrdered, NotFinalized)
    ensures Decide(cfg, w, a).Forget? || Decide(cfg, w, a).CountFailure?
  {
  }

  lemma OpenStep(cfg: Config, w: World, uri: string, e: Event)
    requires Inv(w) && Wanting(cfg, w) && Free(w) && uri != "" && uri !in w.orders
    requires e == Sync(Smooth(w, Ordered(uri, Ready), NotFinalized))
    ensures Legal(w, e)
    ensures var w' := Step(cfg, w, e);
            && Inv(w') && Wanting(cfg, w')
            && Stored(w').orderURI == uri && Stored(w').orderStatus.Ready?
            && w'.orders == w.orders[uri := Live(Ready)]
  {
    SyncKeepsInv(cfg, w, e.answers);
    DecisionIsChosen(cfg, w, e.answers);
    var act := Decide(cfg, w, e.answers);
    assert act.Open?;
  }

  lemma IssueStep(cfg: Config, w: World, key: string, certificate: Pem, e: Event)
    requires Inv(w) && Wanting(cfg, w) && !Free(w) && w.orders[Stored(w).orderURI] == Live(Ready)
    requires e == Sync(Smooth(w, NotOrdered, Issued(key, certificate)))
    ensures Legal(w, e)
    ensures Provisioned(Step(cfg, w, e), key, certificate)
  {
    DecisionIsChosen(cfg, w, e.answers);
    var act := Decide(cfg, w, e.answers);
    assert act.Issue? && act.key == key && act.certificate == certificate;
  }

  lemma Prepend(cfg: Config, w: World, e: Event, es: seq<Event>)
    requires Legal(w, e) && LegalRun(cfg, Step(cfg, w, e), es)
    ensures LegalRun(cfg, w, [e] + es) && Exec(cfg, w, [e] + es) == Exec(cfg, Step(cfg, w, e), es)
  {
  }

  /** From a status with no order to look after, two syncs are enough. */
  lemma FromFree(cfg: Config, w: World, uri: string, key: string, certificate: Pem) returns (es: seq<Event>)
    requires Inv(w) && Wanting(cfg, w) && Free(w) && uri != "" && uri !in w.orders
    ensures LegalRun(cfg, w, es) && |es| == 2 && Provisioned(Exec(cfg, w, es), key, certificate)
  {
    var open := Sync(Smooth(w, Ordered(uri, Ready), NotFinalized));
    OpenStep(cfg, w, uri, open);
    var w1 := Step(cfg, w, open);
    var issue := Sync(Smooth(w1, NotOrdered, Issued(key, certificate)));
    IssueStep(cfg, w1, key, certificate, issue);
    Prepend(cfg, w1, issue, []);
    Prepend(cfg, w, open, [issue]);
    assert [issue] + [] == [issue];
    es := [open] + [issue];
  }

  lemma FromDead(cfg: Config, w: World, uri: string, key: string, certificate: Pem) returns (es: seq<Event>)
    requires Inv(w) && Wanting(cfg, w) && !Free(w) && Dead(w.orders[Stored(w).orderURI])
    requires uri != "" && uri !in w.orders
    ensures LegalRun(cfg, w, es) && |es| == 3 && Provisioned(Exec(cfg, w, es), key, certificate)
  {
    var drop := Sync(Smooth(w, NotOrdered, NotFinalized));
    DropStep(cfg, w, drop);
    var rest := FromFree(cfg, Step(cfg, w, drop), uri, key, certificate);
    Prepend(cfg, w, drop, rest);
    es := [drop] + rest;
  }

  /** Whatever has happened before, a Route that wants a certificate is at most three syncs and one
      move of the server away from it. */
  lemma NoDeadEnd(cfg: Config, w0: World, past: seq<Event>, w: World, uri: string, key: string, certificate: Pem)
    returns (es: seq<Event>)
    requires Initial(w0) && LegalRun(cfg, w0, past) && w == Exec(cfg, w0, past)
    requires Wanting(cfg, w) && uri != "" && uri !in w.orders
    ensures LegalRun(cfg, w, es) && |es| <= 4 && Provisioned(Exec(cfg, w, es), key, certificate)
  {
    InitialInv(w0);
    RunKeepsInv(cfg, w0, past);
    if Free(w) {
      es := FromFree(cfg, w, uri, key, certificate);
    } else if Dead(w.orders[Stored(w).orderURI]) {
      es := FromDead(cfg, w, uri, key, certificate);
    } else {
      es := FromOpen(cfg, w, uri, key, certificate);
    }
  }

  /** The server finishes the open order: to ready if it still can, otherwise to a certificate whose
      key is lost. */
  lemma FromOpen(cfg: Config, w: World, uri: string, key: string, certificate: Pem) returns (es: seq<Event>)
    requires Inv(w) && Wanting(cfg, w) && !Free(w) && !Dead(w.orders[Stored(w).orderURI])
    requires uri != "" && uri !in w.orders
    ensures LegalRun(cfg, w, es) && |es| <= 4 && Provisioned(Exec(cfg, w, es), key, certificate)
  {
    var u := Stored(w).orderURI;
    var target := if CanBecome(w.orders[u].status, Ready) then Ready else Valid;
    var move := ServerMoves(w.orders[u := Live(target)]);
    ServerMoveIsLegal(w, u, target);
    EnvironmentKeepsInv(cfg, w, move);
    var w1 := Step(cfg, w, move);
    var rest;
    if target.Ready? {
      var issue := Sync(Smooth(w1, NotOrdered, Issued(key, certificate)));
      IssueStep(cfg, w1, key, certificate, issue);
      Prepend(cfg, w1, issue, []);
      rest := [issue] + [];
    } else {
      rest := FromDead(cfg, w1, uri, key, certificate);
    }
    Prepend(cfg, w, move, rest);
    es := [move] + rest;
  }

  lemma ServerMoveIsLegal(w: World, u: string, target: OrderStatus)
    requires u in w.orders && w.orders[u].Live? && CanBecome(w.orders[u].status, target)
    ensures Legal(w, ServerMoves(w.orders[u := Live(target)]))
  {
  }
}
