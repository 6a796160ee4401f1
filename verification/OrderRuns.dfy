/**
 Whole runs of the provisioning protocol: any interleaving of syncs, moves of the ACME server
 (section 7.1.6 of RFC 8555), edits of the Route by its users, and the passing of time. Each sync
 reads the current Route, users leave the status annotation alone, and the server answers only with
 states it knows.
 */
module OrderRuns {
  import opened Api
  import opened Renewal
  import opened Orders
  import opened GoMath
  import Issuance
  import opened Authorizations
  import Backoff

  datatype Event =
    | Sync(answers: Answers)
    | ServerMoves(orders: map<string, Entry>)
    | UserEdits(route: Route)
    | TimePasses(clock: int)

  predicate Known(s: OrderStatus)
  {
    InFlight(s) || Terminal(s)
  }

  /** The order moves section 7.1.6 allows, taken any number of times; the final states absorb. */
  predicate CanBecome(s: OrderStatus, t: OrderStatus)
  {
    match s
    case Pending => Known(t)
    case Ready => t.Ready? || t.Processing? || Terminal(t)
    case Processing => t.Processing? || Terminal(t)
    case _ => s == t
  }

  predicate Evolves(e: Entry, f: Entry)
  {
    match e
    case Gone => f.Gone?
    case Live(s) => f.Gone? || CanBecome(s, f.status)
  }

  /** A URI the server may hand out: never used before, or an order still open that it reuses. */
  predicate Offered(orders: map<string, Entry>, uri: string, status: OrderStatus)
  {
    && uri != ""
    && Known(status)
    && (uri in orders ==> orders[uri] == Live(status) && InFlight(status))
  }

  predicate LegalAnswers(w: World, a: Answers)
  {
    && w.clock <= a.evaluatedAt <= a.delayCheckedAt <= a.orderedAt
    && Issuance.StatusKept(a.attempts, w.route.status)
    && (a.newOrder.Ordered? ==> Offered(w.orders, a.newOrder.uri, a.newOrder.status))
    && (a.newOrder.OrderedUnseen? ==> Offered(w.orders, a.newOrder.uri, a.newOrder.status))
  }

  predicate Legal(w: World, e: Event)
  {
    match e
    case Sync(a) => LegalAnswers(w, a)
    case ServerMoves(orders) =>
      forall u :: u in w.orders ==> u in orders && Evolves(w.orders[u], orders[u])
    case UserEdits(route) => route.status == w.route.status
    case TimePasses(clock) => w.clock <= clock
  }

  ghost function Step(cfg: Config, w: World, e: Event): (w': World)
  {
    match e
    case Sync(a) => After(w, Decide(cfg, w, a), a)
    case ServerMoves(orders) => w.(orders := orders)
    case UserEdits(route) => w.(route := route)
    case TimePasses(clock) => w.(clock := clock)
  }

  ghost function Exec(cfg: Config, w: World, es: seq<Event>): (w': World)
    decreases es
  {
    if es == [] then w else Exec(cfg, Step(cfg, w, es[0]), es[1..])
  }

  ghost predicate LegalRun(cfg: Config, w: World, es: seq<Event>)
    decreases es
  {
    es == [] || (Legal(w, es[0]) && LegalRun(cfg, Step(cfg, w, es[0]), es[1..]))
  }

  /** Before the controller has ever touched the Route. */
  predicate Initial(w: World)
  {
    && w.route.status == NoText
    && w.clock >= 0
    && w.history == NO_HISTORY
  }

  // ---------------------------------------------------------------- whom a sync acts for

  /** The Route is not being deleted, its owner asks for certificates, it is not an exposer, and at least
      one router has admitted it and none has refused it. */
  ghost predicate Entitled(cfg: Config, r: Route)
  {
    && !r.deleting
    && cfg.annotation in r.annotations && r.annotations[cfg.annotation] == "true"
    && !(TEMPORARY_LABEL in r.labels && r.labels[TEMPORARY_LABEL] == "true")
    && Admitted(r.ingress)
  }

  /** Exactly the other Routes are skipped, and then nothing at all happens. */
  lemma SkipIff(cfg: Config, w: World, a: Answers)
    ensures Decide(cfg, w, a).Skip? <==> !Entitled(cfg, w.route)
    ensures !Entitled(cfg, w.route) ==>
              var act := Decide(cfg, w, a);
              After(w, act, a) == w.(clock := a.orderedAt) && !Fails(w, act, a) && Delays(act) == []
  {
  }

  // ---------------------------------------------------------------- the invariant

  predicate Dead(e: Entry)
  {
    e.Gone? || Terminal(e.status)
  }

  /** Reachable statuses: no URI without a state, and a state without a URI only while in flight. */
  predicate StatusOk(s: Status)
  {
    && (s.orderStatus.Unset? || Known(s.orderStatus))
    && (s.orderStatus.Unset? ==> s.orderURI == "")
    && (s.orderURI == "" ==> s.orderStatus.Unset? || InFlight(s.orderStatus))
  }

  predicate OrdersOk(s: Status, orders: map<string, Entry>, h: History)
  {
    && h.created <= orders.Keys
    && "" !in h.created
    && h.lost <= h.created
    && (s.orderURI != "" ==> s.orderURI in h.created)
    && (s.orderURI != "" && Terminal(s.orderStatus) ==> Dead(orders[s.orderURI]))
    && (forall u :: u in h.created && !Dead(orders[u]) ==>
                      InFlight(orders[u].status) && (u == s.orderURI || u in h.lost))
  }

  /** u is the order on record, and as far as the record goes it is still in flight. */
  predicate Unreported(s: Status, u: string)
  {
    u == s.orderURI && InFlight(s.orderStatus)
  }

  predicate FailuresOk(s: Status, orders: map<string, Entry>, h: History)
    requires h.created <= orders.Keys
  {
    && h.counted <= h.polled <= h.created
    && h.forgotten <= h.polled
    && (forall u :: u in h.polled ==> Dead(orders[u]))
    && s.failures == |h.counted|
    && s.orderURI !in h.forgotten
    && (forall u :: u in h.forgotten ==> orders[u].Gone?)
    && (forall u :: u in h.polled ==> (u !in h.counted <==> u in h.forgotten || Unreported(s, u)))
  }

  predicate Inv(w: World)
  {
    && Decode(w.route.status).Some?
    && var s := Decode(w.route.status).value;
       && StatusOk(s)
       && OrdersOk(s, w.orders, w.history)
       && FailuresOk(s, w.orders, w.history)
       && 0 <= s.startedAt <= w.clock
  }

  lemma InitialInv(w: World)
    requires Initial(w)
    ensures Inv(w)
  {
  }

  /** Nothing but a sync touches the status, so the environment only has to keep dead orders dead. */
  lemma EnvironmentKeepsInv(cfg: Config, w: World, e: Event)
    requires Inv(w) && Legal(w, e) && !e.Sync?
    ensures Inv(Step(cfg, w, e))
  {
  }

  /** The circumstances under which each action is chosen in a reachable world. In particular the
      rate limit never is: the written backoff is not positive and the clock does not run back. */
  predicate Chosen(w: World, act: Action, a: Answers)
    requires Decode(w.route.status).Some?
  {
    var s := Decode(w.route.status).value;
    && !act.Throttle?
    && (ContactOf(act) == Polling ==> InFlight(s.orderStatus) && s.orderURI != "")
    && (ContactOf(act) == Ordering ==> s.orderURI == "" || Terminal(s.orderStatus))
    && match act
       case Lose(uri, status) => Offered(w.orders, uri, status)
       case Settle(_, next) =>
         !InFlight(s.orderStatus) && next == Clear(s).(earliestAttemptAt := next.earliestAttemptAt)
       case Open(uri, status, next) =>
         && Offered(w.orders, uri, status)
         && next == s.(orderURI := uri, orderStatus := status, startedAt := a.orderedAt,
                       earliestAttemptAt := next.earliestAttemptAt)
       case Forget(uri, next) =>
         && uri == s.orderURI
         && (s.orderURI !in w.orders || w.orders[s.orderURI].Gone?)
         && next == s.(orderURI := "", earliestAttemptAt := next.earliestAttemptAt)
       case Await(_, next) =>
         && s.orderURI in w.orders && w.orders[s.orderURI] == Live(next.orderStatus)
         && (next.orderStatus.Pending? || next.orderStatus.Processing?)
         && next == s.(orderStatus := next.orderStatus, earliestAttemptAt := next.earliestAttemptAt)
       case Burn(uri) => uri == s.orderURI && uri in w.orders && w.orders[uri] == Live(Ready)
       case Issue(uri, _, _, next) =>
         && uri == s.orderURI && uri in w.orders && w.orders[uri] == Live(Ready)
         && next == s.(orderStatus := Valid, failures := 0, earliestAttemptAt := next.earliestAttemptAt)
       case CountFailure(uri, next) =>
         && uri == s.orderURI
         && uri in w.orders && w.orders[uri].Live? && Terminal(w.orders[uri].status)
         && (if w.orders[uri].status.Valid? then next.orderURI == "" && next.orderStatus == Unset
             else next.orderURI == uri && next.orderStatus == w.orders[uri].status)
         && next.failures == s.failures + 1 && next.startedAt == s.startedAt
       case _ => true
  }

  lemma ProvisionIsChosen(w: World, earliest: int, a: Answers)
    requires Inv(w) && LegalAnswers(w, a) && earliest <= a.delayCheckedAt
    ensures Chosen(w, Provision(w.orders, Decode(w.route.status).value.(earliestAttemptAt := earliest), a), a)
  {
  }

  lemma IdleIsChosen(w: World, act: Action, a: Answers)
    requires Decode(w.route.status).Some?
    requires act.Skip? || act == Abort(NoContact) || act.Rest?
    ensures Chosen(w, act, a)
  {
  }

  lemma JudgementIsChosen(w: World, s: Status, a: Answers)
    requires Inv(w) && LegalAnswers(w, a)
    requires s == Decode(w.route.status).value.(earliestAttemptAt := s.earliestAttemptAt)
    requires s.earliestAttemptAt <= a.delayCheckedAt
    ensures Chosen(w, Judge(w.route, w.orders, s, a), a)
  {
    var act := Judge(w.route, w.orders, s, a);
    if act == Provision(w.orders, s, a) {
      ProvisionIsChosen(w, s.earliestAttemptAt, a);
    } else if !act.Settle? {
      IdleIsChosen(w, act, a);
    }
  }

  lemma DecisionShape(cfg: Config, w: World, a: Answers)
    requires Decode(w.route.status).Some?
    ensures var act := Decide(cfg, w, a);
            act == Judge(w.route, w.orders, Refreshed(cfg, Decode(w.route.status).value), a)
            || act == Skip || act == Abort(NoContact)
  {
  }

  lemma DecisionIsChosen(cfg: Config, w: World, a: Answers)
    requires Inv(w) && LegalAnswers(w, a)
    ensures Chosen(w, Decide(cfg, w, a), a)
  {
    DecisionShape(cfg, w, a);
    var s := Refreshed(cfg, Decode(w.route.status).value);
    assert s.earliestAttemptAt <= a.delayCheckedAt;
    JudgementIsChosen(w, s, a);
    EitherIsChosen(w, Decide(cfg, w, a), Judge(w.route, w.orders, s, a), a);
  }

  lemma EitherIsChosen(w: World, act: Action, judged: Action, a: Answers)
    requires Decode(w.route.status).Some? && Chosen(w, judged, a)
    requires act == judged || act.Skip? || act == Abort(NoContact)
    ensures Chosen(w, act, a)
  {
  }

  lemma CreationKeepsInv(w: World, act: Action, a: Answers)
    requires Inv(w) && LegalAnswers(w, a) && Chosen(w, act, a) && (act.Open? || act.Lose?)
    ensures Inv(After(w, act, a))
  {
  }

  /** However others write in between, the loop leaves either the new status or the old one. */
  lemma StatusAfterLoop(r: Route, act: Action, a: Answers)
    requires Issuance.StatusKept(a.attempts, r.status) && act.Issue?
    ensures var r' := Certified(r, a.attempts, act.key, act.certificate, act.next);
            r'.status == if Issuance.Stores(a.attempts) then Yaml(act.next.(observedGeneration := r'.generation))
                         else r.status
    ensures Issuance.Succeeds(a.attempts) ==> Issuance.Stores(a.attempts)
  {
    Issuance.ObservedStatus(a.attempts, r.status);
    var k := Issuance.SomeAttemptIsTheLast(a.attempts);
    Issuance.LastAttemptDecides(a.attempts, k);
  }

  lemma FinalizationKeepsInv(w: World, act: Action, a: Answers)
    requires Inv(w) && LegalAnswers(w, a) && Chosen(w, act, a) && (act.Burn? || act.Issue?)
    ensures Inv(After(w, act, a))
  {
    if act.Issue? {
      StatusAfterLoop(w.route, act, a);
    }
  }

  lemma FailureKeepsInv(w: World, act: Action, a: Answers)
    requires Inv(w) && LegalAnswers(w, a) && Chosen(w, act, a) && act.CountFailure?
    ensures Inv(After(w, act, a))
  {
    if !a.write.Dropped? {
      ReportKeepsInv(w, act, a);
    }
  }

  lemma ReportKeepsInv(w: World, act: Action, a: Answers)
    requires Inv(w) && LegalAnswers(w, a) && Chosen(w, act, a) && act.CountFailure? && !a.write.Dropped?
    ensures Inv(After(w, act, a))
  {
  }

  lemma QuietActionKeepsInv(w: World, act: Action, a: Answers)
    requires Inv(w) && LegalAnswers(w, a) && Chosen(w, act, a)
    requires !act.Open? && !act.Lose? && !act.Burn? && !act.Issue? && !act.CountFailure?
    ensures Inv(After(w, act, a))
  {
  }

  lemma SyncKeepsInv(cfg: Config, w: World, a: Answers)
    requires Inv(w) && LegalAnswers(w, a)
    ensures Inv(After(w, Decide(cfg, w, a), a))
  {
    DecisionIsChosen(cfg, w, a);
    var act := Decide(cfg, w, a);
    if act.Open? || act.Lose? {
      CreationKeepsInv(w, act, a);
    } else if act.Burn? || act.Issue? {
      FinalizationKeepsInv(w, act, a);
    } else if act.CountFailure? {
      FailureKeepsInv(w, act, a);
    } else {
      QuietActionKeepsInv(w, act, a);
    }
  }

  lemma StepKeepsInv(cfg: Config, w: World, e: Event)
    requires Inv(w) && Legal(w, e)
    ensures Inv(Step(cfg, w, e))
  {
    if e.Sync? {
      SyncKeepsInv(cfg, w, e.answers);
    } else {
      EnvironmentKeepsInv(cfg, w, e);
    }
  }

  lemma {:induction false} RunKeepsInv(cfg: Config, w: World, es: seq<Event>)
    requires Inv(w) && LegalRun(cfg, w, es)
    ensures Inv(Exec(cfg, w, es))
    decreases es
  {
    if es != [] {
      StepKeepsInv(cfg, w, es[0]);
      RunKeepsInv(cfg, Step(cfg, w, es[0]), es[1..]);
    }
  }

  // ---------------------------------------------------------------- what every run keeps

  function OpenOrders(w: World): (us: set<string>)
  {
    set u | u in w.history.created && u in w.orders && !Dead(w.orders[u])
  }

  /** Order conservation: the orders left open never exceed one plus those whose URI was lost. */
  lemma OrderConservation(cfg: Config, w: World, es: seq<Event>)
    requires Initial(w) && LegalRun(cfg, w, es)
    ensures Decode(Exec(cfg, w, es).route.status).Some?
    ensures var w' := Exec(cfg, w, es);
            && |OpenOrders(w')| <= 1 + |w'.history.lost|
            && OpenOrders(w') <= w'.history.lost + {Decode(w'.route.status).value.orderURI}
  {
    InitialInv(w);
    RunKeepsInv(cfg, w, es);
    var w' := Exec(cfg, w, es);
    var bound := w'.history.lost + {Decode(w'.route.status).value.orderURI};
    SubsetSize(OpenOrders(w'), bound);
  }

  lemma SubsetSize<T>(s: set<T>, t: set<T>)
    requires s <= t
    ensures |s| <= |t|
  {
    assert t == s + (t - s);
  }

  /** A status that has a state but no URI. */
  predicate Orphaned(w: World)
  {
    && Decode(w.route.status).Some?
    && Decode(w.route.status).value.orderURI == ""
    && !Decode(w.route.status).value.orderStatus.Unset?
  }

  /** A healthy certificate is ordered anew exactly when a 404 has left a state without its URI. */
  lemma HealthyOrderIffOrphaned(cfg: Config, w: World, a: Answers)
    requires Inv(w) && LegalAnswers(w, a) && Serving(cfg, w.route, a.evaluatedAt)
    ensures ContactOf(Decide(cfg, w, a)) == Ordering <==> Orphaned(w) && a.accountUsable
  {
    HealthyIffBeforeInstant(w.route.tls.value.certificate.leaf, a.evaluatedAt);
    DecisionIsChosen(cfg, w, a);
  }

  /** Reachable statuses, and what they mean for the next sync whatever it is answered. */
  lemma ReachableStatus(cfg: Config, w: World, es: seq<Event>, a: Answers)
    requires Initial(w) && LegalRun(cfg, w, es) && LegalAnswers(Exec(cfg, w, es), a)
    ensures Decode(Exec(cfg, w, es).route.status).Some?
    ensures var w' := Exec(cfg, w, es); var s := Decode(w'.route.status).value; var act := Decide(cfg, w', a);
            && StatusOk(s)
            && (ContactOf(act) == Polling ==> InFlight(s.orderStatus) && s.orderURI != "")
            && (ContactOf(act) == Ordering && NeedsCertKey(a.evaluatedAt, w'.route.tls, w'.route.host).Healthy?
                ==> InFlight(s.orderStatus) && s.orderURI == "")
            && (Serving(cfg, w'.route, a.evaluatedAt) ==>
                  (ContactOf(act) == Ordering <==> Orphaned(w') && a.accountUsable))
            && !act.Throttle?
  {
    InitialInv(w);
    RunKeepsInv(cfg, w, es);
    var w' := Exec(cfg, w, es);
    DecisionIsChosen(cfg, w', a);
    if Serving(cfg, w'.route, a.evaluatedAt) {
      HealthyOrderIffOrphaned(cfg, w', a);
    }
  }

  /** A sync that finds its order gone and drops the URI. */
  ghost predicate DropsOnNotFound(cfg: Config, w: World, e: Event)
  {
    && e.Sync? && Decide(cfg, w, e.answers).Forget?
    && Decode(w.route.status).Some?
    && var u := Decode(w.route.status).value.orderURI;
       u != "" && u in w.orders && w.orders[u].Gone?
  }

  /** The only step into an orphaned status is a poll answered 404. */
  lemma OrphanedOnlyByNotFound(cfg: Config, w: World, e: Event)
    requires Inv(w) && Legal(w, e) && !Orphaned(w) && Orphaned(Step(cfg, w, e))
    ensures DropsOnNotFound(cfg, w, e)
  {
    if e.Sync? {
      var act := Decide(cfg, w, e.answers);
      DecisionIsChosen(cfg, w, e.answers);
      if act.Issue? {
        StatusAfterLoop(w.route, act, e.answers);
      }
    }
  }

  /** Every event of a run takes one reachable world to the next. */
  lemma {:induction false} PrefixStep(cfg: Config, w: World, es: seq<Event>, n: nat)
    requires Inv(w) && LegalRun(cfg, w, es) && n < |es|
    ensures Inv(Exec(cfg, w, es[..n])) && Legal(Exec(cfg, w, es[..n]), es[n])
    ensures Exec(cfg, w, es[..n + 1]) == Step(cfg, Exec(cfg, w, es[..n]), es[n])
    decreases n
  {
    if n > 0 {
      var rest := es[1..];
      StepKeepsInv(cfg, w, es[0]);
      PrefixStep(cfg, Step(cfg, w, es[0]), rest, n - 1);
      assert es[..n][1..] == rest[..n - 1];
      assert es[..n + 1][1..] == rest[..n];
    } else {
      assert es[..1][1..] == [];
    }
  }

  lemma {:induction false} OrphanedSince(cfg: Config, w: World, es: seq<Event>, n: nat) returns (k: nat)
    requires Initial(w) && LegalRun(cfg, w, es) && n <= |es| && Orphaned(Exec(cfg, w, es[..n]))
    ensures k < n && DropsOnNotFound(cfg, Exec(cfg, w, es[..k]), es[k])
    ensures forall j :: k < j <= n ==> Orphaned(Exec(cfg, w, es[..j]))
    decreases n
  {
    InitialInv(w);
    PrefixStep(cfg, w, es, n - 1);
    if Orphaned(Exec(cfg, w, es[..n - 1])) {
      k := OrphanedSince(cfg, w, es, n - 1);
    } else {
      k := n - 1;
      OrphanedOnlyByNotFound(cfg, Exec(cfg, w, es[..n - 1]), es[n - 1]);
    }
  }

  /** In every run an orphaned status goes back to one sync that was answered 404, and has been
      orphaned ever since. */
  lemma OrphanedOnlyAfterNotFound(cfg: Config, w: World, es: seq<Event>) returns (k: nat)
    requires Initial(w) && LegalRun(cfg, w, es) && Orphaned(Exec(cfg, w, es))
    ensures k < |es| && DropsOnNotFound(cfg, Exec(cfg, w, es[..k]), es[k])
    ensures forall j :: k < j <= |es| ==> Orphaned(Exec(cfg, w, es[..j]))
  {
    assert es[..|es|] == es;
    k := OrphanedSince(cfg, w, es, |es|);
  }

  /** Failure accounting: since the last stored certificate, the failed orders that have been polled are
      the counted ones, those dropped on a 404 before their report was stored, and possibly the one on
      record, whose report is still to come. So the counter falls short of the failed orders by exactly
      the other two kinds, and is right exactly when there are none of them. */
  lemma FailureAccounting(cfg: Config, w: World, es: seq<Event>)
    requires Initial(w) && LegalRun(cfg, w, es)
    ensures Decode(Exec(cfg, w, es).route.status).Some?
    ensures var w' := Exec(cfg, w, es); var s := Decode(w'.route.status).value; var h := w'.history;
            var pending := s.orderURI in h.polled && InFlight(s.orderStatus);
            && s.failures == |h.counted|
            && h.polled == h.counted + h.forgotten + (if pending then {s.orderURI} else {})
            && (forall u :: u in h.polled ==> u in w'.orders && Dead(w'.orders[u]))
            && (forall u :: u in h.forgotten ==> w'.orders[u].Gone?)
            && s.failures == |h.polled| - |h.forgotten| - (if pending then 1 else 0)
            && (s.failures == |h.polled| <==> h.forgotten == {} && !pending)
  {
    InitialInv(w);
    RunKeepsInv(cfg, w, es);
    var w' := Exec(cfg, w, es);
    var s, h := Decode(w'.route.status).value, w'.history;
    var current := if s.orderURI in h.polled && InFlight(s.orderStatus) then {s.orderURI} else {};
    assert h.polled == h.counted + h.forgotten + current;
    assert h.counted !! h.forgotten && (h.counted + h.forgotten) !! current;
  }

  /** An order that is gone without having been counted is never counted. */
  lemma GoneStaysUncounted(cfg: Config, w: World, e: Event, u: string)
    requires Inv(w) && Legal(w, e)
    requires u in w.history.created && w.orders[u].Gone? && u !in w.history.counted
    ensures var w' := Step(cfg, w, e);
            u in w'.history.created && u in w'.orders && w'.orders[u].Gone? && u !in w'.history.counted
  {
    if e.Sync? {
      DecisionIsChosen(cfg, w, e.answers);
    }
  }

  lemma {:induction false} GoneIsNeverCounted(cfg: Config, w: World, es: seq<Event>, u: string)
    requires Inv(w) && LegalRun(cfg, w, es)
    requires u in w.history.created && w.orders[u].Gone? && u !in w.history.counted
    ensures u !in Exec(cfg, w, es).history.counted
    decreases es
  {
    if es != [] {
      GoneStaysUncounted(cfg, w, es[0], u);
      StepKeepsInv(cfg, w, es[0]);
      GoneIsNeverCounted(cfg, Step(cfg, w, es[0]), es[1..], u);
    }
  }

  // ---------------------------------------------------------------- no lost wakeup

  /** Neither an error, nor a requeue, nor a change that the watch would report. */
  ghost predicate Silent(cfg: Config, w: World, a: Answers)
  {
    var act := Decide(cfg, w, a);
    !Fails(w, act, a) && Delays(act) == [] && After(w, act, a).route == w.route
  }

  /** The pending order whose authorizations leave the controller nothing to wait for. */
  predicate NothingToWaitFor(cfg: Config, w: World, a: Answers)
    requires Decode(w.route.status).Some?
  {
    var s := Decode(w.route.status).value;
    && InFlight(s.orderStatus) && s.orderURI != ""
    && !NeedsCertKey(a.evaluatedAt, w.route.tls, w.route.host).BadCertificate?
    && a.accountUsable && a.orderFetched
    && s.orderURI in w.orders && w.orders[s.orderURI] == Live(Pending)
    && (|| UnfitFirst(a.authorizations)
        || (&& AllConcluded(a.authorizations)
            && s.orderStatus.Pending?
            && s.observedGeneration == w.route.generation
            && s.earliestAttemptAt ==
               s.startedAt + Backoff.Written(s.failures, cfg.backoffInitial, cfg.backoffMax)
            && (w.route.status.Yaml? || a.write.Acknowledged?)))
  }

  /** Apart from waiting on authorizations, every action wakes the Route again. */
  lemma OtherActionsWake(w: World, act: Action, a: Answers)
    requires Inv(w) && LegalAnswers(w, a) && Chosen(w, act, a)
    requires !act.Skip? && !act.Await? && !act.Blocked?
    ensures Fails(w, act, a) || Delays(act) != [] || After(w, act, a).route != w.route
  {
    if act.Issue? {
      StatusAfterLoop(w.route, act, a);
    }
  }

  lemma SilentIffNothingToWaitFor(cfg: Config, w: World, a: Answers)
    requires Inv(w) && LegalAnswers(w, a)
    requires Entitled(cfg, w.route)
    ensures Silent(cfg, w, a) <==> NothingToWaitFor(cfg, w, a)
  {
    SkipIff(cfg, w, a);
    DecisionIsChosen(cfg, w, a);
    WalkOutcome(a.authorizations);
    var act := Decide(cfg, w, a);
    if !act.Await? && !act.Blocked? {
      OtherActionsWake(w, act, a);
    }
  }

  /** No lost wakeup: after any run, every sync of an admitted, managed Route arranges to be run again,
      except in exactly two cases, both on a pending order: the exposer's resources are refused before
      any requeue was asked for, or no authorization is pending and the stored status is already right. */
  lemma NoLostWakeup(cfg: Config, w: World, es: seq<Event>, a: Answers)
    requires Initial(w) && LegalRun(cfg, w, es) && LegalAnswers(Exec(cfg, w, es), a)
    requires Entitled(cfg, Exec(cfg, w, es).route)
    ensures Decode(Exec(cfg, w, es).route.status).Some?
    ensures Silent(cfg, Exec(cfg, w, es), a) <==> NothingToWaitFor(cfg, Exec(cfg, w, es), a)
  {
    InitialInv(w);
    RunKeepsInv(cfg, w, es);
    SilentIffNothingToWaitFor(cfg, Exec(cfg, w, es), a);
  }

  // ---------------------------------------------------------------- quiescence

  /** A managed, admitted Route whose certificate is healthy at time t. */
  ghost predicate Serving(cfg: Config, r: Route, t: int)
  {
    && Entitled(cfg, r)
    && r.tls.Some? && r.tls.value.key != "" && r.tls.value.certificate.Encoded?
    && r.host in r.tls.value.certificate.leaf.hosts
    && r.tls.value.certificate.leaf.notBefore <= t < RenewalInstant(r.tls.value.certificate.leaf)
  }

  predicate Settled(w: World)
  {
    Decode(w.route.status).Some? && Clear(Decode(w.route.status).value) == Decode(w.route.status).value
  }

  /** One sync of a healthy Route with no order in flight clears the order fields and talks to nobody. */
  lemma HealthySyncSettles(cfg: Config, w: World, a: Answers)
    requires Inv(w) && LegalAnswers(w, a) && Serving(cfg, w.route, a.evaluatedAt)
    requires !InFlight(Decode(w.route.status).value.orderStatus)
    ensures var act := Decide(cfg, w, a);
            && ContactOf(act) == NoContact
            && Delays(act) == [Evaluate(a.evaluatedAt, w.route.tls.value.certificate.leaf).requeueAfter]
            && (a.write.Acknowledged? ==> !Fails(w, act, a) && Settled(After(w, act, a)))
            && After(w, act, a).route.tls == w.route.tls
            && After(w, act, a).orders == w.orders
  {
  }

  ghost predicate QuietSyncs(cfg: Config, r: Route, es: seq<Event>)
  {
    forall i :: 0 <= i < |es| ==> es[i].Sync? && Serving(cfg, r, es[i].answers.evaluatedAt)
  }

  /** From a settled status no number of syncs before the renewal instant changes anything but the
      clock, and the next one only re-schedules the same instant. */
  lemma {:induction false} Quiescence(cfg: Config, w: World, es: seq<Event>, a: Answers)
    requires Settled(w) && QuietSyncs(cfg, w.route, es) && LegalRun(cfg, w, es)
    requires Serving(cfg, w.route, a.evaluatedAt)
    ensures var w' := Exec(cfg, w, es); var c := w.route.tls.value.certificate.leaf;
            && w' == w.(clock := w'.clock)
            && Decide(cfg, w', a) == Rest(Evaluate(a.evaluatedAt, c).requeueAfter)
            && (c.notAfter - a.evaluatedAt <= MAX_INT64
                ==> Decide(cfg, w', a) == Rest(RenewalInstant(c) - a.evaluatedAt))
    decreases es
  {
    var c := w.route.tls.value.certificate.leaf;
    HealthyIffBeforeInstant(c, a.evaluatedAt);
    NeverLate(c, a.evaluatedAt);
    if es != [] {
      HealthyIffBeforeInstant(c, es[0].answers.evaluatedAt);
      var w1 := Step(cfg, w, es[0]);
      assert w1 == w.(clock := w1.clock);
      Quiescence(cfg, w1, es[1..], a);
    }
  }
}
