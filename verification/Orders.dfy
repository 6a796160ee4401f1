/**
 One provisioning step of a Route: what the route controller decides from the persisted status,
 the certificate and the answers of the outside world, and what the decision leaves behind.
 The step is stated here as a decision table; RouteSync holds the imperative form that refines it.
 */
module Orders {
  import opened Api
  import opened Renewal
  import Issuance
  import ResourceFitting
  import LimitRanges
  import Backoff

  const RECHECK := 15_000_000_000  // 15 seconds

  datatype Config = Config(annotation: string, backoffInitial: int, backoffMax: int)

  // ---------------------------------------------------------------- the outside world's answers

  /** AuthorizeOrder: refused outright, answered, or executed by the server but reported as an error. */
  datatype NewOrderReply =
    | NotOrdered
    | Ordered(uri: string, status: OrderStatus)
    | OrderedUnseen(uri: string, status: OrderStatus)

  /** CreateOrderCert and the PEM conversion that follows it. */
  datatype FinalizeReply = NotFinalized | Unconvertible | Issued(key: string, certificate: Pem)

  /** An exposer object: looked up in the cache, created if missing, then checked for owner and id. */
  datatype ObjectReply = LookupFailed | Missing(created: bool) | Found(controlled: bool, idMatches: bool)

  datatype Exposure = Exposure(
    keyAuthorization: bool,
    route: ObjectReply,
    secret: ObjectReply,
    limitRangesListed: bool,
    limitRanges: seq<seq<LimitRanges.Item>>,
    replicaSet: ObjectReply,
    service: ObjectReply,
    admitted: bool,
    available: bool,
    selfValidated: bool,
    accepted: bool)

  datatype Challenge = Challenge(kind: string, status: OrderStatus)

  datatype Authorization =
    | Unreachable
    | Authorization(status: OrderStatus, challenges: seq<Challenge>, exposure: Exposure)

  /** Everything one sync learns from outside, including three readings of the clock. `write` is what
      becomes of a status patch, `attempts` what the loop storing a certificate meets. */
  datatype Answers = Answers(
    evaluatedAt: int,
    delayCheckedAt: int,
    orderedAt: int,
    accountUsable: bool,
    newOrder: NewOrderReply,
    orderFetched: bool,
    authorizations: seq<Authorization>,
    finalize: FinalizeReply,
    attempts: Issuance.Attempts,
    write: WriteOutcome)

  // ---------------------------------------------------------------- the world of one Route

  /** An order at the ACME server; `Gone` answers 404 for good. */
  datatype Entry = Live(status: OrderStatus) | Gone

  /** What has happened so far: the orders created for the Route, those whose URI never reached the
      annotation, and since the last stored certificate the orders seen to have failed, those of them
      that were counted, and those that were dropped on a 404 without having been counted. */
  datatype History = History(
    created: set<string>,
    lost: set<string>,
    polled: set<string>,
    counted: set<string>,
    forgotten: set<string>)

  const NO_HISTORY := History({}, {}, {}, {}, {})

  datatype World = World(route: Route, orders: map<string, Entry>, clock: int, history: History)

  // ---------------------------------------------------------------- the decision

  /** How far a sync got with the ACME server. */
  datatype Contact = NoContact | Ordering | Polling

  datatype Action =
    | Skip
    | Abort(contact: Contact)
    | Lose(uri: string, status: OrderStatus)
    | Rest(delay: int)
    | Settle(delay: int, next: Status)
    | Throttle(delay: int, next: Status)
    | Open(uri: string, status: OrderStatus, next: Status)
    | Forget(uri: string, next: Status)
    | Await(delays: seq<int>, next: Status)
    | Blocked(delays: seq<int>)
    | Interrupted(delays: seq<int>)
    | Burn(uri: string)
    | Issue(uri: string, key: string, certificate: Pem, next: Status)
    | CountFailure(uri: string, next: Status)

  function Clear(s: Status): (r: Status)
  {
    s.(orderURI := "", orderStatus := Unset)
  }

  ghost function Decide(cfg: Config, w: World, a: Answers): (act: Action)
  {
    var r := w.route;
    if r.deleting || !IsManaged(r.annotations, r.labels, cfg.annotation) || !Admitted(r.ingress) then Skip
    else if Decode(r.status).None? then Abort(NoContact)
    else
      var stored := Decode(r.status).value;
      Judge(r, w.orders, Refreshed(cfg, stored), a)
  }

  /** The stored status as a sync starts from it. */
  function Refreshed(cfg: Config, s: Status): (s': Status)
  {
    s.(earliestAttemptAt := s.startedAt + Backoff.Written(s.failures, cfg.backoffInitial, cfg.backoffMax))
  }

  /** Is a certificate wanted? A healthy one still lets an order in flight run to its end. */
  function Judge(r: Route, orders: map<string, Entry>, s: Status, a: Answers): (act: Action)
  {
    match NeedsCertKey(a.evaluatedAt, r.tls, r.host)
    case BadCertificate => Abort(NoContact)
    case Renew(_) => Provision(orders, s, a)
    case Healthy(delay) =>
      if InFlight(s.orderStatus) then Provision(orders, s, a)
      else if s.orderURI == "" && s.orderStatus == Unset then Rest(delay)
      else Settle(delay, Clear(s))
  }

  function Provision(orders: map<string, Entry>, s: Status, a: Answers): (act: Action)
  {
    if Failed(s.orderStatus) && Sub(s.earliestAttemptAt, a.delayCheckedAt) > 0
    then Throttle(Sub(s.earliestAttemptAt, a.delayCheckedAt), s)
    else
      var s' := if s.orderStatus.Unset? || Terminal(s.orderStatus) then Clear(s) else s;
      if !a.accountUsable then Abort(NoContact)
      else if s'.orderURI == "" then
        match a.newOrder
        case NotOrdered => Abort(Ordering)
        case OrderedUnseen(uri, status) => Lose(uri, status)
        case Ordered(uri, status) =>
          Open(uri, status, s'.(startedAt := a.orderedAt, orderURI := uri, orderStatus := status))
      else if !a.orderFetched then Abort(Polling)
      else if s'.orderURI !in orders || orders[s'.orderURI].Gone? then Forget(s'.orderURI, s'.(orderURI := ""))
      else Progress(s', orders[s'.orderURI].status, a)
  }

  /** The order was fetched and is in state `polled`. */
  function Progress(s: Status, polled: OrderStatus, a: Answers): (act: Action)
  {
    var failures := if polled != s.orderStatus then s.failures + 1 else s.failures;
    var s' := s.(orderStatus := polled);
    match polled
    case Pending =>
      (match Walk(a.authorizations, [])
       case Completed(delays) => Await(delays, s')
       case Refused(delays) => Blocked(delays)
       case Broken(delays) => Interrupted(delays))
    case Processing => Await([RECHECK], s')
    case Ready =>
      (match a.finalize
       case NotFinalized => Abort(Polling)
       case Unconvertible => Burn(s.orderURI)
       case Issued(key, certificate) =>
         Issue(s.orderURI, key, certificate, s'.(orderStatus := Valid, failures := 0)))
    case Valid => CountFailure(s.orderURI, Clear(s').(failures := failures))
    case Invalid => CountFailure(s.orderURI, s'.(failures := failures))
    case Expired => CountFailure(s.orderURI, s'.(failures := failures))
    case Revoked => CountFailure(s.orderURI, s'.(failures := failures))
    case Deactivated => CountFailure(s.orderURI, s'.(failures := failures))
    case Unset => Abort(Polling)
    case Other(_) => Abort(Polling)
  }

  // ---------------------------------------------------------------- the authorization loop

  /** How the loop over an order's authorizations ended, with the requeues it asked for. */
  datatype LoopEnd = Completed(delays: seq<int>) | Refused(delays: seq<int>) | Broken(delays: seq<int>)

  datatype TurnEnd = Passed | Requeued | Declined | Errored

  function Walk(authorizations: seq<Authorization>, delays: seq<int>): (e: LoopEnd)
  {
    if authorizations == [] then Completed(delays)
    else
      match Turn(authorizations[0])
      case Passed => Walk(authorizations[1..], delays)
      case Requeued => Walk(authorizations[1..], delays + [RECHECK])
      case Declined => Refused(delays)
      case Errored => Broken(delays)
  }

  function Turn(z: Authorization): (t: TurnEnd)
  {
    if z.Unreachable? then Errored
    else if Terminal(z.status) then Passed
    else if !z.status.Pending? then Errored
    else
      match HttpChallenge(z.challenges)
      case None => Errored
      case Some(c) =>
        if c.status.Pending? then Expose(z.exposure)
        else if c.status.Processing? || c.status.Valid? || c.status.Invalid? then Requeued
        else Errored
  }

  /** The last http-01 challenge offered. */
  function HttpChallenge(challenges: seq<Challenge>): (c: Option<Challenge>)
    ensures c.None? <==> forall i :: 0 <= i < |challenges| ==> challenges[i].kind != "http-01"
    ensures c.Some? ==> exists i :: && 0 <= i < |challenges| && challenges[i] == c.value && c.value.kind == "http-01"
                                    && forall j :: i < j < |challenges| ==> challenges[j].kind != "http-01"
  {
    if challenges == [] then None
    else if challenges[|challenges| - 1].kind == "http-01" then Some(challenges[|challenges| - 1])
    else HttpChallenge(challenges[..|challenges| - 1])
  }

  predicate Ensured(o: ObjectReply)
  {
    match o
    case LookupFailed => false
    case Missing(created) => created
    case Found(controlled, idMatches) => controlled && idMatches
  }

  function Expose(x: Exposure): (t: TurnEnd)
  {
    if !x.keyAuthorization || !Ensured(x.route) || !Ensured(x.secret) || !x.limitRangesListed then Errored
    else if ResourceFitting.Refusals(x.limitRanges) != 0 then Declined
    else if !Ensured(x.replicaSet) || !Ensured(x.service) then Errored
    else if x.admitted && x.available && x.selfValidated && !x.accepted then Errored
    else Requeued
  }

  // ---------------------------------------------------------------- the effect

  /** updateStatus: no call when the YAML text is already stored, otherwise a merge patch of JSON. */
  function Patched(r: Route, s: Status, o: WriteOutcome): (r': Route)
  {
    var s' := s.(observedGeneration := r.generation);
    if r.status == Yaml(s') || o.Dropped? then r else r.(status := Json(s'))
  }

  predicate PatchFails(r: Route, s: Status, o: WriteOutcome)
  {
    r.status != Yaml(s.(observedGeneration := r.generation)) && !o.Acknowledged?
  }

  /** After a patch the stored text is JSON, so the comparison with YAML never saves the next call: the
      same status is patched again although that changes nothing, and can fail again. */
  lemma PatchIsNeverSaved(r: Route, s: Status, o: WriteOutcome)
    requires !o.Dropped? && r.status != Yaml(s.(observedGeneration := r.generation))
    ensures var r' := Patched(r, s, o);
            PatchFails(r', s, Dropped) && Patched(r', s, Acknowledged) == r'
  {
  }

  /** The Route after the loop that stores a new certificate. */
  function Certified(r: Route, attempts: Issuance.Attempts, key: string, certificate: Pem, s: Status): (r': Route)
  {
    Issuance.Landed(Issuance.Versioned(0, r), attempts, Issuance.NewCertificate(key, certificate, s)).route
  }

  /** The world after a sync, which has also taken its time. */
  function After(w: World, act: Action, a: Answers): (w': World)
  {
    Effect(w, act, a).(clock := a.orderedAt)
  }

  function Effect(w: World, act: Action, a: Answers): (w': World)
  {
    var h := w.history;
    match act
    case Skip => w
    case Abort(_) => w
    case Rest(_) => w
    case Blocked(_) => w
    case Interrupted(_) => w
    case Lose(uri, status) =>
      w.(orders := w.orders[uri := Live(status)],
         history := h.(created := h.created + {uri}, lost := h.lost + {uri}))
    case Settle(_, next) => w.(route := Patched(w.route, next, a.write))
    case Throttle(_, next) => w.(route := Patched(w.route, next, a.write))
    case Forget(uri, next) =>
      var dropped := !a.write.Dropped? && uri in h.polled - h.counted;
      w.(route := Patched(w.route, next, a.write),
         history := if dropped then h.(forgotten := h.forgotten + {uri}) else h)
    case Await(_, next) => w.(route := Patched(w.route, next, a.write))
    case Open(uri, status, next) =>
      w.(route := Patched(w.route, next, a.write),
         orders := w.orders[uri := Live(status)],
         history := h.(created := h.created + {uri}, lost := if a.write.Dropped? then h.lost + {uri} else h.lost))
    case Burn(uri) => w.(orders := w.orders[uri := Live(Valid)])
    case Issue(uri, key, certificate, next) =>
      var stores := Issuance.Stores(a.attempts);
      w.(route := Certified(w.route, a.attempts, key, certificate, next),
         orders := w.orders[uri := Live(Valid)],
         history := if stores then h.(polled := {}, counted := {}, forgotten := {}) else h)
    case CountFailure(uri, next) =>
      w.(route := Patched(w.route, next, a.write),
         history := h.(polled := h.polled + {uri},
                       counted := if a.write.Dropped? then h.counted else h.counted + {uri}))
  }

  /** Whether sync returns an error, which puts the key back with a rate limit. */
  predicate Fails(w: World, act: Action, a: Answers)
  {
    match act
    case Skip => false
    case Abort(_) => true
    case Rest(_) => false
    case Blocked(_) => false
    case Interrupted(_) => true
    case Lose(_, _) => true
    case Settle(_, next) => PatchFails(w.route, next, a.write)
    case Throttle(_, next) => PatchFails(w.route, next, a.write)
    case Forget(_, next) => PatchFails(w.route, next, a.write)
    case Await(_, next) => PatchFails(w.route, next, a.write)
    case Open(_, _, next) => PatchFails(w.route, next, a.write)
    case Burn(_) => true
    case Issue(_, _, _, _) => !Issuance.Succeeds(a.attempts)
    case CountFailure(_, next) => PatchFails(w.route, next, a.write)
  }

  /** The delayed requeues sync asks for. */
  function Delays(act: Action): (ds: seq<int>)
  {
    match act
    case Rest(delay) => [delay]
    case Settle(delay, _) => [delay]
    case Throttle(delay, _) => [delay]
    case Await(delays, _) => delays
    case Blocked(delays) => delays
    case Interrupted(delays) => delays
    case _ => []
  }

  function ContactOf(act: Action): (c: Contact)
  {
    match act
    case Abort(contact) => contact
    case Lose(_, _) => Ordering
    case Open(_, _, _) => Ordering
    case Forget(_, _) => Polling
    case Await(_, _) => Polling
    case Blocked(_) => Polling
    case Interrupted(_) => Polling
    case Burn(_) => Polling
    case Issue(_, _, _, _) => Polling
    case CountFailure(_, _) => Polling
    case _ => NoContact
  }
}
