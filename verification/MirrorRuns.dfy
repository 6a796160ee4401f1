/**
 The mirror under every interleaving: a work queue that keeps one copy of a key, informer caches that
 lag behind the API server, users who edit the Route and the Secret, failing writes and restarts.
 */
module MirrorRuns {
  import opened Api
  import opened Mirror

  /** How far the worker is with the key. */
  datatype Phase =
    | Idle
    | Picked
    | Loaded(route: Route)
    | Looked(route: Route, secret: Option<Secret>)
    | Finished(err: bool)

  /** The logs hold the watch events not delivered yet; a Secret event of None is a deletion.
      `otherRoutes` are the UIDs of the other cached Routes; `dirty` means queued, `delayed` waiting for
      its rate limit. */
  datatype World = World(
    key: string,
    otherRoutes: set<string>,
    route: Route,
    routeLog: seq<Route>,
    routeCache: Route,
    store: Store,
    secretLog: seq<Option<Secret>>,
    secretCache: Option<Secret>,
    dirty: bool,
    delayed: bool,
    phase: Phase)

  datatype Event =
    | EditRoute(route: Route)
    | EditSecret(secret: Secret)
    | DeleteSecret
    | CreateSecret(secret: Secret)
    | DeliverRoute
    | DeliverSecret
    | RateLimitExpires
    | Pick
    | Load
    | Look
    | Write(outcome: WriteOutcome)
    | Finish
    | Restart

  function Known(w: World): (uids: set<string>)
  {
    w.otherRoutes + {w.routeCache.uid}
  }

  function Current(w: World): (s: Option<Secret>)
  {
    Find(w.store.secrets, w.key)
  }

  /** The Routes this theorem is about: managed, with TLS, mirrored under their own name. */
  predicate Subject(annotation: string, w: World, r: Route)
  {
    && r.name == w.key && r.uid == w.route.uid
    && !r.deleting && IsManaged(r.annotations, r.labels, annotation)
    && r.tls.Some? && SyncSecretName(r) == Some(r.name)
  }

  predicate Owned(w: World, s: Option<Secret>)
  {
    s.Some? ==> s.value.owner == Some(w.route.uid)
  }

  predicate Enabled(annotation: string, w: World, e: Event)
  {
    match e
    case EditRoute(r) => Subject(annotation, w, r)
    case EditSecret(s) => Current(w).Some? && Owned(w, Some(s))
    case DeleteSecret => Current(w).Some?
    case CreateSecret(s) => Current(w).None? && Owned(w, Some(s))
    case DeliverRoute => w.routeLog != []
    case DeliverSecret => w.secretLog != []
    case RateLimitExpires => w.delayed
    case Pick => w.dirty && w.phase.Idle?
    case Load => w.phase.Picked?
    case Look => w.phase.Loaded?
    case Write(_) => w.phase.Looked?
    case Finish => w.phase.Finished?
    case Restart => true
  }

  function PutSecret(w: World, s: Secret): (w': World)
  {
    var v := w.store.version + 1;
    var s' := s.(version := v);
    w.(store := Store(w.store.secrets[w.key := s'], v), secretLog := w.secretLog + [Some(s')])
  }

  /** The Secret handlers: updates and deletions of a Secret owned by the cached Route enqueue the
      key; there is no handler for additions. */
  predicate Enqueues(w: World, was: Option<Secret>, now: Option<Secret>)
  {
    && was.Some?
    && (if now.Some? then now.value.owner else was.value.owner) == Some(w.routeCache.uid)
    && SyncSecretName(w.routeCache).Some?
  }

  function Step(annotation: string, w: World, e: Event): (w': World)
    requires Enabled(annotation, w, e)
  {
    match e
    case EditRoute(r) => w.(route := r, routeLog := w.routeLog + [r])
    case EditSecret(s) => PutSecret(w, s)
    case CreateSecret(s) => PutSecret(w, s)
    case DeleteSecret =>
      w.(store := w.store.(secrets := w.store.secrets - {w.key}), secretLog := w.secretLog + [None])
    case DeliverRoute =>
      var r := w.routeLog[0];
      w.(routeCache := r, routeLog := w.routeLog[1..],
         dirty := w.dirty || (IsManaged(r.annotations, r.labels, annotation) && SyncSecretName(r).Some?))
    case DeliverSecret =>
      var s := w.secretLog[0];
      w.(secretCache := s, secretLog := w.secretLog[1..], dirty := w.dirty || Enqueues(w, w.secretCache, s))
    case RateLimitExpires => w.(delayed := false, dirty := true)
    case Pick => w.(dirty := false, phase := Picked)
    case Load => w.(phase := Loaded(w.routeCache))
    case Look => w.(phase := Looked(w.phase.route, w.secretCache))
    case Write(o) =>
      var res := SyncResult(w.phase.route, Known(w), w.phase.secret, w.store, o);
      w.(store := res.store, phase := Finished(res.err),
         secretLog := if res.store == w.store then w.secretLog
                      else w.secretLog + [Find(res.store.secrets, w.key)])
    case Finish => w.(phase := Idle, delayed := w.delayed || w.phase.err)
    case Restart =>
      var managed := IsManaged(w.route.annotations, w.route.labels, annotation) && SyncSecretName(w.route).Some?;
      w.(routeLog := [], routeCache := w.route, secretLog := [], secretCache := Current(w),
         dirty := managed, delayed := false, phase := Idle)
  }

  ghost predicate Run(annotation: string, w: World, es: seq<Event>, w': World)
    decreases es
  {
    if es == [] then w' == w
    else Enabled(annotation, w, es[0]) && Run(annotation, Step(annotation, w, es[0]), es[1..], w')
  }

  // ---------------------------------------------------------------- the invariant

  predicate Settled(w: World)
  {
    Current(w).Some? && Mirrors(Current(w).value, w.route)
  }

  /** Some undelivered Secret event will enqueue the key: it starts from an existing Secret. */
  predicate News(cache: Option<Secret>, log: seq<Option<Secret>>)
    decreases |log|
  {
    log != [] && (cache.Some? || News(log[0], log[1..]))
  }

  function Latest<T>(cache: T, log: seq<T>): (x: T)
  {
    if log == [] then cache else log[|log| - 1]
  }

  /** Something that will run the mirror again is outstanding. */
  predicate Covered(w: World)
  {
    w.dirty || w.delayed || w.routeLog != [] || News(w.secretCache, w.secretLog)
  }

  predicate PhaseOk(annotation: string, w: World)
  {
    match w.phase
    case Idle => Settled(w) || Covered(w)
    case Picked => true
    case Loaded(r) => Subject(annotation, w, r) && (r == w.route || Covered(w))
    case Looked(r, s) =>
      && Subject(annotation, w, r) && Owned(w, s)
      && (r == w.route || Covered(w))
      && (s == Current(w) || Covered(w) || (s.None? && Current(w).Some?))
    case Finished(err) => err || Settled(w) || Covered(w)
  }

  predicate Inv(annotation: string, w: World)
  {
    && Subject(annotation, w, w.route) && Subject(annotation, w, w.routeCache)
    && (forall i :: 0 <= i < |w.routeLog| ==> Subject(annotation, w, w.routeLog[i]))
    && Latest(w.routeCache, w.routeLog) == w.route
    && Owned(w, Current(w)) && Owned(w, w.secretCache)
    && (forall i :: 0 <= i < |w.secretLog| ==> Owned(w, w.secretLog[i]))
    && Latest(w.secretCache, w.secretLog) == Current(w)
    && PhaseOk(annotation, w)
  }

  lemma {:induction false} NewsAppend(cache: Option<Secret>, log: seq<Option<Secret>>, s: Option<Secret>)
    ensures News(cache, log + [s]) <==> News(cache, log) || Latest(cache, log).Some?
    decreases |log|
  {
    if log != [] {
      assert (log + [s])[1..] == log[1..] + [s];
      NewsAppend(log[0], log[1..], s);
    }
  }

  lemma UserKeepsInv(annotation: string, w: World, e: Event)
    requires Inv(annotation, w) && Enabled(annotation, w, e)
    requires e.EditRoute? || e.EditSecret? || e.CreateSecret? || e.DeleteSecret?
    ensures Inv(annotation, Step(annotation, w, e))
  {
    var w' := Step(annotation, w, e);
    if !e.EditRoute? {
      NewsAppend(w.secretCache, w.secretLog, Current(w'));
    }
  }

  lemma DeliveryKeepsInv(annotation: string, w: World, e: Event)
    requires Inv(annotation, w) && Enabled(annotation, w, e)
    requires e.DeliverRoute? || e.DeliverSecret? || e.RateLimitExpires? || e.Restart?
    ensures Inv(annotation, Step(annotation, w, e))
  {
  }

  lemma WorkerKeepsInv(annotation: string, w: World, e: Event)
    requires Inv(annotation, w) && Enabled(annotation, w, e)
    requires e.Pick? || e.Load? || e.Look? || e.Finish?
    ensures Inv(annotation, Step(annotation, w, e))
  {
  }

  /** All a write can do to the Secret, from what the worker had read. */
  predicate WriteEffect(key: string, r: Route, s: Option<Secret>, st: Store, res: Result)
  {
    var now := Find(res.store.secrets, key);
    && (res.store != st ==> now.Some? && Mirrors(now.value, r))
    && (res.store == st && !res.err ==> s.Some? && Mirrors(s.value, r))
    && (s.None? && key in st.secrets ==> res.err && res.store == st)
  }

  lemma SyncHasWriteEffect(annotation: string, w: World, r: Route, s: Option<Secret>, o: WriteOutcome)
    requires Subject(annotation, w, r) && Owned(w, s) && w.routeCache.uid == w.route.uid
    ensures WriteEffect(w.key, r, s, w.store, SyncResult(r, Known(w), s, w.store, o))
  {
  }

  lemma EffectKeepsInv(annotation: string, w: World, res: Result, w': World)
    requires Inv(annotation, w) && w.phase.Looked?
    requires WriteEffect(w.key, w.phase.route, w.phase.secret, w.store, res)
    requires w' == w.(store := res.store, phase := Finished(res.err),
                      secretLog := if res.store == w.store then w.secretLog
                                   else w.secretLog + [Find(res.store.secrets, w.key)])
    ensures Inv(annotation, w')
  {
    NewsAppend(w.secretCache, w.secretLog, Current(w'));
  }

  lemma WriteKeepsInv(annotation: string, w: World, e: Event)
    requires Inv(annotation, w) && Enabled(annotation, w, e) && e.Write?
    ensures Inv(annotation, Step(annotation, w, e))
  {
    SyncHasWriteEffect(annotation, w, w.phase.route, w.phase.secret, e.outcome);
    var res := SyncResult(w.phase.route, Known(w), w.phase.secret, w.store, e.outcome);
    EffectKeepsInv(annotation, w, res, Step(annotation, w, e));
  }

  lemma {:induction false} RunKeepsInv(annotation: string, w: World, es: seq<Event>, w': World)
    requires Inv(annotation, w) && Run(annotation, w, es, w')
    ensures Inv(annotation, w')
    decreases es
  {
    if es != [] {
      var e := es[0];
      if e.EditRoute? || e.EditSecret? || e.CreateSecret? || e.DeleteSecret? {
        UserKeepsInv(annotation, w, e);
      } else if e.Write? {
        WriteKeepsInv(annotation, w, e);
      } else if e.Pick? || e.Load? || e.Look? || e.Finish? {
        WorkerKeepsInv(annotation, w, e);
      } else {
        DeliveryKeepsInv(annotation, w, e);
      }
      RunKeepsInv(annotation, Step(annotation, w, e), es[1..], w');
    }
  }

  /** A controller that has just started on a Route, with whatever Secret it finds. */
  predicate Initial(annotation: string, w: World)
  {
    && Subject(annotation, w, w.route) && Owned(w, Current(w))
    && w == Step(annotation, w, Restart)
  }

  /** Level-triggered mirroring: in every run the Secret equals the Route's TLS, or the key is queued,
      waiting, being processed, or about to be enqueued by an event on its way. */
  lemma MirrorNeverForgets(annotation: string, w: World, es: seq<Event>, w': World)
    requires Initial(annotation, w) && Run(annotation, w, es, w')
    ensures Settled(w') || Covered(w') || !w'.phase.Idle?
    ensures w'.phase == Finished(false) ==> Settled(w') || Covered(w')
    ensures w'.phase.Idle? && !w'.dirty && !w'.delayed && w'.routeLog == [] && w'.secretLog == [] ==> Settled(w')
  {
    RunKeepsInv(annotation, w, es, w');
  }

  /** Which Route events queue the key: those of a managed Route that names a Secret. */
  lemma RouteEventQueuesIff(annotation: string, w: World)
    requires w.routeLog != [] && !w.dirty
    ensures var r := w.routeLog[0];
            Step(annotation, w, DeliverRoute).dirty <==>
            && annotation in r.annotations && r.annotations[annotation] == "true"
            && !(TEMPORARY_LABEL in r.labels && r.labels[TEMPORARY_LABEL] == "true")
            && SECRET_NAME_ANNOTATION in r.annotations
  {
  }

  /** Which Secret events queue the key: changes and deletions of a Secret that the cached Route owns after
      the change, or owned before the deletion, if that Route names a Secret. One that appears does not. */
  lemma SecretEventQueuesIff(annotation: string, w: World)
    requires w.secretLog != [] && !w.dirty
    ensures Step(annotation, w, DeliverSecret).dirty <==>
            && SECRET_NAME_ANNOTATION in w.routeCache.annotations
            && w.secretCache.Some?
            && (w.secretLog[0].Some? ==> w.secretLog[0].value.owner == Some(w.routeCache.uid))
            && (w.secretLog[0].None? ==> w.secretCache.value.owner == Some(w.routeCache.uid))
  {
  }

  /** Once the events are delivered, a single undisturbed sync settles the mirror. */
  lemma UndisturbedSyncSettles(annotation: string, w: World)
    requires Inv(annotation, w) && w.phase.Picked? && w.routeLog == [] && w.secretLog == []
    ensures var w1 := Step(annotation, w, Load); var w2 := Step(annotation, w1, Look);
            var w3 := Step(annotation, w2, Write(Acknowledged));
            w3.phase == Finished(false) && Settled(w3)
  {
  }

  /** The world after the worker has taken the key, synced it without trouble and put it back. */
  function Round(annotation: string, w: World): (w': World)
    requires w.dirty && w.phase.Idle?
  {
    var w1 := Step(annotation, w, Pick);
    var w2 := Step(annotation, w1, Load);
    var w3 := Step(annotation, w2, Look);
    var w4 := Step(annotation, w3, Write(Acknowledged));
    Step(annotation, w4, Finish)
  }

  /** One round settles the mirror and asks for no other; it writes exactly if there was something to
      write, and then that write is the only event on its way. */
  lemma RoundSettles(annotation: string, w: World)
    requires Inv(annotation, w) && w.phase.Idle? && w.dirty && !w.delayed && w.routeLog == [] && w.secretLog == []
    ensures var w' := Round(annotation, w);
            && Inv(annotation, w') && Settled(w') && w'.phase.Idle? && !w'.dirty && !w'.delayed
            && w'.routeLog == []
            && (Settled(w) ==> w'.secretLog == [] && w'.store == w.store)
            && (!Settled(w) ==> w'.secretLog == [Current(w')])
  {
    var res := SyncResult(w.route, Known(w), Current(w), w.store, Acknowledged);
    RoundShape(annotation, w, res);
    SyncSettles(annotation, w, res);
    RoundKeepsInv(annotation, w);
  }

  lemma RoundShape(annotation: string, w: World, res: Result)
    requires w.dirty && w.phase.Idle?
    requires res == SyncResult(w.routeCache, Known(w), w.secretCache, w.store, Acknowledged)
    ensures Round(annotation, w) ==
            w.(dirty := false, phase := Idle, store := res.store, delayed := w.delayed || res.err,
               secretLog := if res.store == w.store then w.secretLog
                            else w.secretLog + [Find(res.store.secrets, w.key)])
  {
  }

  lemma SyncSettles(annotation: string, w: World, res: Result)
    requires Subject(annotation, w, w.route) && Owned(w, Current(w)) && w.routeCache == w.route
    requires res == SyncResult(w.route, Known(w), Current(w), w.store, Acknowledged)
    ensures !res.err && w.key in res.store.secrets && Mirrors(res.store.secrets[w.key], w.route)
    ensures res.store == w.store <==> Settled(w)
  {
    SyncToldFromInputs(w.route, Known(w), Current(w), w.store, Acknowledged);
  }

  lemma RoundKeepsInv(annotation: string, w: World)
    requires Inv(annotation, w) && w.phase.Idle? && w.dirty
    ensures Inv(annotation, Round(annotation, w))
  {
    var w1 := Step(annotation, w, Pick);
    var w2 := Step(annotation, w1, Load);
    var w3 := Step(annotation, w2, Look);
    var w4 := Step(annotation, w3, Write(Acknowledged));
    WorkerKeepsInv(annotation, w, Pick);
    WorkerKeepsInv(annotation, w1, Load);
    WorkerKeepsInv(annotation, w2, Look);
    WriteKeepsInv(annotation, w3, Write(Acknowledged));
    WorkerKeepsInv(annotation, w4, Finish);
  }

  /** Left to itself the mirror comes to rest: after one round, the delivery of what it wrote, and at most
      one more round that writes nothing, it is settled and nothing is outstanding. */
  lemma MirrorComesToRest(annotation: string, w: World)
    requires Inv(annotation, w) && w.phase.Idle? && w.dirty && !w.delayed && w.routeLog == [] && w.secretLog == []
    ensures var w1 := Round(annotation, w);
            var w2 := if w1.secretLog == [] then w1 else Step(annotation, w1, DeliverSecret);
            var w3 := if w2.dirty then Round(annotation, w2) else w2;
            Settled(w3) && !Covered(w3) && w3.phase.Idle? && w3.secretLog == [] && w3.store == w1.store
  {
    RoundSettles(annotation, w);
    var w1 := Round(annotation, w);
    if w1.secretLog != [] {
      DeliveryKeepsInv(annotation, w1, DeliverSecret);
      var w2 := Step(annotation, w1, DeliverSecret);
      if w2.dirty {
        RoundSettles(annotation, w2);
      }
    }
  }

  /** A lagging cache is mirrored as it is, until the Route's event arrives. */
  lemma StaleCopyIsMirrored(annotation: string, w: World)
    requires Inv(annotation, w) && w.phase.Picked? && w.secretLog == []
    requires w.routeCache.tls.value.key != w.route.tls.value.key
    ensures var w1 := Step(annotation, w, Load); var w2 := Step(annotation, w1, Look);
            var w3 := Step(annotation, w2, Write(Acknowledged));
            && w3.phase == Finished(false) && !Settled(w3) && w3.routeLog != []
            && Current(w3).Some? && Mirrors(Current(w3).value, w.routeCache)
  {
    FilledMirrors(if w.secretCache.Some? then w.secretCache.value else Secret(0, "", None, map[]), w.routeCache);
  }
}
