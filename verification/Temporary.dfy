/** Temporary exposer objects: they are never provisioned themselves, and cleanup removes exactly them. */
module Temporary {
  import opened Api
  import opened Orders

  // ---------------------------------------------------------------- building the exposer Route

  /** A regular expression as its compiler sees it: None if invalid, else the keys it matches. */
  type Regexes = string -> Option<string -> bool>

  function Kept(m: map<string, string>, pattern: Option<string>, compile: Regexes): (m': map<string, string>)
  {
    if pattern.None? || pattern.value == "" || compile(pattern.value).None? then m
    else map k | k in m && !compile(pattern.value).value(k) :: m[k]
  }

  function Lookup(m: map<string, string>, k: string): (v: Option<string>)
  {
    if k in m then Some(m[k]) else None
  }

  method DeleteMatching(m: map<string, string>, pattern: Option<string>, compile: Regexes)
    returns (m': map<string, string>)
    ensures m' == Kept(m, pattern, compile)
  {
    m' := m;
    if pattern.None? || pattern.value == "" {
      return;
    }
    var r := compile(pattern.value);
    if r.None? {
      return;
    }
    var keys := m.Keys;
    while keys != {}
      invariant keys <= m.Keys
      invariant m' == map k | k in m && (k in keys || !r.value(k)) :: m[k]
    {
      var k :| k in keys;
      keys := keys - {k};
      if r.value(k) {
        m' := m' - {k};
      }
    }
  }

  /** The Route that exposes a challenge for r: a filtered copy, marked temporary. The label filter is
      read from the annotations that survived their own filter. */
  function ExposerRoute(r: Route, name: string, key: string, id: string, compile: Regexes): (x: Route)
  {
    var annotations := r.annotations - {IP_WHITELIST};
    var kept := Kept(annotations, Lookup(annotations, FILTER_ANNOTATIONS), compile);
    var labels := Kept(r.labels, Lookup(kept, FILTER_LABELS), compile);
    var status := Kept(map[STATUS_ANNOTATION := ""], Lookup(annotations, FILTER_ANNOTATIONS), compile);
    r.(name := name,
       status := if STATUS_ANNOTATION in status then r.status else NoText,
       annotations := kept[EXPOSER_ID := id][EXPOSER_KEY := key],
       labels := labels[TEMPORARY_LABEL := "true"][EXPOSER_UID := r.uid],
       tls := Some(Tls("", Empty, "edge", "Allow", "")))
  }

  /** A key survives a filter unless the filter is a valid, non-empty pattern that matches it. */
  predicate Survives(filter: Option<string>, compile: Regexes, k: string)
  {
    filter.Some? && filter.value != "" && compile(filter.value).Some? ==> !compile(filter.value).value(k)
  }

  /** The construction as sync does it, on the copied maps. Whatever the filters say, the marks are
      set and the owner is r; apart from the marks, exactly the annotations and labels that survive
      their filter are carried over unchanged, the status annotation among them, and a label filter that
      the annotation filter removed has no say. */
  method BuildExposerRoute(r: Route, name: string, key: string, id: string, compile: Regexes) returns (x: Route)
    ensures x.(name := r.name, annotations := r.annotations, labels := r.labels, status := r.status, tls := r.tls) == r
    ensures x.status == if Survives(Lookup(r.annotations, FILTER_ANNOTATIONS), compile, STATUS_ANNOTATION)
                        then r.status else NoText
    ensures x.name == name && x.tls == Some(Tls("", Empty, "edge", "Allow", ""))
    ensures IsTemporary(x.labels) && Lookup(x.labels, EXPOSER_UID) == Some(r.uid)
    ensures Lookup(x.annotations, EXPOSER_ID) == Some(id) && Lookup(x.annotations, EXPOSER_KEY) == Some(key)
    ensures forall k :: k != EXPOSER_ID && k != EXPOSER_KEY ==>
                          Lookup(x.annotations, k) ==
                          if k != IP_WHITELIST && Survives(Lookup(r.annotations, FILTER_ANNOTATIONS), compile, k)
                          then Lookup(r.annotations, k) else None
    ensures forall k :: k != TEMPORARY_LABEL && k != EXPOSER_UID ==>
                          Lookup(x.labels, k) ==
                          if Survives(Lookup(x.annotations, FILTER_LABELS), compile, k)
                          then Lookup(r.labels, k) else None
    ensures x == ExposerRoute(r, name, key, id, compile)
  {
    var annotations := r.annotations - {IP_WHITELIST};
    var status := DeleteMatching(map[STATUS_ANNOTATION := ""], Lookup(annotations, FILTER_ANNOTATIONS), compile);
    annotations := DeleteMatching(annotations, Lookup(annotations, FILTER_ANNOTATIONS), compile);
    var labels := DeleteMatching(r.labels, Lookup(annotations, FILTER_LABELS), compile);
    annotations := annotations[EXPOSER_ID := id];
    annotations := annotations[EXPOSER_KEY := key];
    labels := labels[TEMPORARY_LABEL := "true"];
    labels := labels[EXPOSER_UID := r.uid];
    x := r.(name := name, annotations := annotations, labels := labels,
            status := if STATUS_ANNOTATION in status then r.status else NoText,
            tls := Some(Tls("", Empty, "edge", "Allow", "")));
  }

  /** Whatever filters a Route carries, its exposer is skipped by every sync, in every world and with
      every answer: nothing is ordered, polled, written or scheduled for it. */
  lemma ExposersAreNeverProvisioned(
    r: Route, name: string, key: string, id: string, compile: Regexes,
    cfg: Config, w: World, status: StatusText, ingress: seq<Ingress>, a: Answers)
    requires w.route == ExposerRoute(r, name, key, id, compile).(status := status, ingress := ingress)
    ensures !IsManaged(w.route.annotations, w.route.labels, cfg.annotation)
    ensures Decide(cfg, w, a) == Skip
    ensures After(w, Decide(cfg, w, a), a) == w.(clock := a.orderedAt)
    ensures w.route.labels[EXPOSER_UID] == r.uid
  {
  }

  // ---------------------------------------------------------------- cleaning up

  datatype Kind = RouteKind | SecretKind | ReplicaSetKind | ServiceKind | OtherKind

  /** `exposes` is the value of the exposer-uid label; `owner` the UID of the controlling object. */
  datatype Object = Object(kind: Kind, uid: string, owner: Option<string>, exposes: Option<string>)

  predicate Present(c: set<Object>, uid: string)
  {
    exists o :: o in c && o.uid == uid
  }

  function Orphans(c: set<Object>): (os: set<Object>)
  {
    set o | o in c && o.owner.Some? && !Present(c, o.owner.value)
  }

  /** Owner-reference collection, to its fixpoint. */
  function Collect(c: set<Object>): (c': set<Object>)
    decreases |c|
  {
    if Orphans(c) == {} then c
    else
      assert c == Orphans(c) + (c - Orphans(c));
      Collect(c - Orphans(c))
  }

  /** DeleteCollection of the Routes labelled with the UID. */
  function Cleanup(c: set<Object>, uid: string): (c': set<Object>)
  {
    set o | o in c && !(o.kind.RouteKind? && o.exposes == Some(uid))
  }

  predicate OwnedBy(c: set<Object>, o: Object, p: Object)
  {
    p in c && o.owner == Some(p.uid)
  }

  /** An exposer Route hangs off the Route it exposes, the other temporary objects hang off an exposer
      Route of the same label, and user objects hang only off user objects. */
  ghost predicate Placed(ever: set<Object>, o: Object)
  {
    if o.exposes.None? then
      o.owner.Some? ==> exists p :: OwnedBy(ever, o, p) && p.exposes.None?
    else if o.kind.RouteKind? then
      o.owner == o.exposes && exists p :: OwnedBy(ever, o, p) && p.exposes.None?
    else
      exists p :: OwnedBy(ever, o, p) && p.kind.RouteKind? && p.exposes == o.exposes
  }

  /** All objects that ever existed: UIDs are not reused, and owners come before what they own. */
  ghost predicate WellFormed(ever: set<Object>)
  {
    && (forall o, p :: o in ever && p in ever && o.uid == p.uid ==> o == p)
    && (forall o :: o in ever ==> Placed(ever, o))
  }

  /** The objects that are not temporary objects of this Route. */
  function Others(c: set<Object>, uid: string): (c': set<Object>)
  {
    set o | o in c && o.exposes != Some(uid)
  }

  /** Collection leaves the greatest part in which every owner is present. */
  lemma {:induction false} CollectIsGreatest(c: set<Object>, part: set<Object>)
    requires part <= c && Orphans(part) == {}
    ensures part <= Collect(c) <= c && Orphans(Collect(c)) == {}
    decreases |c|
  {
    if Orphans(c) != {} {
      assert c == Orphans(c) + (c - Orphans(c));
      forall o | o in part
        ensures o !in Orphans(c)
      {
        assert o !in Orphans(part);
      }
      CollectIsGreatest(c - Orphans(c), part);
    }
  }

  /** What is not a temporary object of this Route does not hang off one. */
  lemma OthersHoldTogether(ever: set<Object>, c: set<Object>, uid: string)
    requires WellFormed(ever) && c <= ever && Orphans(c) == {}
    ensures Orphans(Others(c, uid)) == {}
  {
    forall o | o in Others(c, uid) && o.owner.Some?
      ensures Present(Others(c, uid), o.owner.value)
    {
      assert o !in Orphans(c) && Placed(ever, o);
      var p :| p in c && p.uid == o.owner.value;
      assert p in Others(c, uid);
    }
  }

  /** What hangs together without the exposer Routes has no other temporary object of the Route either. */
  lemma NothingTemporaryIsLeft(ever: set<Object>, c: set<Object>, uid: string)
    requires WellFormed(ever) && c <= ever && Orphans(c) == {} && Cleanup(c, uid) == c
    ensures Others(c, uid) == c
  {
    forall o | o in c
      ensures o.exposes != Some(uid)
    {
      assert Placed(ever, o) && o !in Orphans(c);
      if o.owner.Some? {
        var p :| p in c && p.uid == o.owner.value;
        assert p in Cleanup(c, uid) && p in ever;
      }
    }
  }

  /** Cleanup and collection remove all temporary objects of the Route and nothing that collection
      alone would have left; with no collection outstanding, they remove nothing else at all. */
  lemma CleanupIsExact(ever: set<Object>, c: set<Object>, uid: string)
    requires WellFormed(ever) && c <= ever
    ensures Collect(Cleanup(c, uid)) == Others(Collect(c), uid)
    ensures Orphans(c) == {} ==> Collect(Cleanup(c, uid)) == Others(c, uid)
  {
    CollectIsGreatest(c, {});
    OthersHoldTogether(ever, Collect(c), uid);
    CollectIsGreatest(Cleanup(c, uid), Others(Collect(c), uid));
    var left := Collect(Cleanup(c, uid));
    CollectIsGreatest(c, left);
    NothingTemporaryIsLeft(ever, left, uid);
  }

  /** The objects at the API server, and all that ever existed. */
  datatype Cluster = Cluster(objects: set<Object>, ever: set<Object>)

  /** The controller may act on a cached copy of an owner that is gone already. Deletion and owner-reference
      collection are separate events, and collection may take its time with any orphan. */
  datatype Event =
    | UserCreates(created: Object)
    | ControllerExposes(route: Object, uid: string)
    | ControllerAttaches(exposer: Object, kind: Kind, uid: string)
    | ControllerCleans(uid: string)
    | AnyoneDeletes(deleted: Object)
    | OrphanCollected(orphan: Object)

  ghost predicate Legal(k: Cluster, e: Event)
  {
    match e
    case UserCreates(o) =>
      && o.exposes.None? && !Present(k.ever, o.uid)
      && (o.owner.Some? ==> exists p :: OwnedBy(k.ever, o, p) && p.exposes.None?)
    case ControllerExposes(r, uid) => r in k.ever && r.exposes.None? && !Present(k.ever, uid)
    case ControllerAttaches(x, kind, uid) =>
      x in k.ever && x.kind.RouteKind? && x.exposes.Some? && !kind.RouteKind? && !Present(k.ever, uid)
    case ControllerCleans(_) => true
    case AnyoneDeletes(_) => true
    case OrphanCollected(o) => o in Orphans(k.objects)
  }

  function Added(k: Cluster, o: Object): (k': Cluster)
  {
    Cluster(k.objects + {o}, k.ever + {o})
  }

  function Step(k: Cluster, e: Event): (k': Cluster)
  {
    match e
    case UserCreates(o) => Added(k, o)
    case ControllerExposes(r, uid) => Added(k, Object(RouteKind, uid, Some(r.uid), Some(r.uid)))
    case ControllerAttaches(x, kind, uid) => Added(k, Object(kind, uid, Some(x.uid), x.exposes))
    case ControllerCleans(uid) => k.(objects := Cleanup(k.objects, uid))
    case AnyoneDeletes(o) => k.(objects := k.objects - {o})
    case OrphanCollected(o) => k.(objects := k.objects - {o})
  }

  ghost predicate Inv(k: Cluster)
  {
    WellFormed(k.ever) && k.objects <= k.ever
  }

  lemma AddingKeepsInv(k: Cluster, o: Object)
    requires Inv(k) && !Present(k.ever, o.uid) && Placed(k.ever, o)
    ensures Inv(Added(k, o))
  {
  }

  lemma StepKeepsInv(k: Cluster, e: Event)
    requires Inv(k) && Legal(k, e)
    ensures Inv(Step(k, e))
  {
    if e.UserCreates? {
      AddingKeepsInv(k, e.created);
    } else if e.ControllerExposes? {
      var x := Object(RouteKind, e.uid, Some(e.route.uid), Some(e.route.uid));
      assert OwnedBy(k.ever, x, e.route);
      AddingKeepsInv(k, x);
    } else if e.ControllerAttaches? {
      var y := Object(e.kind, e.uid, Some(e.exposer.uid), e.exposer.exposes);
      assert OwnedBy(k.ever, y, e.exposer);
      AddingKeepsInv(k, y);
    }
  }

  ghost predicate Run(k: Cluster, es: seq<Event>, k': Cluster)
    decreases es
  {
    if es == [] then k' == k else Legal(k, es[0]) && Run(Step(k, es[0]), es[1..], k')
  }

  /** After any run from an empty cluster, cleaning up for one Route removes its temporary objects and
      none but those collection would take anyway. */
  lemma CleanupIsExactInEveryRun(es: seq<Event>, k: Cluster, uid: string)
    requires Run(Cluster({}, {}), es, k)
    ensures Collect(Cleanup(k.objects, uid)) == Others(Collect(k.objects), uid)
    ensures Orphans(k.objects) == {} ==> Collect(Cleanup(k.objects, uid)) == Others(k.objects, uid)
  {
    RunKeepsInv(Cluster({}, {}), es, k);
    CleanupIsExact(k.ever, k.objects, uid);
  }

  lemma {:induction false} RunKeepsInv(k: Cluster, es: seq<Event>, k': Cluster)
    requires Inv(k) && Run(k, es, k')
    ensures Inv(k')
    decreases es
  {
    if es != [] {
      StepKeepsInv(k, es[0]);
      RunKeepsInv(Step(k, es[0]), es[1..], k');
    }
  }

  /** Cleanup itself only asks for Routes, and leaves the rest to owner references: an object of another
      kind that carries the label but is owned by nobody survives. */
  lemma UnownedObjectSurvives(c: set<Object>, o: Object, uid: string)
    requires o in c && !o.kind.RouteKind? && o.exposes == Some(uid) && o.owner.None?
    ensures o in Collect(Cleanup(c, uid))
  {
    CollectIsGreatest(Cleanup(c, uid), {o});
  }

  /** A user Route that carries the label by hand is deleted with the exposers. */
  lemma LabelledUserRouteIsDeleted()
    ensures var c := {Object(RouteKind, "r", None, None), Object(RouteKind, "user", None, Some("r"))};
            Cleanup(c, "r") == {Object(RouteKind, "r", None, None)}
  {
  }
}
