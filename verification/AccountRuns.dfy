/**
 Every interleaving of account syncs, orders, users and lagging caches: when do orders always use a key
 registered at the CA they go to?
 */
module AccountRuns {
  import opened Api
  import opened Accounts

  /**
   Nothing a sync reads is held still until it acts on it, so the reads are recorded on their own. An
   account sync reads its ConfigMap (`loaded`), then looks its Secret up (`looked`), then acts. The gate
   in front of an order reads the ConfigMap for a directory and a Secret name (`read`), and later the
   Secret; the order uses that directory and that key (`authorized`). What has been read stays in the
   sets: any number of syncs may be on their way, however slow.
   */
  datatype State = State(
    world: World,
    loaded: set<(string, ConfigMap)>,
    looked: set<(string, ConfigMap, Option<string>)>,
    read: set<(string, string)>,
    authorized: set<(string, string)>)

  datatype Event =
    | LoadConfigMap(name: string)
    | LookUpSecret(name: string, configMap: ConfigMap)
    | FinishSync(name: string, configMap: ConfigMap, secret: Option<string>, answers: Answers)
    | ReadIssuer(name: string)
    | AuthorizeOrder(directory: string, secretName: string)
    | WriteConfigMap(name: string, configMap: ConfigMap)
    | DeleteConfigMap(name: string)
    | DeleteSecret(name: string)
    | CacheConfigMap(name: string)
    | CacheSecret(name: string)

  /** The issuer texts the users of a cluster may write, by the name of the ConfigMap. */
  type Policy = (string, ConfigMap) -> bool

  /** Acting only on what was read. The CA returns an account only to a key it has registered. */
  predicate Legal(policy: Policy, st: State, e: Event)
  {
    match e
    case LoadConfigMap(name) => name in st.world.configMapCache
    case LookUpSecret(name, cm) => (name, cm) in st.loaded
    case FinishSync(name, cm, secret, a) =>
      && (name, cm, secret) in st.looked
      && (a.account.Some? && IsAcme(cm) && secret.Some? ==> (Directory(cm), secret.value) in st.world.registered)
    case ReadIssuer(name) => name in st.world.configMapCache && Opens(st.world.configMapCache[name])
    case AuthorizeOrder(d, s) => (d, s) in st.read && s in st.world.secretCache
    case WriteConfigMap(name, cm) => policy(name, cm)
    case _ => true
  }

  /** The text passes the gate's checks; there is no default for the Secret's name here. */
  predicate Opens(cm: ConfigMap)
  {
    IsAcme(cm) && cm.text.issuer.secretName != ""
  }

  function Step(policy: Policy, st: State, e: Event): (st': State)
    requires Legal(policy, st, e)
  {
    var w := st.world;
    match e
    case LoadConfigMap(name) => st.(loaded := st.loaded + {(name, w.configMapCache[name])})
    case LookUpSecret(name, cm) => st.(looked := st.looked + {(name, cm, CachedSecret(w, name, cm))})
    case FinishSync(name, cm, secret, a) => st.(world := Conclude(w, name, cm, secret, a).world)
    case ReadIssuer(name) =>
      var cm := w.configMapCache[name];
      st.(read := st.read + {(Directory(cm), cm.text.issuer.secretName)})
    case AuthorizeOrder(d, s) => st.(authorized := st.authorized + {(d, w.secretCache[s])})
    case WriteConfigMap(name, cm) => st.(world := w.(configMaps := w.configMaps[name := cm]))
    case DeleteConfigMap(name) => st.(world := w.(configMaps := w.configMaps - {name}))
    case DeleteSecret(name) => st.(world := w.(secrets := w.secrets - {name}))
    case CacheConfigMap(name) =>
      st.(world := w.(configMapCache := Copied(w.configMaps, w.configMapCache, name)))
    case CacheSecret(name) => st.(world := SecretCached(w, name))
  }

  predicate LegalRun(policy: Policy, st: State, es: seq<Event>)
    decreases |es|
  {
    es == [] || (Legal(policy, st, es[0]) && LegalRun(policy, Step(policy, st, es[0]), es[1..]))
  }

  function Exec(policy: Policy, st: State, es: seq<Event>): (st': State)
    requires LegalRun(policy, st, es)
    decreases |es|
  {
    if es == [] then st else Exec(policy, Step(policy, st, es[0]), es[1..])
  }

  predicate Initial(policy: Policy, st: State)
  {
    && (forall n :: n in st.world.configMaps ==> policy(n, st.world.configMaps[n]))
    && st == State(World(st.world.configMaps, map[], map[], map[], {}, 0, 0, 0, 0), {}, {}, {}, {})
  }

  // ---------------------------------------------------------------- what users must keep apart

  /** Users may write a text that makes the account controller register a key for this Secret there. */
  ghost predicate Enrollable(policy: Policy, secretName: string, directory: string)
  {
    exists name, cm :: policy(name, cm) && Enrolls(name, cm, secretName, directory)
  }

  /** The text gets orders with this Secret sent to this directory: it names the Secret, or it leaves
      the name to the account controller, which fills in the ConfigMap's own. */
  predicate Claims(name: string, cm: ConfigMap, secretName: string, directory: string)
  {
    && IsAcme(cm) && secretName != ""
    && EffectiveName(name, cm.text.issuer) == secretName && Directory(cm) == directory
    && (cm.text.issuer.secretName == "" ==> !cm.deleting)
  }

  ghost predicate Claimable(policy: Policy, secretName: string, directory: string)
  {
    exists name, cm :: policy(name, cm) && Claims(name, cm, secretName, directory)
  }

  /** No Secret is enrolled at one directory and claimed for another, now or later. */
  ghost predicate Separated(policy: Policy)
  {
    forall s, d, d' :: Enrollable(policy, s, d) && Claimable(policy, s, d') ==> d == d'
  }

  // ---------------------------------------------------------------- safety

  /** Whatever the account controller has made of it, the text does what some text of the users does. */
  ghost predicate Backed(policy: Policy, name: string, cm: ConfigMap)
  {
    IsAcme(cm) ==>
      var s, d := EffectiveName(name, cm.text.issuer), Directory(cm);
      && (!cm.deleting ==> Enrollable(policy, s, d))
      && (cm.text.issuer.secretName != "" ==> Claimable(policy, s, d))
  }

  /** The key was registered where one of the users' texts sends it. */
  ghost predicate Placed(policy: Policy, registered: set<(string, string)>, secretName: string, key: string)
  {
    exists d :: Enrollable(policy, secretName, d) && (d, key) in registered
  }

  ghost predicate TextsOk(policy: Policy, st: State)
  {
    && (forall n :: n in st.world.configMaps ==> Backed(policy, n, st.world.configMaps[n]))
    && (forall n :: n in st.world.configMapCache ==> Backed(policy, n, st.world.configMapCache[n]))
    && (forall n, cm :: (n, cm) in st.loaded ==> Backed(policy, n, cm))
    && (forall n, cm, key :: (n, cm, key) in st.looked ==> Backed(policy, n, cm))
    && (forall d, s :: (d, s) in st.read ==> Claimable(policy, s, d))
  }

  ghost predicate KeysOk(policy: Policy, w: World)
  {
    && (forall n :: n in w.secrets ==> Placed(policy, w.registered, n, w.secrets[n]))
    && (forall n :: n in w.secretCache ==> Placed(policy, w.registered, n, w.secretCache[n]))
  }

  predicate AddsUp(w: World)
  {
    w.registrations == w.secretsCreated + w.creationsFailed + w.unseen
  }

  ghost predicate Inv(policy: Policy, st: State)
  {
    TextsOk(policy, st) && KeysOk(policy, st.world) && AddsUp(st.world) && st.authorized <= st.world.registered
  }

  lemma PolicyIsBacked(policy: Policy, name: string, cm: ConfigMap)
    requires policy(name, cm)
    ensures Backed(policy, name, cm)
  {
    if IsAcme(cm) {
      var s, d := EffectiveName(name, cm.text.issuer), Directory(cm);
      assert !cm.deleting ==> Enrolls(name, cm, s, d);
      assert cm.text.issuer.secretName != "" ==> Claims(name, cm, s, d);
    }
  }

  lemma InitialInv(policy: Policy, st: State)
    requires Initial(policy, st)
    ensures Inv(policy, st)
  {
    forall n | n in st.world.configMaps
      ensures Backed(policy, n, st.world.configMaps[n])
    {
      PolicyIsBacked(policy, n, st.world.configMaps[n]);
    }
  }

  /** What enrolls a Secret also claims it, if it has a name at all. */
  lemma EnrollableIsClaimable(policy: Policy, s: string, d: string)
    requires Enrollable(policy, s, d) && s != ""
    ensures Claimable(policy, s, d)
  {
    var name, cm :| policy(name, cm) && Enrolls(name, cm, s, d);
    assert Claims(name, cm, s, d);
  }

  /** The account controller only fills in names and account data. */
  lemma StoredIsBacked(policy: Policy, name: string, cm: ConfigMap, secret: Option<string>, a: Answers)
    requires Backed(policy, name, cm) && Decide(name, cm, secret, a).Store?
    ensures Backed(policy, name, StoredText(cm, Decide(name, cm, secret, a).issuer))
  {
    var s := EffectiveName(name, cm.text.issuer);
    if s != "" {
      EnrollableIsClaimable(policy, s, Directory(cm));
    }
  }

  /** A Secret is only ever created with a key that has just been registered for it. */
  lemma EnrolledShape(w: World, d: string, s: string, a: Answers)
    ensures var w' := Enrolled(w, d, s, a);
            && w'.configMaps == w.configMaps && w'.configMapCache == w.configMapCache
            && w'.secretCache == w.secretCache && w.registered <= w'.registered
            && (|| w'.secrets == w.secrets
                || (a.key.Some? && w'.secrets == w.secrets[s := a.key.value] && (d, a.key.value) in w'.registered))
            && (AddsUp(w) ==> AddsUp(w'))
  {
  }

  lemma KeysStayPlaced(policy: Policy, w: World, w': World, s: string, d: string, key: string)
    requires KeysOk(policy, w) && Enrollable(policy, s, d)
    requires w'.secretCache == w.secretCache && w.registered <= w'.registered
    requires w'.secrets == w.secrets || (w'.secrets == w.secrets[s := key] && (d, key) in w'.registered)
    ensures KeysOk(policy, w')
  {
    forall n, k | Placed(policy, w.registered, n, k)
      ensures Placed(policy, w'.registered, n, k)
    {
      var e :| Enrollable(policy, n, e) && (e, k) in w.registered;
      assert (e, k) in w'.registered;
    }
  }

  lemma FinishKeepsInv(policy: Policy, st: State, e: Event)
    requires Inv(policy, st) && Legal(policy, st, e) && e.FinishSync?
    ensures Inv(policy, Step(policy, st, e))
  {
    var act := Decide(e.name, e.configMap, e.secret, e.answers);
    assert Backed(policy, e.name, e.configMap);
    if act.Enroll? {
      EnrolledShape(st.world, act.directory, act.secretName, e.answers);
      var key := if e.answers.key.Some? then e.answers.key.value else "";
      var w' := Enrolled(st.world, act.directory, act.secretName, e.answers);
      KeysStayPlaced(policy, st.world, w', act.secretName, act.directory, key);
    } else if act.Store? {
      StoredIsBacked(policy, e.name, e.configMap, e.secret, e.answers);
    }
  }

  /** An order goes to a directory its Secret is claimed for, so that is where its key was registered. */
  lemma OrderIsRegistered(policy: Policy, st: State, d: string, s: string)
    requires Separated(policy) && Inv(policy, st) && (d, s) in st.read && s in st.world.secretCache
    ensures (d, st.world.secretCache[s]) in st.world.registered
  {
    var d' :| Enrollable(policy, s, d') && (d', st.world.secretCache[s]) in st.world.registered;
    assert d' == d;
  }

  lemma StepKeepsInv(policy: Policy, st: State, e: Event)
    requires Separated(policy) && Inv(policy, st) && Legal(policy, st, e)
    ensures Inv(policy, Step(policy, st, e))
  {
    if e.FinishSync? {
      FinishKeepsInv(policy, st, e);
    } else if e.AuthorizeOrder? {
      OrderIsRegistered(policy, st, e.directory, e.secretName);
    } else if e.WriteConfigMap? {
      PolicyIsBacked(policy, e.name, e.configMap);
    }
  }

  lemma {:induction false} RunKeepsInv(policy: Policy, st: State, es: seq<Event>)
    requires Separated(policy) && Inv(policy, st) && LegalRun(policy, st, es)
    ensures Inv(policy, Exec(policy, st, es))
    decreases |es|
  {
    if es != [] {
      StepKeepsInv(policy, st, es[0]);
      RunKeepsInv(policy, Step(policy, st, es[0]), es[1..]);
    }
  }

  /** Registered-account safety: however the reads and writes of the two controllers, the users and the
      caches interleave, every order is authorized with a key registered at its own CA; and every
      registration ended in a created Secret, a failed creation or an answer that was lost. */
  lemma OrdersUseRegisteredKeys(policy: Policy, st: State, es: seq<Event>)
    requires Separated(policy) && Initial(policy, st) && LegalRun(policy, st, es)
    ensures var st' := Exec(policy, st, es);
            && st'.authorized <= st'.world.registered
            && st'.world.registrations ==
               st'.world.secretsCreated + st'.world.creationsFailed + st'.world.unseen
  {
    InitialInv(policy, st);
    RunKeepsInv(policy, st, es);
  }

  // ---------------------------------------------------------------- necessity

  lemma Prepend(policy: Policy, st: State, e: Event, es: seq<Event>)
    requires Legal(policy, st, e) && LegalRun(policy, Step(policy, st, e), es)
    ensures LegalRun(policy, st, [e] + es)
    ensures Exec(policy, st, [e] + es) == Exec(policy, Step(policy, st, e), es)
  {
  }

  lemma {:induction false} Joined(policy: Policy, st: State, xs: seq<Event>, ys: seq<Event>)
    requires LegalRun(policy, st, xs) && LegalRun(policy, Exec(policy, st, xs), ys)
    ensures LegalRun(policy, st, xs + ys)
    ensures Exec(policy, st, xs + ys) == Exec(policy, Exec(policy, st, xs), ys)
    decreases |xs|
  {
    if xs == [] {
      assert xs + ys == ys;
    } else {
      Joined(policy, Step(policy, st, xs[0]), xs[1..], ys);
      Prepend(policy, st, xs[0], xs[1..] + ys);
      assert xs + ys == [xs[0]] + (xs[1..] + ys);
    }
  }

  lemma Then(policy: Policy, st: State, es: seq<Event>, mid: State, e: Event) returns (st': State, es': seq<Event>)
    requires LegalRun(policy, st, es) && Exec(policy, st, es) == mid && Legal(policy, mid, e)
    ensures st' == Step(policy, mid, e)
    ensures LegalRun(policy, st, es') && Exec(policy, st, es') == st'
  {
    st' := Step(policy, mid, e);
    es' := es + [e];
    Prepend(policy, mid, e, []);
    assert [e] + [] == [e];
    Joined(policy, st, es, [e]);
  }

  /** One account sync that nothing interrupts. */
  lemma SyncRun(policy: Policy, st: State, name: string, a: Answers) returns (es: seq<Event>)
    requires name in st.world.configMapCache
    requires var cm := st.world.configMapCache[name]; var secret := CachedSecret(st.world, name, cm);
             a.account.Some? && IsAcme(cm) && secret.Some? ==> (Directory(cm), secret.value) in st.world.registered
    ensures LegalRun(policy, st, es)
    ensures var st' := Exec(policy, st, es);
            && st'.world == SyncAccount(st.world, name, a).world
            && st'.read == st.read && st'.authorized == st.authorized
  {
    var cm := st.world.configMapCache[name];
    var secret := CachedSecret(st.world, name, cm);
    var st1, es1 := Then(policy, st, [], st, LoadConfigMap(name));
    var st2, es2 := Then(policy, st, es1, st1, LookUpSecret(name, cm));
    var st3, es3 := Then(policy, st, es2, st2, FinishSync(name, cm, secret, a));
    es := es3;
  }

  /** A text is written and cached, a key is registered for it, and the new Secret is cached. */
  lemma EnrollRun(policy: Policy, st: State, name: string, cm: ConfigMap, s: string, d: string, key: string)
    returns (es: seq<Event>)
    requires policy(name, cm) && Enrolls(name, cm, s, d) && s !in st.world.secrets && s !in st.world.secretCache
    ensures LegalRun(policy, st, es)
    ensures var st' := Exec(policy, st, es);
            && st'.world.registered == st.world.registered + {(d, key)}
            && st'.world.secretCache == st.world.secretCache[s := key]
            && st'.world.configMaps == st.world.configMaps[name := cm]
            && name in st'.world.configMapCache && st'.world.configMapCache[name] == cm
            && st'.read == st.read && st'.authorized == st.authorized
  {
    var works := Answers(false, Some(key), Registered, Acknowledged, true, None, Acknowledged);
    var st1, es1 := Then(policy, st, [], st, WriteConfigMap(name, cm));
    var st2, es2 := Then(policy, st, es1, st1, CacheConfigMap(name));
    var sync := SyncRun(policy, st2, name, works);
    Joined(policy, st, es2, sync);
    var st3 := Exec(policy, st2, sync);
    assert st3.world == Enrolled(st2.world, d, s, works);
    assert st3.world.secrets == st2.world.secrets[s := key];
    var st4, es4 := Then(policy, st, es2 + sync, st3, CacheSecret(s));
    es := es4;
  }

  const NOTHING := State(World(map[], map[], map[], map[], {}, 0, 0, 0, 0), {}, {}, {}, {})

  /** The gate reads a text that names its Secret. */
  lemma ReadNamed(policy: Policy, name: string, cm: ConfigMap, s: string, d: string) returns (es: seq<Event>)
    requires policy(name, cm) && Claims(name, cm, s, d) && cm.text.issuer.secretName != ""
    ensures LegalRun(policy, NOTHING, es)
    ensures var st := Exec(policy, NOTHING, es);
            && (d, s) in st.read && s !in st.world.secrets && s !in st.world.secretCache
            && st.world.registered == {}
  {
    var st1, es1 := Then(policy, NOTHING, [], NOTHING, WriteConfigMap(name, cm));
    var st2, es2 := Then(policy, NOTHING, es1, st1, CacheConfigMap(name));
    var st3, es3 := Then(policy, NOTHING, es2, st2, ReadIssuer(name));
    es := es3;
  }

  /** A text that leaves the name to the account controller is enrolled, so that its name is filled in;
      the gate reads it, and then its Secret is deleted. */
  lemma ReadFilledIn(policy: Policy, cm: ConfigMap, s: string, d: string, key: string) returns (es: seq<Event>)
    requires policy(s, cm) && Claims(s, cm, s, d) && cm.text.issuer.secretName == ""
    ensures LegalRun(policy, NOTHING, es)
    ensures var st := Exec(policy, NOTHING, es);
            && (d, s) in st.read && s !in st.world.secrets && s !in st.world.secretCache
            && st.world.registered == {(d, key)}
  {
    var known := Some(Account("uri", [], "", ""));
    var retry := Answers(false, None, NotRegistered, Dropped, true, known, Acknowledged);
    var first := EnrollRun(policy, NOTHING, s, cm, s, d, key);
    var st1 := Exec(policy, NOTHING, first);
    var sync := SyncRun(policy, st1, s, retry);
    Joined(policy, NOTHING, first, sync);
    var st2 := Exec(policy, st1, sync);
    RetryFillsIn(st1.world, s, retry, d);
    var st3, es3 := Then(policy, NOTHING, first + sync, st2, CacheConfigMap(s));
    var st4, es4 := Then(policy, NOTHING, es3, st3, ReadIssuer(s));
    var st5, es5 := Then(policy, NOTHING, es4, st4, DeleteSecret(s));
    var st6, es6 := Then(policy, NOTHING, es5, st5, CacheSecret(s));
    es := es6;
  }

  lemma RetryFillsIn(w: World, name: string, a: Answers, d: string)
    requires name in w.configMaps && name in w.configMapCache && w.configMapCache[name] == w.configMaps[name]
    requires name in w.secretCache && Claims(name, w.configMaps[name], name, d)
    requires w.configMaps[name].text.issuer.secretName == ""
    requires !a.lookupFails && a.keyDecodes && a.account.Some? && a.write.Acknowledged?
    ensures var w' := SyncAccount(w, name, a).world;
            && w' == w.(configMaps := w'.configMaps)
            && name in w'.configMaps && Opens(w'.configMaps[name])
            && w'.configMaps[name].text.issuer.secretName == name && Directory(w'.configMaps[name]) == d
  {
  }

  /** If a Secret can be enrolled at one directory and claimed for another, by two issuers or by edits of
      one, then some run sends an order to the second CA under a key it has never seen: the gate reads
      the claim, the Secret is enrolled elsewhere, and the gate reads the Secret. */
  lemma SharedSecretIsUnsafe(policy: Policy, s: string, d: string, d': string, former: string, key: string)
    returns (es: seq<Event>)
    requires Enrollable(policy, s, d) && Claimable(policy, s, d') && d != d' && former != key
    ensures Initial(policy, NOTHING) && LegalRun(policy, NOTHING, es)
    ensures var st := Exec(policy, NOTHING, es);
            (d', key) in st.authorized && (d', key) !in st.world.registered
  {
    var a, cmA :| policy(a, cmA) && Enrolls(a, cmA, s, d);
    var b, cmB :| policy(b, cmB) && Claims(b, cmB, s, d');
    var reading: seq<Event>;
    if cmB.text.issuer.secretName == "" {
      reading := ReadFilledIn(policy, cmB, s, d', former);
    } else {
      reading := ReadNamed(policy, b, cmB, s, d');
    }
    var st := Exec(policy, NOTHING, reading);
    var enroll := EnrollRun(policy, st, a, cmA, s, d, key);
    Joined(policy, NOTHING, reading, enroll);
    var st', es' := Then(policy, NOTHING, reading + enroll, Exec(policy, st, enroll), AuthorizeOrder(d', s));
    es := es';
  }

  ghost predicate AlwaysRegistered(policy: Policy)
  {
    forall st, es :: Initial(policy, st) && LegalRun(policy, st, es) ==>
                       Exec(policy, st, es).authorized <= Exec(policy, st, es).world.registered
  }

  /** Keeping Secrets apart is exactly what orders with registered keys require of the users. */
  lemma RegisteredIffSeparated(policy: Policy)
    ensures AlwaysRegistered(policy) <==> Separated(policy)
  {
    if Separated(policy) {
      forall st, es | Initial(policy, st) && LegalRun(policy, st, es)
        ensures Exec(policy, st, es).authorized <= Exec(policy, st, es).world.registered
      {
        OrdersUseRegisteredKeys(policy, st, es);
      }
    } else {
      var s, d, d' :| Enrollable(policy, s, d) && Claimable(policy, s, d') && d != d';
      var es := SharedSecretIsUnsafe(policy, s, d, d', "old", "new");
    }
  }

  /** One issuer is enough: it is edited to point at another directory while its Secret keeps its name,
      written out or not. */
  lemma EditedDirectoryIsUnsafe(policy: Policy, name: string, cm: ConfigMap, edited: ConfigMap)
    requires name != "" && policy(name, cm) && IsAcme(cm) && !cm.deleting
    requires policy(name, edited) && IsAcme(edited) && !edited.deleting && Directory(edited) != Directory(cm)
    requires edited.text.issuer.secretName == cm.text.issuer.secretName
    ensures !AlwaysRegistered(policy)
  {
    var s := EffectiveName(name, cm.text.issuer);
    assert Enrolls(name, cm, s, Directory(cm)) && Claims(name, edited, s, Directory(edited));
    assert Enrollable(policy, s, Directory(cm)) && Claimable(policy, s, Directory(edited));
    RegisteredIffSeparated(policy);
  }
}
