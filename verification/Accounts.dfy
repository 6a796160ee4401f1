/** The account controller's sync: it registers a key before any order can be placed with it. */
module Accounts {
  import opened Api

  /** What the CA knows of an account. */
  datatype Account = Account(uri: string, contacts: seq<string>, ordersURL: string, status: string)

  /** The ACME part of an issuer. `hash` is the text written for the contacts' digest. */
  datatype Spec = Spec(
    directory: string,
    contacts: seq<string>,
    hash: string,
    uri: string,
    ordersURL: string,
    accountStatus: string)

  datatype Issuer = Issuer(kind: string, secretName: string, acme: Option<Spec>)

  /** The issuer text of a ConfigMap; `canonical` when it is what marshalling would write. */
  datatype Text = NoText | Malformed | IssuerText(issuer: Issuer, canonical: bool)

  datatype ConfigMap = ConfigMap(version: nat, deleting: bool, text: Text)

  /** Go values compared by reflect.DeepEqual: a [64]byte and a []byte are never equal. */
  datatype GoBytes = Array(bytes: seq<char>) | Slice(bytes: seq<char>)

  function Digest(contacts: seq<string>): (d: seq<char>)
  {
    if contacts == [] then [] else contacts[0] + "\n" + Digest(contacts[1..])
  }

  datatype RegisterReply = NotRegistered | Registered | RegisteredUnseen

  datatype Answers = Answers(
    lookupFails: bool,
    key: Option<string>,
    register: RegisterReply,
    creation: WriteOutcome,
    keyDecodes: bool,
    account: Option<Account>,
    write: WriteOutcome)

  datatype Action =
    | Ignore
    | Fail
    | Enroll(directory: string, secretName: string)
    | UpdateRegistration
    | Keep
    | Store(issuer: Issuer)

  function EffectiveName(name: string, i: Issuer): (n: string)
  {
    if i.secretName == "" then name else i.secretName
  }

  /** The issuer as sync will marshal it, with the account's data if it fetched any. */
  function Refreshed(name: string, i: Issuer, account: Option<Account>): (i': Issuer)
    requires i.acme.Some?
  {
    var s := i.acme.value;
    var s' := if account.None? then s
              else s.(uri := account.value.uri, contacts := account.value.contacts,
                      ordersURL := account.value.ordersURL, accountStatus := account.value.status,
                      hash := Digest(account.value.contacts));
    i.(secretName := EffectiveName(name, i), acme := Some(s'))
  }

  /** `secret` is the cached issuer Secret's key, None if the cache has no such Secret. */
  function Decide(name: string, cm: ConfigMap, secret: Option<string>, a: Answers): (act: Action)
  {
    if cm.deleting then Ignore
    else if !cm.text.IssuerText? then Fail
    else if cm.text.issuer.kind != "ACME" then Ignore
    else if cm.text.issuer.acme.None? || a.lookupFails then Fail
    else
      var i := cm.text.issuer;
      var s := i.acme.value;
      if secret.None? then Enroll(s.directory, EffectiveName(name, i))
      else if !a.keyDecodes then Fail
      else if Array(Digest(s.contacts)) == Slice(s.hash) then UpdateRegistration
      else if s.uri == "" && a.account.None? then Fail
      else
        var i' := Refreshed(name, i, if s.uri == "" then a.account else None);
        if cm.text == IssuerText(i', true) then Keep else Store(i')
  }

  /** The comparison meant to push contact changes to the CA is between an array and a slice. */
  lemma ContactsAreNeverPushed(name: string, cm: ConfigMap, secret: Option<string>, a: Answers)
    ensures !Decide(name, cm, secret, a).UpdateRegistration?
  {
  }

  // ---------------------------------------------------------------- one sync

  /** The API server's objects, the informers' copies, the accounts at the CAs as pairs of directory
      and key, and how registrations ended. */
  datatype World = World(
    configMaps: map<string, ConfigMap>,
    configMapCache: map<string, ConfigMap>,
    secrets: map<string, string>,
    secretCache: map<string, string>,
    registered: set<(string, string)>,
    registrations: nat,
    secretsCreated: nat,
    creationsFailed: nat,
    unseen: nat)

  /** What one account sync leaves behind, and its error. */
  datatype Result = Result(world: World, err: bool)

  function Enrolled(w: World, directory: string, secretName: string, a: Answers): (w': World)
  {
    if a.key.None? || a.register.NotRegistered? then w
    else
      var w1 := w.(registered := w.registered + {(directory, a.key.value)}, registrations := w.registrations + 1);
      if a.register.RegisteredUnseen? then w1.(unseen := w.unseen + 1)
      else if a.creation.Dropped? || secretName in w.secrets then w1.(creationsFailed := w.creationsFailed + 1)
      else w1.(secrets := w.secrets[secretName := a.key.value], secretsCreated := w.secretsCreated + 1)
  }

  /** The end of a sync that has read the ConfigMap and looked its Secret up. Even a registration that
      succeeds ends in the NotFound error of the lookup: the inner variables shadow the outer ones, and
      the retry finishes the work. */
  function Conclude(w: World, name: string, cm: ConfigMap, secret: Option<string>, a: Answers): (res: Result)
  {
    match Decide(name, cm, secret, a)
    case Ignore => Result(w, false)
    case Fail => Result(w, true)
    case Enroll(directory, secretName) => Result(Enrolled(w, directory, secretName, a), true)
    case UpdateRegistration => Result(w, true)
    case Keep => Result(w, false)
    case Store(issuer) =>
      if name !in w.configMaps || w.configMaps[name].version != cm.version || a.write.Dropped? then Result(w, true)
      else Result(w.(configMaps := w.configMaps[name := StoredText(cm, issuer)]), !a.write.Acknowledged?)
  }

  function StoredText(cm: ConfigMap, i: Issuer): (cm': ConfigMap)
  {
    ConfigMap(cm.version + 1, false, IssuerText(i, true))
  }

  /** A sync that nothing interrupts. */
  function SyncAccount(w: World, name: string, a: Answers): (res: Result)
  {
    if name !in w.configMapCache then Result(w, false)
    else Conclude(w, name, w.configMapCache[name], CachedSecret(w, name, w.configMapCache[name]), a)
  }

  function CachedSecret(w: World, name: string, cm: ConfigMap): (key: Option<string>)
  {
    if cm.text.IssuerText? && EffectiveName(name, cm.text.issuer) in w.secretCache
    then Some(w.secretCache[EffectiveName(name, cm.text.issuer)])
    else None
  }

  /** An informer catches up with one object. */
  function Copied<V>(from: map<string, V>, to: map<string, V>, name: string): (m: map<string, V>)
  {
    if name in from then to[name := from[name]] else to - {name}
  }

  function SecretCached(w: World, name: string): (w': World)
  {
    w.(secretCache := Copied(w.secrets, w.secretCache, name))
  }

  predicate IsAcme(cm: ConfigMap)
  {
    cm.text.IssuerText? && cm.text.issuer.kind == "ACME" && cm.text.issuer.acme.Some?
  }

  function Directory(cm: ConfigMap): (d: string)
    requires IsAcme(cm)
  {
    cm.text.issuer.acme.value.directory
  }

  /** The text can make the account controller register a key for this Secret at this directory. */
  predicate Enrolls(name: string, cm: ConfigMap, secretName: string, directory: string)
  {
    && IsAcme(cm) && !cm.deleting
    && EffectiveName(name, cm.text.issuer) == secretName && Directory(cm) == directory
  }

  // ---------------------------------------------------------------- one sync, told from its inputs

  /** The ConfigMap is an ACME issuer, its Secret was looked up and found, and the key in it is usable. */
  predicate Keyed(cm: ConfigMap, secret: Option<string>, a: Answers)
  {
    !cm.deleting && IsAcme(cm) && !a.lookupFails && secret.Some? && a.keyDecodes
  }

  /** The text the issuer should have. The Secret's name is filled in; as long as the account's URI is not
      known, the account's data is taken from the CA, and the digest from its contacts. */
  predicate Completed(name: string, i: Issuer, account: Option<Account>, i': Issuer)
    requires i.acme.Some? && (i.acme.value.uri == "" ==> account.Some?)
  {
    && i'.kind == i.kind && i'.acme.Some?
    && i'.secretName == (if i.secretName == "" then name else i.secretName)
    && var s, s' := i.acme.value, i'.acme.value;
       && s'.directory == s.directory
       && (s.uri != "" ==> s' == s)
       && (s.uri == "" ==>
             && s'.uri == account.value.uri && s'.contacts == account.value.contacts
             && s'.ordersURL == account.value.ordersURL && s'.accountStatus == account.value.status
             && s'.hash == Digest(account.value.contacts))
  }

  /** What a sync without a Secret does: it registers a key, and creates the Secret for it unless there is
      one. A Secret is never replaced, and the ConfigMap is left alone. */
  lemma EnrollmentTold(w: World, name: string, cm: ConfigMap, a: Answers)
    requires !cm.deleting && IsAcme(cm) && !a.lookupFails
    ensures var res := Conclude(w, name, cm, None, a); var w' := res.world;
            var s := if cm.text.issuer.secretName == "" then name else cm.text.issuer.secretName;
            var done := a.key.Some? && !a.register.NotRegistered?;
            var created := done && a.register.Registered? && !a.creation.Dropped? && s !in w.secrets;
            && res.err
            && w'.configMaps == w.configMaps
            && w'.registered == (if done then w.registered + {(Directory(cm), a.key.value)} else w.registered)
            && w'.secrets == (if created then w.secrets[s := a.key.value] else w.secrets)
            && w'.registrations == w.registrations + (if done then 1 else 0)
            && w'.secretsCreated == w.secretsCreated + (if created then 1 else 0)
            && w'.unseen == w.unseen + (if done && a.register.RegisteredUnseen? then 1 else 0)
            && w'.creationsFailed ==
               w.creationsFailed + (if done && a.register.Registered? && !created then 1 else 0)
  {
  }

  /** What a sync with a Secret does: it writes the completed text under the version it has read, unless
      that is the text already; nothing else changes. */
  lemma CompletionTold(w: World, name: string, cm: ConfigMap, secret: Option<string>, a: Answers)
    requires Keyed(cm, secret, a) && (cm.text.issuer.acme.value.uri == "" ==> a.account.Some?)
    ensures var res := Conclude(w, name, cm, secret, a);
            exists i' :: && Completed(name, cm.text.issuer, a.account, i')
                         && var same := cm.text == IssuerText(i', true);
                            var taken := name in w.configMaps && w.configMaps[name].version == cm.version;
                            && (res.err <==> !same && !(taken && a.write.Acknowledged?))
                            && res.world ==
                               if !same && taken && !a.write.Dropped?
                               then w.(configMaps :=
                                         w.configMaps[name := ConfigMap(cm.version + 1, false, IssuerText(i', true))])
                               else w
  {
    var i := cm.text.issuer;
    var i' := Refreshed(name, i, if i.acme.value.uri == "" then a.account else None);
    assert Completed(name, i, a.account, i');
  }

  /** In every other case nothing changes, and exactly a ConfigMap that is going away or is not for ACME
      is no error. */
  lemma OtherwiseNothing(w: World, name: string, cm: ConfigMap, secret: Option<string>, a: Answers)
    requires !(!cm.deleting && IsAcme(cm) && !a.lookupFails && secret.None?)
    requires !(Keyed(cm, secret, a) && (cm.text.issuer.acme.value.uri == "" ==> a.account.Some?))
    ensures Conclude(w, name, cm, secret, a).world == w
    ensures Conclude(w, name, cm, secret, a).err <==>
            !cm.deleting && (cm.text.IssuerText? ==> cm.text.issuer.kind == "ACME")
  {
  }

  // ---------------------------------------------------------------- convergence

  /** An issuer with nothing left to do. */
  predicate SettledText(t: Text)
  {
    && t.IssuerText? && t.canonical && t.issuer.kind == "ACME" && t.issuer.secretName != ""
    && t.issuer.acme.Some? && t.issuer.acme.value.uri != ""
  }

  /** Once the Secret exists a settled issuer is a fixpoint, whatever contacts it lists. */
  lemma SettledIsFixpoint(w: World, name: string, a: Answers)
    requires name in w.configMapCache && SettledText(w.configMapCache[name].text) && !w.configMapCache[name].deleting
    requires w.configMapCache[name].text.issuer.secretName in w.secretCache && !a.lookupFails && a.keyDecodes
    ensures SyncAccount(w, name, a) == Result(w, false)
  {
  }

  /** Nothing stands in the way of a sync that has its Secret: an account is asked for only if the
      issuer does not know its URI yet. */
  predicate Undisturbed(cm: ConfigMap, a: Answers)
    requires IsAcme(cm)
  {
    && !a.lookupFails && a.keyDecodes && a.write.Acknowledged?
    && (cm.text.issuer.acme.value.uri == "" ==> a.account.Some? && a.account.value.uri != "")
  }

  /** From a well-formed issuer whose Secret exists, one undisturbed sync reaches the fixpoint. */
  lemma OneSyncSettles(w: World, name: string, a: Answers)
    requires name in w.configMaps && name in w.configMapCache && w.configMapCache[name] == w.configMaps[name]
    requires var cm := w.configMaps[name];
             && !cm.deleting && IsAcme(cm) && EffectiveName(name, cm.text.issuer) in w.secretCache
             && Undisturbed(cm, a)
    requires name != ""
    ensures var res := SyncAccount(w, name, a);
            && !res.err && name in res.world.configMaps && SettledText(res.world.configMaps[name].text)
            && Completed(name, w.configMaps[name].text.issuer, a.account, res.world.configMaps[name].text.issuer)
            && res.world == w.(configMaps := w.configMaps[name := res.world.configMaps[name]])
  {
  }

  /** A registering sync reports an error and leaves the ConfigMap alone even when everything worked.
      If the key was registered and its Secret created, then as soon as the Secret is cached the retry
      succeeds and settles the issuer, whose Secret then holds a key registered at its directory. */
  lemma RegistrationFinishesOnRetry(w: World, name: string, s: string, d: string, a: Answers, retry: Answers)
    requires name in w.configMaps && name in w.configMapCache && w.configMapCache[name] == w.configMaps[name]
    requires name != "" && Enrolls(name, w.configMaps[name], s, d) && s !in w.secretCache && !a.lookupFails
    ensures var res := SyncAccount(w, name, a); res.err && res.world.configMaps == w.configMaps
    ensures a.key.Some? && a.register.Registered? && !a.creation.Dropped? && s !in w.secrets
            && Undisturbed(w.configMaps[name], retry) ==>
              var w' := SecretCached(SyncAccount(w, name, a).world, s); var res := SyncAccount(w', name, retry);
              && !res.err && name in res.world.configMaps && SettledText(res.world.configMaps[name].text)
              && s in res.world.secrets && (d, res.world.secrets[s]) in res.world.registered
  {
    if a.key.Some? && a.register.Registered? && !a.creation.Dropped? && s !in w.secrets
       && Undisturbed(w.configMaps[name], retry) {
      var w' := SecretCached(SyncAccount(w, name, a).world, s);
      assert w'.secrets[s] == a.key.value;
      OneSyncSettles(w', name, retry);
    }
  }
}
