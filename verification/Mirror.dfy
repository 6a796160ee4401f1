/** Mirroring a Route's key and certificate into a Secret: one sync. */
module Mirror {
  import opened Api

  const TLS_CERT := "tls.crt"
  const TLS_KEY := "tls.key"
  const TLS_TYPE := "kubernetes.io/tls"

  datatype Blob = Text(text: string) | Certificates(pem: Pem)

  /** `owner` is the UID of the controlling Route, if any; `version` the resource version. */
  datatype Secret = Secret(version: nat, kind: string, owner: Option<string>, data: map<string, Blob>)

  datatype Store = Store(secrets: map<string, Secret>, version: nat)

  function Find(secrets: map<string, Secret>, name: string): (s: Option<Secret>)
  {
    if name in secrets then Some(secrets[name]) else None
  }

  /** The Secret with the Route's key, certificate, type and owner put in; other data is kept. */
  function Filled(s: Secret, r: Route): (s': Secret)
    requires r.tls.Some?
  {
    s.(kind := TLS_TYPE, owner := Some(r.uid),
       data := s.data[TLS_CERT := Certificates(r.tls.value.certificate)][TLS_KEY := Text(r.tls.value.key)])
  }

  predicate Mirrors(s: Secret, r: Route)
  {
    && r.tls.Some?
    && s.kind == TLS_TYPE && s.owner == Some(r.uid)
    && TLS_CERT in s.data && s.data[TLS_CERT] == Certificates(r.tls.value.certificate)
    && TLS_KEY in s.data && s.data[TLS_KEY] == Text(r.tls.value.key)
  }

  lemma FilledMirrors(s: Secret, r: Route)
    requires r.tls.Some?
    ensures Mirrors(Filled(s, r), r)
    ensures Mirrors(s, r) <==> Filled(s, r) == s
    ensures forall k :: k in s.data && k != TLS_CERT && k != TLS_KEY ==>
                          k in Filled(s, r).data && Filled(s, r).data[k] == s.data[k]
  {
  }

  predicate Resolves(s: Secret, known: set<string>)
  {
    s.owner.Some? && s.owner.value in known
  }

  /** What a write leaves in the store, and whether the caller sees an error. */
  datatype Result = Result(store: Store, err: bool)

  function Put(st: Store, name: string, s: Secret, o: WriteOutcome): (res: Result)
  {
    if o.Dropped? then Result(st, true)
    else Result(Store(st.secrets[name := s.(version := st.version + 1)], st.version + 1), !o.Acknowledged?)
  }

  /**
   One syncRouteToSecret, given the cached Route and the cached Secret. The cached Secret is the one
   under the Route's own name: that is the key the code looks up, whatever the annotation says.
   `known` holds the UIDs of the cached Routes; an owner among them, even another Route, is accepted.
   */
  function SyncResult(r: Route, known: set<string>, cached: Option<Secret>, st: Store, o: WriteOutcome): (res: Result)
  {
    if r.deleting || r.tls.None? || SyncSecretName(r).None? then Result(st, false)
    else if cached.Some? then
      if !Resolves(cached.value, known) then Result(st, true)
      else
        var s := Filled(cached.value, r);
        if s == cached.value then Result(st, false)
        else if r.name !in st.secrets || st.secrets[r.name].version != s.version then Result(st, true)
        else Put(st, r.name, s, o)
    else
      var name := SyncSecretName(r).value;
      if name in st.secrets then Result(st, true)
      else Put(st, name, Filled(Secret(0, "", None, map[]), r), o)
  }

  class SecretApi {
    var store: Store

    constructor (st: Store)
      ensures store == st
    {
      store := st;
    }

    method SyncRouteToSecret(r: Route, known: set<string>, cached: Option<Secret>, o: WriteOutcome) returns (err: bool)
      modifies this
      ensures Result(store, err) == SyncResult(r, known, cached, old(store), o)
    {
      if r.deleting {
        return false;
      }
      if r.tls.None? {
        return false;
      }
      var name := SyncSecretName(r);
      if name.None? {
        return false;
      }
      var secret := Secret(0, "", None, map[]);
      if cached.Some? {
        if !Resolves(cached.value, known) {
          return true;
        }
        secret := cached.value;
      }
      secret := secret.(kind := TLS_TYPE);
      secret := secret.(owner := Some(r.uid));
      secret := secret.(data := secret.data[TLS_CERT := Certificates(r.tls.value.certificate)]);
      secret := secret.(data := secret.data[TLS_KEY := Text(r.tls.value.key)]);
      if cached.None? {
        if name.value in store.secrets || o.Dropped? {
          return true;
        }
        secret := secret.(version := store.version + 1);
        store := Store(store.secrets[name.value := secret], store.version + 1);
        return o.Unacknowledged?;
      }
      if secret == cached.value {
        return false;
      }
      if r.name !in store.secrets || store.secrets[r.name].version != secret.version || o.Dropped? {
        return true;
      }
      secret := secret.(version := store.version + 1);
      store := Store(store.secrets[r.name := secret], store.version + 1);
      return o.Unacknowledged?;
    }
  }

  // ---------------------------------------------------------------- one sync, told from its inputs

  /** The Route is to be mirrored: it stays, it has TLS, and it names a Secret. */
  predicate Mirrored(r: Route)
  {
    !r.deleting && r.tls.Some? && SECRET_NAME_ANNOTATION in r.annotations
  }

  /** The Secret that is written: the one found under the Route's own name, or else a new one under the
      annotated name, if that is given. */
  function Target(r: Route, cached: Option<Secret>): (name: string)
    requires Mirrored(r)
  {
    var annotated := r.annotations[SECRET_NAME_ANNOTATION];
    if cached.Some? || annotated == "" then r.name else annotated
  }

  /** Whether a sync has reason to write, and whether the API server would take it: a Secret that was
      found must belong to a known Route, differ, and still be at the version that was read. */
  predicate Writes(r: Route, known: set<string>, cached: Option<Secret>, st: Store)
    requires Mirrored(r)
  {
    if cached.None? then Target(r, cached) !in st.secrets
    else
      && cached.value.owner.Some? && cached.value.owner.value in known
      && !Mirrors(cached.value, r)
      && r.name in st.secrets && st.secrets[r.name].version == cached.value.version
  }

  /** The sync wants nothing: the Secret that was found mirrors the Route and belongs to a known one. */
  predicate Content(r: Route, known: set<string>, cached: Option<Secret>)
  {
    && cached.Some? && Mirrors(cached.value, r)
    && cached.value.owner.Some? && cached.value.owner.value in known
  }

  /** Exactly when a sync writes, what, and exactly when it reports an error. Nothing but the one Secret
      is ever touched. */
  lemma SyncToldFromInputs(r: Route, known: set<string>, cached: Option<Secret>, st: Store, o: WriteOutcome)
    ensures var res := SyncResult(r, known, cached, st, o);
            if !Mirrored(r) then res == Result(st, false)
            else
              var name := Target(r, cached);
              && (res.store != st <==> Writes(r, known, cached, st) && !o.Dropped?)
              && (res.err <==> !(Writes(r, known, cached, st) && o.Acknowledged?) && !Content(r, known, cached))
              && (res.store != st ==>
                    && name in res.store.secrets && Mirrors(res.store.secrets[name], r)
                    && res.store.secrets[name].version == res.store.version == st.version + 1
                    && res.store.secrets - {name} == st.secrets - {name}
                    && (forall k :: cached.Some? && k in cached.value.data && k != TLS_CERT && k != TLS_KEY ==>
                                      k in res.store.secrets[name].data
                                      && res.store.secrets[name].data[k] == cached.value.data[k]))
  {
    if Mirrored(r) && cached.Some? {
      FilledMirrors(cached.value, r);
    }
  }

  // ---------------------------------------------------------------- the name gap

  /** With an accurate cache and a working API server, the annotated Secret ends up mirroring the
      Route exactly when its name is the Route's own and no stranger owns it, or neither Secret existed,
      or it already did. */
  lemma MirrorsAnnotatedNameIff(r: Route, known: set<string>, st: Store)
    requires !r.deleting && r.tls.Some? && SyncSecretName(r).Some?
    ensures var name := SyncSecretName(r).value;
            var after := SyncResult(r, known, Find(st.secrets, r.name), st, Acknowledged).store.secrets;
            (name in after && Mirrors(after[name], r)) <==>
              || (name == r.name && (r.name in st.secrets ==> Resolves(st.secrets[r.name], known)))
              || (name !in st.secrets && r.name !in st.secrets)
              || (name in st.secrets && Mirrors(st.secrets[name], r))
  {
  }

  /** A sync of a Route, with what the caches held and what became of its write. */
  datatype Sync = Sync(route: Route, known: set<string>, cached: Option<Secret>, outcome: WriteOutcome)

  function SyncAll(st: Store, syncs: seq<Sync>): (st': Store)
    decreases |syncs|
  {
    if syncs == [] then st
    else
      var x := syncs[0];
      SyncAll(SyncResult(x.route, x.known, x.cached, st, x.outcome).store, syncs[1..])
  }

  /** A Secret annotated with another name is created once and then never follows the Route: no later
      sync touches it, whatever the Route has become, whatever the caches hold and however writes end. */
  lemma {:induction false} OtherNameNeverFollows(name: string, st: Store, syncs: seq<Sync>)
    requires name in st.secrets
    requires forall i :: 0 <= i < |syncs| ==>
                           SyncSecretName(syncs[i].route) == Some(name) && syncs[i].route.name != name
    ensures name in SyncAll(st, syncs).secrets && SyncAll(st, syncs).secrets[name] == st.secrets[name]
    decreases |syncs|
  {
    if syncs != [] {
      var x := syncs[0];
      assert forall i :: 0 <= i < |syncs| - 1 ==> syncs[1..][i] == syncs[i + 1];
      OtherNameNeverFollows(name, SyncResult(x.route, x.known, x.cached, st, x.outcome).store, syncs[1..]);
    }
  }

  /** What such a sync does instead: it fails and writes nothing, unless there is a Secret under the
      Route's own name owned by some cached Route; that one is overwritten with the Route's key and
      certificate, and the sync succeeds. */
  lemma OtherNameOverwritesOwn(r: Route, known: set<string>, st: Store, name: string, o: WriteOutcome)
    requires !r.deleting && r.tls.Some? && SyncSecretName(r) == Some(name) && r.name != name && name in st.secrets
    ensures var res := SyncResult(r, known, Find(st.secrets, r.name), st, o);
            if r.name in st.secrets && Resolves(st.secrets[r.name], known) then
              && (o.Acknowledged? ==> !res.err)
              && (!o.Dropped? ==> r.name in res.store.secrets && Mirrors(res.store.secrets[r.name], r))
              && res.store.secrets - {r.name} == st.secrets - {r.name}
            else
              res == Result(st, true)
  {
  }
}
