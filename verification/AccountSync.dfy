/** The account controller in its own imperative form, proved to follow Accounts. */
module AccountSync {
  import opened Api
  import opened Accounts

  class AccountController {
    var configMaps: map<string, ConfigMap>
    var configMapCache: map<string, ConfigMap>
    var secrets: map<string, string>
    var secretCache: map<string, string>
    var registered: set<(string, string)>
    var registrations: nat
    var secretsCreated: nat
    var creationsFailed: nat
    var unseen: nat

    constructor (configMaps: map<string, ConfigMap>)
      ensures Snapshot() == World(configMaps, map[], map[], map[], {}, 0, 0, 0, 0)
    {
      this.configMaps, configMapCache, secrets, secretCache := configMaps, map[], map[], map[];
      registered := {};
      registrations, secretsCreated, creationsFailed, unseen := 0, 0, 0, 0;
    }

    ghost function Snapshot(): (w: World)
      reads this
    {
      World(configMaps, configMapCache, secrets, secretCache, registered,
            registrations, secretsCreated, creationsFailed, unseen)
    }

    /** Generate a key, register it, and create the Secret that holds it. */
    method Register(directory: string, secretName: string, a: Answers)
      modifies this`registered, this`registrations, this`unseen, this`creationsFailed, this`secrets, this`secretsCreated
      ensures Snapshot() == Enrolled(old(Snapshot()), directory, secretName, a)
    {
      if a.key.None? || a.register.NotRegistered? {
        return;
      }
      registered := registered + {(directory, a.key.value)};
      registrations := registrations + 1;
      if a.register.RegisteredUnseen? {
        unseen := unseen + 1;
        return;
      }
      if a.creation.Dropped? || secretName in secrets {
        creationsFailed := creationsFailed + 1;
        return;
      }
      secrets := secrets[secretName := a.key.value];
      secretsCreated := secretsCreated + 1;
    }

    method Sync(name: string, a: Answers) returns (err: bool)
      modifies this
      ensures Result(Snapshot(), err) == SyncAccount(old(Snapshot()), name, a)
    {
      if name !in configMapCache {
        return false;
      }
      var cm := configMapCache[name];
      if cm.deleting {
        return false;
      }
      if !cm.text.IssuerText? {
        return true;
      }
      var issuer := cm.text.issuer;
      if issuer.kind != "ACME" {
        return false;
      }
      if issuer.acme.None? {
        return true;
      }
      if issuer.secretName == "" {
        issuer := issuer.(secretName := name);
      }
      if a.lookupFails {
        return true;
      }
      if issuer.secretName !in secretCache {
        Register(issuer.acme.value.directory, issuer.secretName, a);
        return true;
      }
      if !a.keyDecodes {
        return true;
      }
      var spec := issuer.acme.value;
      if Array(Digest(spec.contacts)) == Slice(spec.hash) {
        return true;
      }
      if spec.uri == "" {
        if a.account.None? {
          return true;
        }
        var account := a.account.value;
        spec := spec.(uri := account.uri, contacts := account.contacts);
        spec := spec.(ordersURL := account.ordersURL, accountStatus := account.status);
        spec := spec.(hash := Digest(spec.contacts));
      }
      issuer := issuer.(acme := Some(spec));
      if cm.text == IssuerText(issuer, true) {
        return false;
      }
      if name !in configMaps || configMaps[name].version != cm.version || a.write.Dropped? {
        return true;
      }
      configMaps := configMaps[name := ConfigMap(cm.version + 1, false, IssuerText(issuer, true))];
      return a.write.Unacknowledged?;
    }

    /** The Secret deletion handler: requeue every cached ACME issuer that names the Secret outright. */
    method DeletedSecret(secretName: string, names: seq<string>) returns (queue: seq<string>)
      requires forall i :: 0 <= i < |names| ==> names[i] in configMapCache
      ensures forall n :: n in queue <==>
                          && n in names && configMapCache[n].text.IssuerText?
                          && configMapCache[n].text.issuer.kind == "ACME"
                          && configMapCache[n].text.issuer.secretName == secretName
    {
      queue := [];
      for i := 0 to |names|
        invariant forall n :: n in queue <==> n in names[..i] && Names(configMapCache[n].text, secretName)
      {
        assert names[..i + 1] == names[..i] + [names[i]];
        var text := configMapCache[names[i]].text;
        if !text.IssuerText? {
          continue;
        }
        if text.issuer.kind == "ACME" && text.issuer.secretName == secretName {
          queue := queue + [names[i]];
        }
      }
      assert names[..|names|] == names;
    }
  }

  predicate Names(t: Text, secretName: string)
  {
    t.IssuerText? && t.issuer.kind == "ACME" && t.issuer.secretName == secretName
  }
}
