/**
 Storing a freshly issued certificate while others write the same Route: the conflict-retry loop
 against an API server with optimistic concurrency.
 */
module Issuance {
  import opened Api

  /** retry.DefaultRetry makes five attempts. */
  const ATTEMPTS := 5

  /** The Route at the API server; every accepted write raises the version. */
  datatype Versioned = Versioned(version: nat, route: Route)

  /** What surrounds one attempt: the foreign writes before its Get and between its Get and its
      Update, whether the Get fails, and what becomes of the Update request: lost on the way, carried
      out and answered, or carried out with the answer lost. */
  datatype Attempt = Attempt(before: seq<Route>, getFails: bool, between: seq<Route>, update: WriteOutcome)

  type Attempts = xs: seq<Attempt> | |xs| == ATTEMPTS witness seq(ATTEMPTS, _ => Attempt([], true, [], Dropped))

  /** What the loop wants to store. */
  datatype NewCertificate = NewCertificate(key: string, certificate: Pem, status: Status)

  /** The Update that stores a new certificate together with its status. */
  function Certified(r: Route, issue: NewCertificate): (r': Route)
  {
    var tls := if r.tls.Some? then r.tls.value else Tls("", Empty, "edge", "Redirect", "");
    r.(status := Yaml(issue.status.(observedGeneration := r.generation)),
       tls := Some(tls.(key := issue.key, certificate := issue.certificate)))
  }

  function Foreign(v: Versioned, writes: seq<Route>): (v': Versioned)
    ensures v'.version == v.version + |writes|
    ensures v'.route == if writes == [] then v.route else writes[|writes| - 1]
    decreases |writes|
  {
    if writes == [] then v else Foreign(Versioned(v.version + 1, writes[0]), writes[1..])
  }

  lemma ForeignAppend(v: Versioned, xs: seq<Route>, ys: seq<Route>)
    ensures Foreign(Foreign(v, xs), ys) == Foreign(v, xs + ys)
  {
  }

  /** How the client sees an attempt end. */
  datatype AttemptEnd = Stored | Conflict | GaveUp

  class RouteStore {
    var stored: Versioned

    constructor (v: Versioned)
      ensures stored == v
    {
      stored := v;
    }

    method OthersWrite(writes: seq<Route>)
      modifies this
      ensures stored == Foreign(old(stored), writes)
    {
      var i := 0;
      while i < |writes|
        invariant 0 <= i <= |writes|
        invariant Foreign(stored, writes[i..]) == Foreign(old(stored), writes)
      {
        assert writes[i..][0] == writes[i] && writes[i..][1..] == writes[i + 1..];
        stored := Versioned(stored.version + 1, writes[i]);
        i := i + 1;
      }
    }

    /** Update: accepted exactly when it carries the current version. */
    method Update(v: Versioned) returns (conflict: bool)
      modifies this
      ensures conflict <==> v.version != old(stored).version
      ensures stored == if conflict then old(stored) else Versioned(v.version + 1, v.route)
    {
      if v.version != stored.version {
        return true;
      }
      stored := Versioned(stored.version + 1, v.route);
      return false;
    }

    /** One attempt: read, change the fields that are ours, write back under the version read. */
    method TryOnce(x: Attempt, issue: NewCertificate) returns (end: AttemptEnd)
      modifies this
      ensures end.Stored? <==> Clean(x)
      ensures end.Conflict? <==> Contended(x)
      ensures var latest := Foreign(old(stored), Met(x));
              stored == if Lands(x) then Versioned(latest.version + 1, Certified(latest.route, issue)) else latest
    {
      OthersWrite(x.before);
      if x.getFails {
        return GaveUp;
      }
      var current := stored;
      OthersWrite(x.between);
      ForeignAppend(old(stored), x.before, x.between);
      if x.update.Dropped? {
        return GaveUp;
      }
      var tls := if current.route.tls.Some? then current.route.tls.value else Tls("", Empty, "edge", "Redirect", "");
      tls := tls.(key := issue.key);
      tls := tls.(certificate := issue.certificate);
      var status := issue.status.(observedGeneration := current.route.generation);
      var conflict := Update(current.(route := current.route.(status := Yaml(status), tls := Some(tls))));
      if x.update.Unacknowledged? {
        return GaveUp;
      }
      return if conflict then Conflict else Stored;
    }

    /** The retry loop of a ready order. */
    method StoreCertificate(attempts: Attempts, issue: NewCertificate) returns (ok: bool)
      modifies this
      ensures ok <==> Succeeds(attempts)
      ensures stored == Landed(old(stored), attempts, issue)
    {
      assert attempts[0..] == attempts;
      for i := 0 to ATTEMPTS
        invariant Landed(stored, attempts[i..], issue) == Landed(old(stored), attempts, issue)
        invariant Succeeds(attempts) <==> Succeeds(attempts[i..])
      {
        NextAttempt(stored, attempts, i);
        var end := TryOnce(attempts[i], issue);
        if !end.Conflict? {
          return end.Stored?;
        }
      }
      return false;
    }
  }

  /** The foreign writes one attempt meets. */
  function Met(x: Attempt): (writes: seq<Route>)
  {
    if x.getFails then x.before else x.before + x.between
  }

  /** An attempt whose Update is applied, one that is also seen to be, and one that meets a conflict
      and is retried. */
  predicate Lands(x: Attempt)
  {
    !x.getFails && x.between == [] && !x.update.Dropped?
  }

  predicate Clean(x: Attempt)
  {
    !x.getFails && x.between == [] && x.update.Acknowledged?
  }

  predicate Contended(x: Attempt)
  {
    !x.getFails && x.between != [] && x.update.Acknowledged?
  }

  /** The loop reports success. */
  predicate Succeeds(attempts: seq<Attempt>)
  {
    attempts != [] && (Clean(attempts[0]) || (Contended(attempts[0]) && Succeeds(attempts[1..])))
  }

  /** The loop leaves the certificate at the server. */
  predicate Stores(attempts: seq<Attempt>)
  {
    attempts != [] && (Lands(attempts[0]) || (Contended(attempts[0]) && Stores(attempts[1..])))
  }

  /** The foreign writes that happen before the loop ends. */
  function Observed(attempts: seq<Attempt>): (writes: seq<Route>)
  {
    if attempts == [] then []
    else if Contended(attempts[0]) then Met(attempts[0]) + Observed(attempts[1..]) else Met(attempts[0])
  }

  /** What the loop leaves behind: the latest foreign version, with the certificate on top if it lands. */
  function Landed(v: Versioned, attempts: seq<Attempt>, issue: NewCertificate): (v': Versioned)
  {
    var latest := Foreign(v, Observed(attempts));
    if Stores(attempts) then Versioned(latest.version + 1, Certified(latest.route, issue)) else latest
  }

  lemma NextAttempt(v: Versioned, attempts: seq<Attempt>, i: nat)
    requires i < |attempts|
    ensures Succeeds(attempts[i..]) <==>
            Clean(attempts[i]) || (Contended(attempts[i]) && Succeeds(attempts[i + 1..]))
    ensures Stores(attempts[i..]) <==>
            Lands(attempts[i]) || (Contended(attempts[i]) && Stores(attempts[i + 1..]))
    ensures Foreign(v, Observed(attempts[i..])) ==
            if Contended(attempts[i]) then Foreign(Foreign(v, Met(attempts[i])), Observed(attempts[i + 1..]))
            else Foreign(v, Met(attempts[i]))
  {
  }

  /** The attempt the loop ends with: all earlier ones only lost races, and it is the last allowed or
      did not lose one. */
  predicate EndsAt(attempts: seq<Attempt>, k: nat)
  {
    && k < |attempts|
    && (forall i :: 0 <= i < k ==> Contended(attempts[i]))
    && (k == |attempts| - 1 || !Contended(attempts[k]))
  }

  lemma {:induction false} SomeAttemptIsTheLast(attempts: seq<Attempt>) returns (k: nat)
    requires attempts != []
    ensures EndsAt(attempts, k)
    decreases |attempts|
  {
    if |attempts| == 1 || !Contended(attempts[0]) {
      k := 0;
    } else {
      var j := SomeAttemptIsTheLast(attempts[1..]);
      k := j + 1;
      forall i | 0 <= i < k
        ensures Contended(attempts[i])
      {
        assert i > 0 ==> attempts[i] == attempts[1..][i - 1];
      }
    }
  }

  /** The last attempt decides: the loop reports success exactly when it was undisturbed and its Update
      answered. It reports an error although the certificate is stored exactly when that attempt was
      undisturbed and the answer to its Update was lost. In all other cases nothing is stored. */
  lemma {:induction false} LastAttemptDecides(attempts: seq<Attempt>, k: nat)
    requires EndsAt(attempts, k)
    ensures Succeeds(attempts) <==> Clean(attempts[k])
    ensures Stores(attempts) <==> Lands(attempts[k])
    ensures Stores(attempts) && !Succeeds(attempts) <==>
            !attempts[k].getFails && attempts[k].between == [] && attempts[k].update.Unacknowledged?
    decreases k
  {
    if k > 0 {
      assert EndsAt(attempts[1..], k - 1) by {
        assert forall i :: 0 <= i < k - 1 ==> attempts[1..][i] == attempts[i + 1];
      }
      LastAttemptDecides(attempts[1..], k - 1);
    } else if Contended(attempts[0]) {
      assert attempts[1..] == [];
    }
  }

  /** The loop succeeds exactly when some attempt is undisturbed and answered and all earlier ones only
      lost races. */
  lemma {:induction false} SuccessIsAnUndisturbedAttempt(attempts: seq<Attempt>)
    ensures Succeeds(attempts) <==>
            exists k :: 0 <= k < |attempts| && Clean(attempts[k]) && forall i :: 0 <= i < k ==> Contended(attempts[i])
  {
    if attempts != [] {
      var last := SomeAttemptIsTheLast(attempts);
      LastAttemptDecides(attempts, last);
      forall k | 0 <= k < |attempts| && Clean(attempts[k]) && forall i :: 0 <= i < k ==> Contended(attempts[i])
        ensures Succeeds(attempts)
      {
        LastAttemptDecides(attempts, k);
      }
    }
  }

  /** The loop makes five attempts: a certificate is stored exactly if one of them reads the Route, meets
      no foreign write before its Update, and its Update arrives, while all before it read the Route and
      were told that somebody else had written. Success is reported if moreover the answer comes back. */
  lemma StoredWithinFiveAttempts(attempts: Attempts)
    ensures Stores(attempts) <==>
            exists k :: && 0 <= k < 5 && LostRaces(attempts, k)
                        && !attempts[k].getFails && attempts[k].between == [] && !attempts[k].update.Dropped?
    ensures Succeeds(attempts) <==>
            exists k :: && 0 <= k < 5 && LostRaces(attempts, k)
                        && !attempts[k].getFails && attempts[k].between == [] && attempts[k].update.Acknowledged?
  {
    var last := SomeAttemptIsTheLast(attempts);
    LastAttemptDecides(attempts, last);
    assert LostRaces(attempts, last);
    forall k | 0 <= k < 5 && LostRaces(attempts, k) && !Contended(attempts[k])
      ensures k == last
    {
    }
  }

  /** The first k attempts read the Route and were refused because of a write in between. */
  predicate LostRaces(attempts: seq<Attempt>, k: nat)
    requires k <= |attempts|
  {
    forall i :: 0 <= i < k ==>
                  !attempts[i].getFails && attempts[i].between != [] && attempts[i].update.Acknowledged?
  }

  /** So an error does not mean that nothing was stored: whenever the first attempt is undisturbed and
      the answer to its Update is lost, the certificate is there and the loop reports an error. */
  lemma ErrorMayHaveStored(v: Versioned, attempts: seq<Attempt>, issue: NewCertificate)
    requires attempts != [] && !attempts[0].getFails && attempts[0].between == []
    requires attempts[0].update.Unacknowledged?
    ensures !Succeeds(attempts)
    ensures var latest := Foreign(v, attempts[0].before);
            Landed(v, attempts, issue) == Versioned(latest.version + 1, Certified(latest.route, issue))
  {
  }

  /** No foreign write of the loop touches the status annotation. */
  predicate StatusKept(attempts: seq<Attempt>, status: StatusText)
  {
    forall i :: 0 <= i < |attempts| ==>
                  && (forall r :: r in attempts[i].before ==> r.status == status)
                  && (forall r :: r in attempts[i].between ==> r.status == status)
  }

  lemma {:induction false} ObservedStatus(attempts: seq<Attempt>, status: StatusText)
    requires StatusKept(attempts, status)
    ensures forall r :: r in Observed(attempts) ==> r.status == status
    decreases |attempts|
  {
    if attempts != [] {
      assert StatusKept(attempts[1..], status);
      ObservedStatus(attempts[1..], status);
    }
  }

  /** What others write before attempt k, in order. */
  function WritesBefore(attempts: seq<Attempt>, k: nat): (writes: seq<Route>)
    requires k <= |attempts|
  {
    if k == 0 then [] else WritesBefore(attempts, k - 1) + (attempts[k - 1].before + attempts[k - 1].between)
  }

  lemma {:induction false} WritesBeforeTail(attempts: seq<Attempt>, k: nat)
    requires 0 < k <= |attempts|
    ensures WritesBefore(attempts, k) == attempts[0].before + attempts[0].between + WritesBefore(attempts[1..], k - 1)
    decreases k
  {
    if k > 1 {
      WritesBeforeTail(attempts, k - 1);
      assert attempts[1..][k - 2] == attempts[k - 1];
    }
  }

  /** The loop meets every foreign write up to the attempt it ends with, and those around that one. */
  lemma {:induction false} ObservedIsAll(attempts: seq<Attempt>, k: nat)
    requires EndsAt(attempts, k)
    ensures Observed(attempts) ==
            WritesBefore(attempts, k) + attempts[k].before + if attempts[k].getFails then [] else attempts[k].between
    decreases k
  {
    if k == 0 {
      assert Contended(attempts[0]) ==> attempts[1..] == [];
    } else {
      assert EndsAt(attempts[1..], k - 1) by {
        assert forall i :: 0 <= i < k - 1 ==> attempts[1..][i] == attempts[i + 1];
      }
      assert Contended(attempts[0]);
      ObservedIsAll(attempts[1..], k - 1);
      WritesBeforeTail(attempts, k);
    }
  }

  /** No foreign write is lost: what the loop leaves is the last of them, or the Route it started from if
      there is none, with the certificate on top exactly if its last attempt read the Route, was not
      disturbed and its Update arrived. */
  lemma NoLostUpdate(v: Versioned, attempts: seq<Attempt>, issue: NewCertificate, k: nat)
    requires EndsAt(attempts, k)
    ensures var last := attempts[k];
            var writes := WritesBefore(attempts, k) + last.before + if last.getFails then [] else last.between;
            var latest := if writes == [] then v.route else writes[|writes| - 1];
            Landed(v, attempts, issue).route ==
            if !last.getFails && last.between == [] && !last.update.Dropped? then Certified(latest, issue) else latest
  {
    LastAttemptDecides(attempts, k);
    ObservedIsAll(attempts, k);
  }

  /** What is stored is the latest foreign version with nothing changed but the key,
      the certificate and the status; the TLS defaults appear only if there was no TLS. */
  lemma CertificateWriteIsMinimal(r: Route, issue: NewCertificate)
    requires issue.status.orderStatus.Valid? && issue.status.failures == 0
    ensures var r' := Certified(r, issue);
            && r'.(status := r.status, tls := r.tls) == r
            && r'.tls.Some? && r'.tls.value.key == issue.key && r'.tls.value.certificate == issue.certificate
            && (r.tls.Some? ==>
                  r'.tls.value.(key := r.tls.value.key, certificate := r.tls.value.certificate) == r.tls.value)
            && (r.tls.None? ==> r'.tls.value.termination == "edge" && r'.tls.value.insecurePolicy == "Redirect")
            && Decode(r'.status).Some?
            && Decode(r'.status).value.orderStatus.Valid?
            && Decode(r'.status).value.failures == 0
  {
  }
}
