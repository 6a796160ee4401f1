/** The objects the controllers share: Routes, their status annotation, and the guards on them. */
module Api {
  datatype Option<+T> = None | Some(value: T)

  /** What happened to a write: refused, done, or done although the client saw an error. */
  datatype WriteOutcome = Dropped | Acknowledged | Unacknowledged

  const STATUS_ANNOTATION := "acme.openshift.io/status"
  const SECRET_NAME_ANNOTATION := "acme.openshift.io/secret-name"
  const FILTER_ANNOTATIONS := "http.exposer.acme.openshift.io/filter-out-annotations"
  const FILTER_LABELS := "http.exposer.acme.openshift.io/filter-out-labels"
  const IP_WHITELIST := "haproxy.router.openshift.io/ip_whitelist"
  const TEMPORARY_LABEL := "acme.openshift.io/temporary"
  const EXPOSER_ID := "acme.openshift.io/exposer-id"
  const EXPOSER_KEY := "acme.openshift.io/exposer-key"
  const EXPOSER_UID := "acme.openshift.io/exposer-uid"

  /** ACME order states; `Unset` is the empty string, `Other` any text the library does not name. */
  datatype OrderStatus =
    | Unset
    | Pending
    | Processing
    | Ready
    | Valid
    | Invalid
    | Expired
    | Revoked
    | Deactivated
    | Other(text: string)

  predicate InFlight(s: OrderStatus)
  {
    s.Pending? || s.Processing? || s.Ready?
  }

  predicate Failed(s: OrderStatus)
  {
    s.Invalid? || s.Expired? || s.Revoked? || s.Deactivated?
  }

  predicate Terminal(s: OrderStatus)
  {
    s.Valid? || Failed(s)
  }

  /** The provisioning part of the status annotation. Times are nanoseconds since Go's zero time. */
  datatype Status = Status(
    observedGeneration: int,
    startedAt: int,
    earliestAttemptAt: int,
    failures: int,
    orderURI: string,
    orderStatus: OrderStatus)

  const ZERO_STATUS := Status(0, 0, 0, 0, "", Unset)

  /** The annotation text. setStatus writes YAML and the merge patch writes JSON, so the
      same status has two texts; both decode, since JSON is YAML. */
  datatype StatusText = NoText | Yaml(status: Status) | Json(status: Status) | Garbled(text: string)

  function Decode(t: StatusText): (s: Option<Status>)
  {
    match t
    case NoText => Some(ZERO_STATUS)
    case Yaml(status) => Some(status)
    case Json(status) => Some(status)
    case Garbled(_) => None
  }

  /** `seed` is the first eight bytes of the SHA-256 of the DER encoding. */
  datatype Certificate = Certificate(notBefore: int, notAfter: int, seed: nat, hosts: set<string>)

  datatype Pem = Empty | Undecodable(text: string) | Encoded(leaf: Certificate)

  datatype Tls = Tls(key: string, certificate: Pem, termination: string, insecurePolicy: string, rest: string)

  datatype Condition = Condition(kind: string, status: string)

  datatype Ingress = Ingress(conditions: seq<Condition>)

  /** `annotations` holds every annotation but the status one, which is `status`. */
  datatype Route = Route(
    name: string,
    uid: string,
    generation: int,
    deleting: bool,
    annotations: map<string, string>,
    labels: map<string, string>,
    status: StatusText,
    host: string,
    tls: Option<Tls>,
    ingress: seq<Ingress>)

  predicate IsTemporary(labels: map<string, string>)
  {
    TEMPORARY_LABEL in labels && labels[TEMPORARY_LABEL] == "true"
  }

  predicate IsManaged(annotations: map<string, string>, labels: map<string, string>, key: string)
  {
    key in annotations && annotations[key] == "true" && !IsTemporary(labels)
  }

  /** The name of the Secret a Route is mirrored into, if the Route asks for one. */
  function SyncSecretName(r: Route): (name: Option<string>)
  {
    if SECRET_NAME_ANNOTATION !in r.annotations then None
    else if r.annotations[SECRET_NAME_ANNOTATION] == "" then Some(r.name)
    else Some(r.annotations[SECRET_NAME_ANNOTATION])
  }

  predicate AdmissionCondition(c: Condition)
  {
    c.kind == "Admitted"
  }

  predicate Reports(ingress: seq<Ingress>, c: Condition)
  {
    exists i :: 0 <= i < |ingress| && c in ingress[i].conditions
  }

  /** Some router has reported admission, and no router has refused. */
  ghost predicate Admitted(ingress: seq<Ingress>)
  {
    && (exists c :: Reports(ingress, c) && AdmissionCondition(c))
    && (forall c :: Reports(ingress, c) && AdmissionCondition(c) ==> c.status == "True")
  }

  method IsAdmitted(ingress: seq<Ingress>) returns (admitted: bool)
    ensures admitted <==> Admitted(ingress)
  {
    var admittedSet := false;
    var admittedValue := true;
    for i := 0 to |ingress|
      invariant admittedSet <==> exists c :: Reports(ingress[..i], c) && AdmissionCondition(c)
      invariant admittedValue <==> forall c :: Reports(ingress[..i], c) && AdmissionCondition(c) ==> c.status == "True"
    {
      var conditions := ingress[i].conditions;
      for j := 0 to |conditions|
        invariant admittedSet <==>
                  exists c :: (Reports(ingress[..i], c) || c in conditions[..j]) && AdmissionCondition(c)
        invariant admittedValue <==>
                  forall c :: (Reports(ingress[..i], c) || c in conditions[..j]) && AdmissionCondition(c)
                              ==> c.status == "True"
      {
        assert conditions[..j + 1] == conditions[..j] + [conditions[j]];
        if conditions[j].kind == "Admitted" {
          assert AdmissionCondition(conditions[j]);
          admittedSet := true;
          if conditions[j].status != "True" {
            admittedValue := false;
          }
        }
      }
      assert conditions[..|conditions|] == conditions;
      ReportsNext(ingress, i);
    }
    assert ingress[..|ingress|] == ingress;
    return admittedSet && admittedValue;
  }

  /** The status of the j-th condition of the i-th router, if it speaks of admission. */
  predicate Verdict(ingress: seq<Ingress>, i: nat, j: nat, status: string)
  {
    i < |ingress| && j < |ingress[i].conditions| && ingress[i].conditions[j] == Condition("Admitted", status)
  }

  /** One refusal, by any router, outweighs any number of admissions, and silence is no admission. */
  lemma AdmittedIff(ingress: seq<Ingress>)
    ensures Admitted(ingress) <==>
            && (exists i: nat, j: nat :: Verdict(ingress, i, j, "True"))
            && (forall i: nat, j: nat, status :: Verdict(ingress, i, j, status) ==> status == "True")
  {
    forall i: nat, j: nat, status | Verdict(ingress, i, j, status)
      ensures Reports(ingress, Condition("Admitted", status)) && AdmissionCondition(Condition("Admitted", status))
    {
    }
    forall c | Reports(ingress, c) && AdmissionCondition(c)
      ensures exists i: nat, j: nat :: Verdict(ingress, i, j, c.status)
    {
      var i :| 0 <= i < |ingress| && c in ingress[i].conditions;
      var j :| 0 <= j < |ingress[i].conditions| && ingress[i].conditions[j] == c;
      assert Verdict(ingress, i, j, c.status);
    }
  }

  lemma ReportsNext(ingress: seq<Ingress>, i: nat)
    requires i < |ingress|
    ensures forall c :: Reports(ingress[..i + 1], c) <==> Reports(ingress[..i], c) || c in ingress[i].conditions
  {
  }
}
