/** When a Route needs a new certificate, and when to look again if it does not. */
module Renewal {
  import opened Api
  import opened GoMath

  datatype Verdict = BadCertificate | Renew(reason: string) | Healthy(requeueAfter: int)

  predicate IsValid(c: Certificate, t: int)
  {
    c.notBefore <= t <= c.notAfter
  }

  function Sub(t: int, u: int): (d: int)
  {
    Saturate(t - u)
  }

  /** proactiveRenewalThreshold: a per-certificate point in the proactive window. */
  function Threshold(seed: nat, lifetime: int): (r: int)
  {
    var window := Quo(lifetime, 2) - Quo(lifetime, 3);
    if window <= 0 then Quo(lifetime, 3) else Quo(lifetime, 3) + seed % window
  }

  function NeedsCertKey(t: int, tls: Option<Tls>, host: string): (v: Verdict)
  {
    if tls.None? || tls.value.key == "" || tls.value.certificate.Empty? then Renew("Route is missing CertKey")
    else if tls.value.certificate.Undecodable? then BadCertificate
    else
      var c := tls.value.certificate.leaf;
      if host !in c.hosts then Renew("Existing certificate doesn't match hostname") else Evaluate(t, c)
  }

  function Evaluate(t: int, c: Certificate): (v: Verdict)
  {
    if !IsValid(c, t) then Renew("Already expired")
    else
      var remains := Sub(c.notAfter, t);
      var lifetime := Sub(c.notAfter, c.notBefore);
      if remains <= Quo(lifetime, 3) then Renew("In renewal period")
      else
        var threshold := Threshold(c.seed, lifetime);
        if remains <= threshold then Renew("Proactive renewal") else Healthy(remains - threshold)
  }

  /** The instant at which the certificate stops being healthy. */
  function RenewalInstant(c: Certificate): (t: int)
  {
    c.notAfter - Threshold(c.seed, Sub(c.notAfter, c.notBefore))
  }

  /** The documented window [L/3, L/2), and the lifetimes for which it is empty. */
  lemma ThresholdWindow(seed: nat, lifetime: int)
    ensures Quo(lifetime, 3) <= Threshold(seed, lifetime)
    ensures lifetime <= 1 || lifetime == 3 ==> Threshold(seed, lifetime) == Quo(lifetime, 3)
    ensures !(lifetime <= 1 || lifetime == 3) ==> Threshold(seed, lifetime) < Quo(lifetime, 2)
  {
  }

  /** The seed decides where in the window: counted from L/3, the threshold is the seed modulo the window. */
  lemma ThresholdFollowsSeed(seed: nat, other: nat, lifetime: int)
    requires Quo(lifetime, 3) < Quo(lifetime, 2)
    ensures var window := Quo(lifetime, 2) - Quo(lifetime, 3);
            && (Threshold(seed, lifetime) - Quo(lifetime, 3)) % window == seed % window
            && (Threshold(seed, lifetime) == Threshold(other, lifetime) <==> seed % window == other % window)
  {
    var window := Quo(lifetime, 2) - Quo(lifetime, 3);
    ReducedAlready(seed, window);
  }

  lemma ReducedAlready(seed: nat, window: int)
    requires window > 0
    ensures (seed % window) % window == seed % window
  {
  }

  /** No part of the window is left out: every point of it is the threshold of some seed. */
  lemma ThresholdCoversWindow(lifetime: int, p: int) returns (seed: nat)
    requires Quo(lifetime, 3) <= p < Quo(lifetime, 2)
    ensures Threshold(seed, lifetime) == p && seed <= Abs(lifetime)
  {
    seed := p - Quo(lifetime, 3);
  }

  /** So certificates issued together are renewed together exactly when their seeds agree modulo the window. */
  lemma BatchIsSpread(c: Certificate, d: Certificate)
    requires c.notBefore == d.notBefore && c.notAfter == d.notAfter
    requires var lifetime := Sub(c.notAfter, c.notBefore); Quo(lifetime, 3) < Quo(lifetime, 2)
    ensures var lifetime := Sub(c.notAfter, c.notBefore);
            RenewalInstant(c) == RenewalInstant(d) <==>
            c.seed % (Quo(lifetime, 2) - Quo(lifetime, 3)) == d.seed % (Quo(lifetime, 2) - Quo(lifetime, 3))
  {
    ThresholdFollowsSeed(c.seed, d.seed, Sub(c.notAfter, c.notBefore));
  }

  /** Despite the three clauses and the saturation, health is exactly "before the renewal instant". */
  lemma HealthyIffBeforeInstant(c: Certificate, t: int)
    requires c.notBefore <= t
    ensures Evaluate(t, c).Healthy? <==> t < RenewalInstant(c)
    ensures Evaluate(t, c).Healthy? || Evaluate(t, c).Renew?
  {
  }

  /** The reason given: outside its validity, in its last third, or past its own point before that. */
  lemma ReasonTold(c: Certificate, t: int)
    ensures Evaluate(t, c) == Renew("Already expired") <==> t < c.notBefore || c.notAfter < t
    ensures Evaluate(t, c) == Renew("In renewal period") <==>
            c.notBefore <= t <= c.notAfter && c.notAfter - t <= Quo(Sub(c.notAfter, c.notBefore), 3)
    ensures Evaluate(t, c) == Renew("Proactive renewal") <==>
            && c.notBefore <= t <= c.notAfter && RenewalInstant(c) <= t
            && c.notAfter - t > Quo(Sub(c.notAfter, c.notBefore), 3)
  {
  }

  /** Which Routes are left alone, and which are given up on, told from the Route alone. */
  lemma RouteIsHealthyIff(t: int, tls: Option<Tls>, host: string)
    ensures NeedsCertKey(t, tls, host).Healthy? <==>
            && tls.Some? && tls.value.key != "" && tls.value.certificate.Encoded?
            && var c := tls.value.certificate.leaf;
               host in c.hosts && c.notBefore <= t < RenewalInstant(c)
    ensures NeedsCertKey(t, tls, host).BadCertificate? <==>
            tls.Some? && tls.value.key != "" && tls.value.certificate.Undecodable?
  {
    if tls.Some? && tls.value.certificate.Encoded? && tls.value.certificate.leaf.notBefore <= t {
      HealthyIffBeforeInstant(tls.value.certificate.leaf, t);
    }
  }

  /** Never late: the requeue fires no later than the instant, and exactly on it unless `remains` saturates. */
  lemma NeverLate(c: Certificate, t: int)
    requires Evaluate(t, c).Healthy?
    ensures var d := Evaluate(t, c).requeueAfter;
            && 0 < d <= MAX_INT64
            && t + d <= RenewalInstant(c)
            && (t + d == RenewalInstant(c) <==> c.notAfter - t <= MAX_INT64)
  {
  }

  /** Once renewal is needed it stays needed; before that the delay shrinks exactly with time. */
  lemma RenewalMonotone(c: Certificate, t: int, u: int)
    requires c.notBefore <= t <= u
    ensures Evaluate(t, c).Renew? ==> Evaluate(u, c).Renew?
    ensures Evaluate(u, c).Healthy? && c.notAfter - t <= MAX_INT64
            ==> Evaluate(t, c) == Healthy(Evaluate(u, c).requeueAfter + (u - t))
  {
  }

  /** Before NotBefore the verdict is a renewal, so monotonicity really needs t >= NotBefore. */
  lemma EarlyEvaluationIsNotMonotone()
    ensures exists c: Certificate, t: int, u: int ::
              t < u && Evaluate(t, c).Renew? && Evaluate(u, c).Healthy?
  {
    var c := Certificate(0, 900, 0, {});
    assert Evaluate(-1, c).Renew?;
    assert Evaluate(0, c).Healthy?;
  }

  /** The instants at which a certificate is looked at when every requeue fires on time. */
  function Wakeups(c: Certificate, t: int): (ts: seq<int>)
    requires c.notBefore <= t
    decreases if t < RenewalInstant(c) then RenewalInstant(c) - t else 0
  {
    if Evaluate(t, c).Healthy? then
      HealthyIffBeforeInstant(c, t);
      NeverLate(c, t);
      [t] + Wakeups(c, t + Evaluate(t, c).requeueAfter)
    else [t]
  }

  /** The chain of requeues ends exactly on the renewal instant, is healthy until then, and is
      short: every saturated hop covers more than half of the largest duration. */
  lemma {:induction false} WakeupsReachInstant(c: Certificate, t: int)
    requires c.notBefore <= t < RenewalInstant(c)
    ensures var ts := Wakeups(c, t);
            && |ts| >= 2
            && ts[|ts| - 1] == RenewalInstant(c)
            && Evaluate(ts[|ts| - 1], c).Renew?
            && (forall i :: 0 <= i < |ts| - 1 ==> Evaluate(ts[i], c).Healthy? && ts[i] < ts[i + 1])
            && (|ts| - 2) * (MAX_INT64 / 2) <= RenewalInstant(c) - t
    decreases RenewalInstant(c) - t
  {
    HealthyIffBeforeInstant(c, t);
    NeverLate(c, t);
    var next := t + Evaluate(t, c).requeueAfter;
    HealthyIffBeforeInstant(c, next);
    if next < RenewalInstant(c) {
      WakeupsReachInstant(c, next);
      SaturatedHop(c, t);
    } else {
      assert Wakeups(c, next) == [next];
    }
  }

  lemma SaturatedHop(c: Certificate, t: int)
    requires Evaluate(t, c).Healthy? && c.notAfter - t > MAX_INT64
    ensures Evaluate(t, c).requeueAfter >= MAX_INT64 / 2
  {
  }
}
