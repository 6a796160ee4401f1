/**
 The HTTP round tripper that asks for a certificate profile: it learns the newOrder URL from the ACME
 directory and rewrites and re-signs the newOrder requests that follow. Base64 and JSON are taken as
 one-to-one, so bodies appear decoded; claim values are opaque.
 */
module Profile {
  import opened Api

  const PROFILE := "profile"

  datatype Payload =
    | EmptyPayload
    | NotBase64(text: string)
    | NotClaims(text: string)
    | JsonNull
    | Claims(claims: map<string, string>)

  /** A signature records what it signs (section 5.1 of RFC 7515) and with which key. */
  datatype Signature = Signed(key: string, protected: string, payload: Payload) | OtherSignature(text: string)

  datatype Jws = Jws(protected: string, payload: Payload, signature: Signature)

  datatype Body = NoBody | Unreadable | NotJws(text: string) | JwsBody(jws: Jws)

  datatype Verb = Get | Post | OtherVerb(name: string)

  datatype Request = Request(verb: Verb, url: string, body: Body)

  /** `Directory` is any JSON object; newOrder is empty when the member is missing. */
  datatype Document =
    | NoDocument
    | Broken
    | Directory(newOrder: string, profiles: set<string>)
    | OtherDocument(text: string)

  datatype Response = Response(status: int, document: Document)

  /** One use of the tripper: the request, what the network answers to whatever is forwarded, and
      whether the signer works. */
  datatype Exchange = Exchange(request: Request, reply: Option<Response>, signs: bool)

  /** What the caller gets. `Panicked` is the assignment into the nil map of a null payload. */
  datatype Outcome = Answered(response: Response) | Errored | Panicked

  datatype Rewritten = Unchanged | NewBody(jws: Jws) | Rejected | Crashed

  function Rewrite(j: Jws, profile: string, key: string, signs: bool): (r: Rewritten)
  {
    match j.payload
    case EmptyPayload => Unchanged
    case NotBase64(_) => Rejected
    case NotClaims(_) => Rejected
    case JsonNull => Crashed
    case Claims(claims) =>
      if !signs then Rejected
      else
        var payload := Claims(claims[PROFILE := profile]);
        NewBody(Jws(j.protected, payload, Signed(key, j.protected, payload)))
  }

  /** The request is a newOrder request under the learned URL. */
  predicate Intercepts(orderURL: string, q: Request)
  {
    q.verb.Post? && orderURL != "" && q.url == orderURL && !q.body.NoBody?
  }

  /** What goes out on the network, if anything. */
  function Forwarded(orderURL: string, profile: string, key: string, x: Exchange): (f: Option<Request>)
  {
    var q := x.request;
    if !Intercepts(orderURL, q) then Some(q)
    else if !q.body.JwsBody? then None
    else
      match Rewrite(q.body.jws, profile, key, x.signs)
      case Unchanged => Some(q)
      case NewBody(jws) => Some(q.(body := JwsBody(jws)))
      case Rejected => None
      case Crashed => None
  }

  function LearnedURL(orderURL: string, profile: string, x: Exchange): (url: string)
  {
    if !x.request.verb.Get? || x.reply.None? || x.reply.value.status != 200 then orderURL
    else
      match x.reply.value.document
      case Directory(newOrder, profiles) => if newOrder != "" && profile in profiles then newOrder else orderURL
      case _ => orderURL
  }

  class RoundTripper {
    const profile: string
    const key: string
    var orderURL: string

    constructor (profile: string, key: string)
      ensures this.profile == profile && this.key == key && orderURL == ""
    {
      this.profile, this.key, this.orderURL := profile, key, "";
    }

    method RoundTrip(x: Exchange) returns (sent: Option<Request>, out: Outcome)
      modifies this
      ensures orderURL == LearnedURL(old(orderURL), profile, x)
      ensures sent == Forwarded(old(orderURL), profile, key, x)
      ensures out.Answered? ==> sent.Some? && x.reply == Some(out.response)
      ensures sent.Some? && x.reply.Some? && !x.request.verb.Get? ==> out == Answered(x.reply.value)
      ensures out.Panicked? <==>
              && x.request.verb.Post? && old(orderURL) != "" && x.request.url == old(orderURL)
              && x.request.body.JwsBody? && x.request.body.jws.payload.JsonNull?
      ensures x.request.verb.Get? && x.reply.Some? ==>
                (out.Errored? <==> x.reply.value.status == 200 && x.reply.value.document.Directory?
                                   && x.reply.value.document.newOrder != ""
                                   && profile !in x.reply.value.document.profiles)
    {
      var request := x.request;
      if request.verb.Get? {
        sent := Some(request);
        if x.reply.None? {
          return sent, Errored;
        }
        var response := x.reply.value;
        if response.status != 200 || !response.document.Directory? {
          return sent, Answered(response);
        }
        if response.document.newOrder != "" {
          if response.document.profiles == {} {
            return sent, Errored;
          }
          if profile !in response.document.profiles {
            return sent, Errored;
          }
          orderURL := response.document.newOrder;
        }
        return sent, Answered(response);
      }

      if request.verb.Post? && orderURL != "" && request.url == orderURL && !request.body.NoBody? {
        if !request.body.JwsBody? {
          return None, Errored;
        }
        match Rewrite(request.body.jws, profile, key, x.signs)
        case Unchanged =>
        case NewBody(jws) => request := request.(body := JwsBody(jws));
        case Rejected => return None, Errored;
        case Crashed => return None, Panicked;
      }
      sent := Some(request);
      return sent, if x.reply.Some? then Answered(x.reply.value) else Errored;
    }
  }

  // ---------------------------------------------------------------- whole traces

  /** A GET answered by a directory that offers newOrder at `url` and the profile. */
  predicate Advertises(x: Exchange, profile: string, url: string)
  {
    && x.request.verb.Get?
    && x.reply.Some? && x.reply.value.status == 200
    && x.reply.value.document.Directory?
    && x.reply.value.document.newOrder == url && url != ""
    && profile in x.reply.value.document.profiles
  }

  ghost predicate Learns(x: Exchange, profile: string)
  {
    exists url :: Advertises(x, profile, url)
  }

  /** The URL held after a trace. */
  function URLAfter(profile: string, trace: seq<Exchange>): (url: string)
  {
    if trace == [] then ""
    else LearnedURL(URLAfter(profile, trace[..|trace| - 1]), profile, trace[|trace| - 1])
  }

  /** The URL held is the one of the last directory that advertised the profile, and none if there was none. */
  lemma {:induction false} URLIsLastAdvertised(profile: string, trace: seq<Exchange>)
    ensures var url := URLAfter(profile, trace);
            && (url == "" <==> forall i :: 0 <= i < |trace| ==> !Learns(trace[i], profile))
            && (url != "" ==> exists i :: 0 <= i < |trace| && Advertises(trace[i], profile, url)
                                          && forall j :: i < j < |trace| ==> !Learns(trace[j], profile))
    decreases |trace|
  {
    if trace != [] {
      var init, last := trace[..|trace| - 1], trace[|trace| - 1];
      URLIsLastAdvertised(profile, init);
      var url := URLAfter(profile, trace);
      if Learns(last, profile) {
        var u :| Advertises(last, profile, u);
        assert Advertises(trace[|trace| - 1], profile, url) && url != "";
        assert Learns(trace[|trace| - 1], profile);
      } else {
        assert url != URLAfter(profile, init) ==> Advertises(last, profile, url);
        if url != "" {
          var i :| 0 <= i < |init| && Advertises(init[i], profile, url)
                   && forall j :: i < j < |init| ==> !Learns(init[j], profile);
          assert Advertises(trace[i], profile, url);
          forall j | i < j < |trace|
            ensures !Learns(trace[j], profile)
          {
            assert j < |init| ==> trace[j] == init[j];
          }
          assert Learns(trace[i], profile);
        } else {
          forall i | 0 <= i < |trace|
            ensures !Learns(trace[i], profile)
          {
            assert i < |init| ==> trace[i] == init[i];
          }
        }
      }
    }
  }

  /** The rewritten request asks for the profile and nothing else about it has changed. */
  predicate Asks(q: Request, f: Request, profile: string, key: string)
    requires q.body.JwsBody? && q.body.jws.payload.Claims?
  {
    && f.verb == q.verb && f.url == q.url && f.body.JwsBody?
    && var j, k := q.body.jws, f.body.jws;
       && k.protected == j.protected
       && k.payload.Claims?
       && k.payload.claims.Keys == j.payload.claims.Keys + {PROFILE}
       && k.payload.claims[PROFILE] == profile
       && (forall c :: c in j.payload.claims && c != PROFILE ==> k.payload.claims[c] == j.payload.claims[c])
       && k.signature == Signed(key, k.protected, k.payload)
  }

  predicate HasClaims(q: Request)
  {
    q.body.JwsBody? && q.body.jws.payload.Claims?
  }

  /** The last directory of the trace that offers the profile offers newOrder at `url`. */
  ghost predicate Offered(profile: string, trace: seq<Exchange>, url: string)
  {
    exists k :: 0 <= k < |trace| && Advertises(trace[k], profile, url)
                && forall j :: k < j < |trace| ==> !Learns(trace[j], profile)
  }

  lemma OfferedIsHeld(profile: string, trace: seq<Exchange>, url: string)
    ensures Offered(profile, trace, url) <==> URLAfter(profile, trace) == url && url != ""
  {
    URLIsLastAdvertised(profile, trace);
    var held := URLAfter(profile, trace);
    if Offered(profile, trace, url) {
      var k :| 0 <= k < |trace| && Advertises(trace[k], profile, url)
               && forall j :: k < j < |trace| ==> !Learns(trace[j], profile);
      assert Learns(trace[k], profile);
      var i :| 0 <= i < |trace| && Advertises(trace[i], profile, held)
               && forall j :: i < j < |trace| ==> !Learns(trace[j], profile);
      assert Learns(trace[i], profile);
      assert i == k;
    }
  }

  /** Over any trace, told from the exchanges alone: a POST with claims to the newOrder URL of the last
      directory that offers the profile is forwarded exactly if the signer works, and then with the
      profile in it, correctly signed. A body there that is no JWS with claims is refused, unless it is
      missing or its payload is empty. Every other request is forwarded as it is. */
  lemma EveryOrderAsksForTheProfile(profile: string, key: string, trace: seq<Exchange>, i: nat)
    requires i < |trace|
    ensures var q := trace[i].request;
            var f := Forwarded(URLAfter(profile, trace[..i]), profile, key, trace[i]);
            if q.verb.Post? && Offered(profile, trace[..i], q.url) && HasClaims(q) then
              (f.Some? <==> trace[i].signs) && (f.Some? ==> Asks(q, f.value, profile, key))
            else if q.verb.Post? && Offered(profile, trace[..i], q.url)
                    && !q.body.NoBody? && !(q.body.JwsBody? && q.body.jws.payload.EmptyPayload?) then
              f.None?
            else
              f == Some(q)
  {
    OfferedIsHeld(profile, trace[..i], trace[i].request.url);
  }

  /** Rewriting twice is rewriting once. */
  lemma RewriteIsIdempotent(j: Jws, profile: string, key: string)
    requires j.payload.Claims?
    ensures var once := Rewrite(j, profile, key, true);
            once.NewBody? && Rewrite(once.jws, profile, key, true) == once
  {
    var claims := j.payload.claims[PROFILE := profile];
    assert claims[PROFILE := profile] == claims;
  }
}
