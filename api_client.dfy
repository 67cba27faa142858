/**
 * The backend client: the request cache of `getResourceRecommendations` and
 * its chain of fallback endpoints, the chat endpoint of `sendMessage` with
 * its development fallback, and the two ways a bearer token is attached.
 * HTTP calls are outcomes handed to the operations; the browser's token
 * storage is a parameter.
 */
module ApiClient {
  import opened Wrappers
  import opened Text

  // ---------------------------------------------------------------------
  // The cache key.

  /** The session half of the key: the session id if truthy, else `none`. */
  function SessionPart(sessionId: Option<string>): (part: string)
    ensures Truthy(sessionId) ==> part == sessionId.value
    ensures !Truthy(sessionId) ==> part == "none"
    ensures part != ""
  {
    if Truthy(sessionId) then sessionId.value else "none"
  }

  /** The key one recommendations request is cached under. */
  function CacheKey(patientId: string, sessionId: Option<string>): (key: string)
    ensures |key| > |patientId| + 1
    ensures key[..|patientId|] == patientId && key[|patientId|] == ':'
    ensures key[|patientId| + 1..] == SessionPart(sessionId)
  {
    patientId + ":" + SessionPart(sessionId)
  }

  /** The position of the first `:` in `s`, if any. */
  function FirstColon(s: string): (r: Option<nat>)
    ensures r.Some? ==> r.value < |s| && s[r.value] == ':' && ':' !in s[..r.value]
    ensures r.None? <==> ':' !in s
  {
    if s == [] then None
    else if s[0] == ':' then Some(0)
    else match FirstColon(s[1..])
      case None => None
      case Some(i) =>
        assert s[1..][..i] == s[1..i + 1];
        assert s[..i + 1] == [s[0]] + s[1..i + 1];
        Some(i + 1)
  }

  /** A key read back: the text before the first `:` and the text after it. */
  function SplitKey(key: string): (halves: Option<(string, string)>)
    ensures halves.Some? ==> ':' !in halves.value.0 && key == halves.value.0 + ":" + halves.value.1
    ensures halves.None? <==> ':' !in key
  {
    match FirstColon(key)
    case None => None
    case Some(i) =>
      assert key == key[..i] + ":" + key[i + 1..];
      Some((key[..i], key[i + 1..]))
  }

  /** A patient id without `:` is recovered from its key, with the session part. */
  lemma {:induction false} KeyRoundTrip(patientId: string, sessionId: Option<string>)
    requires ':' !in patientId
    ensures SplitKey(CacheKey(patientId, sessionId)) == Some((patientId, SessionPart(sessionId)))
  {
    var key := CacheKey(patientId, sessionId);
    var i := |patientId|;
    assert key[i] == ':';
    assert key[..i] == patientId;
    assert ':' !in key[..i];
    var r := FirstColon(key);
    assert r.Some? by {
      assert key[i] in key;
    }
    assert r.value == i;
    assert key[i + 1..] == SessionPart(sessionId);
  }

  /** For ids without `:`, different requests never share a key unless their session parts agree. */
  lemma KeyDeterminesRequest(p1: string, s1: Option<string>, p2: string, s2: Option<string>)
    requires ':' !in p1 && ':' !in p2
    requires CacheKey(p1, s1) == CacheKey(p2, s2)
    ensures p1 == p2 && SessionPart(s1) == SessionPart(s2)
  {
    KeyRoundTrip(p1, s1);
    KeyRoundTrip(p2, s2);
  }

  /**
   * Keys collide where the request differs: no session, an empty session and
   * a session literally called `none` share a key, and so do a patient id
   * holding `:` and a shorter one whose session id carries the rest.
   */
  lemma KeyCollisions()
    ensures CacheKey("p", None) == CacheKey("p", Some("")) == CacheKey("p", Some("none"))
    ensures CacheKey("a:b", None) == CacheKey("a", Some("b:none"))
  {
  }

  // ---------------------------------------------------------------------
  // The in-flight request cache.

  /** A cached request: which request it is and whether it has settled. */
  datatype Pending = Pending(request: nat, settled: bool)

  /**
   * The module-level cache of recommendation requests. A key stays after its
   * request settles until the two-second timer set in `finally` fires, so a
   * lookup in that window is answered with the settled result.
   */
  class RecommendationsCache {
    var inflight: map<string, Pending>
    /** The number of requests started so far, which names the next one. */
    var nextRequest: nat

    /** Every cached entry names a started request, and no two keys share one. */
    ghost predicate Valid()
      reads this
    {
      && (forall k :: k in inflight ==> inflight[k].request < nextRequest)
      && (forall k1, k2 :: k1 in inflight && k2 in inflight && k1 != k2 ==>
            inflight[k1].request != inflight[k2].request)
    }

    constructor ()
      ensures Valid() && inflight == map[] && nextRequest == 0
    {
      inflight, nextRequest := map[], 0;
    }

    /**
     * `getResourceRecommendations`' lookup: a cached key (settled or not) is
     * answered with its request; otherwise a new request is started and
     * cached under the key.
     */
    method Request(patientId: string, sessionId: Option<string>) returns (request: nat, started: bool)
      requires Valid()
      modifies this
      ensures Valid()
      ensures started <==> CacheKey(patientId, sessionId) !in old(inflight)
      ensures !started ==> && request == old(inflight)[CacheKey(patientId, sessionId)].request
                           && inflight == old(inflight) && nextRequest == old(nextRequest)
      ensures started ==> && request == old(nextRequest) && nextRequest == old(nextRequest) + 1
                          && inflight == old(inflight)[CacheKey(patientId, sessionId) := Pending(request, false)]
      ensures started ==> forall k :: k in old(inflight) ==> old(inflight)[k].request != request
    {
      var key := CacheKey(patientId, sessionId);
      if key in inflight {
        request, started := inflight[key].request, false;
      } else {
        request, started := nextRequest, true;
        inflight := inflight[key := Pending(request, false)];
        nextRequest := nextRequest + 1;
      }
    }

    /** The request cached under `key` settles; the entry stays. */
    method Settle(key: string)
      requires Valid() && key in inflight && !inflight[key].settled
      modifies this
      ensures Valid()
      ensures inflight == old(inflight)[key := Pending(old(inflight)[key].request, true)]
      ensures nextRequest == old(nextRequest)
    {
      inflight := inflight[key := inflight[key].(settled := true)];
    }

    /** The timer set when the request settled fires: its key is deleted. */
    method Expire(key: string)
      requires Valid() && key in inflight && inflight[key].settled
      modifies this
      ensures Valid()
      ensures inflight == old(inflight) - {key}
      ensures nextRequest == old(nextRequest)
    {
      inflight := inflight - {key};
    }
  }

  /**
   * Two lookups for the same request with no expiry in between share one
   * request, even after it settled; after the expiry a fresh one is started.
   */
  method DeduplicationScenario(c: RecommendationsCache, patientId: string, sessionId: Option<string>)
    returns (first: nat, second: nat, third: nat)
    requires c.Valid() && CacheKey(patientId, sessionId) !in c.inflight
    modifies c
    ensures first == second && third != first
    ensures c.Valid()
  {
    var key := CacheKey(patientId, sessionId);
    var started: bool;
    first, started := c.Request(patientId, sessionId);
    c.Settle(key);
    second, started := c.Request(patientId, sessionId);
    c.Expire(key);
    third, started := c.Request(patientId, sessionId);
  }

  // ---------------------------------------------------------------------
  // The recommendation endpoints.

  /** The three endpoints, in the order they may be tried. */
  datatype Endpoint = PatientRecommendations | RecommendResources | PublicRecommendations

  /** A recommendation as the client passes it on. */
  datatype Recommendation = Recommendation(id: string, title: string)

  /** How a call ended: with a body, or with an error carrying an HTTP status if there was a response. */
  datatype HttpOutcome = Succeeded(body: seq<Recommendation>) | Failed(status: Option<int>)

  /** Only a 404 or 403 response on the first endpoint leads to the other two. */
  predicate TriesAlternatives(o: HttpOutcome) {
    o.Failed? && o.status.Some? && (o.status.value == 404 || o.status.value == 403)
  }

  /** The endpoints tried, the recommendations returned, and whether they are the built-in fallback. */
  datatype ChainResult = ChainResult(tried: seq<Endpoint>, recommendations: seq<Recommendation>, usedFallback: bool)

  const AllEndpoints: seq<Endpoint> := [PatientRecommendations, RecommendResources, PublicRecommendations]

  /** The outcome an endpoint would produce. */
  function OutcomeOf(e: Endpoint, primary: HttpOutcome, alternative: HttpOutcome, public: HttpOutcome): HttpOutcome {
    match e
    case PatientRecommendations => primary
    case RecommendResources => alternative
    case PublicRecommendations => public
  }

  /**
   * The body of the cached request: the endpoints are tried in order, the
   * first successful body is returned, and every failure ends in the
   * built-in recommendations. The request never rejects.
   */
  function RecommendationChain(primary: HttpOutcome, alternative: HttpOutcome, public: HttpOutcome,
                               fallback: seq<Recommendation>): (r: ChainResult)
    ensures 1 <= |r.tried| <= 3 && r.tried == AllEndpoints[..|r.tried|]
    ensures RecommendResources in r.tried <==> TriesAlternatives(primary)
    ensures PublicRecommendations in r.tried <==> TriesAlternatives(primary) && alternative.Failed?
    ensures forall i :: 0 <= i < |r.tried| - 1 ==> OutcomeOf(r.tried[i], primary, alternative, public).Failed?
    ensures var last := OutcomeOf(r.tried[|r.tried| - 1], primary, alternative, public);
            && (r.usedFallback <==> last.Failed?)
            && (last.Succeeded? ==> r.recommendations == last.body)
    ensures r.usedFallback ==> r.recommendations == fallback
  {
    if primary.Succeeded? then ChainResult([PatientRecommendations], primary.body, false)
    else if !TriesAlternatives(primary) then ChainResult([PatientRecommendations], fallback, true)
    else if alternative.Succeeded? then ChainResult([PatientRecommendations, RecommendResources], alternative.body, false)
    else if public.Succeeded? then ChainResult(AllEndpoints, public.body, false)
    else ChainResult(AllEndpoints, fallback, true)
  }

  /** The fallback is used exactly when no endpoint that was tried answered. */
  lemma FallbackOnlyWhenAllTriedFail(primary: HttpOutcome, alternative: HttpOutcome, public: HttpOutcome,
                                     fallback: seq<Recommendation>)
    ensures var r := RecommendationChain(primary, alternative, public, fallback);
            r.usedFallback <==> forall e :: e in r.tried ==> OutcomeOf(e, primary, alternative, public).Failed?
  {
    var r := RecommendationChain(primary, alternative, public, fallback);
    assert r.tried[|r.tried| - 1] in r.tried;
    if !r.usedFallback {
      forall e | e in r.tried
        ensures e != r.tried[|r.tried| - 1] ==> OutcomeOf(e, primary, alternative, public).Failed?
      {
      }
    }
  }

  /** A server error or a lost connection on the first endpoint goes straight to the fallback. */
  lemma OtherErrorsSkipAlternatives(status: Option<int>, alternative: HttpOutcome, public: HttpOutcome,
                                    fallback: seq<Recommendation>)
    requires status.None? || (status.value != 404 && status.value != 403)
    ensures RecommendationChain(Failed(status), alternative, public, fallback)
              == ChainResult([PatientRecommendations], fallback, true)
  {
  }

  /** The query sent to the first endpoint: the session id when it is truthy, else none. */
  function PrimaryQuery(sessionId: Option<string>): (q: Option<string>)
    ensures q.Some? <==> Truthy(sessionId)
    ensures q.Some? ==> q == sessionId
  {
    if Truthy(sessionId) then sessionId else None
  }

  // ---------------------------------------------------------------------
  // Chat and authorisation.

  /** The route `sendMessage` posts to; the patient dashboard leaves the flag at its default, `false`. */
  function ChatEndpoint(isPatientChat: bool): (path: string)
    ensures path == "/api/patient-chat" <==> isPatientChat
    ensures path == "/api/chat" <==> !isPatientChat
  {
    if isPatientChat then "/api/patient-chat" else "/api/chat"
  }

  /** How the chat request ended: a body with an answer, a response that is not ok, or no response. */
  datatype ChatOutcome = Answered(answer: string) | NotOk(status: int) | NoResponse

  /** What `sendMessage` gives its caller. */
  datatype ChatResult = Resolved(answer: string) | Rejected

  const DevelopmentAnswer: string := "Si è verificato un errore nel contattare il backend. Risposta di fallback."

  /**
   * `sendMessage` with mock data off: an answer is passed through; any
   * failure becomes the canned answer in development and a rejection
   * otherwise.
   */
  function SendMessageResult(outcome: ChatOutcome, development: bool): (r: ChatResult)
    ensures outcome.Answered? ==> r == Resolved(outcome.answer)
    ensures r.Rejected? <==> !outcome.Answered? && !development
    ensures !outcome.Answered? && development ==> r == Resolved(DevelopmentAnswer)
  {
    if outcome.Answered? then Resolved(outcome.answer)
    else if development then Resolved(DevelopmentAnswer)
    else Rejected
  }

  const BearerPrefix: string := "Bearer "

  /** The interceptor's header: only a truthy stored token is attached. */
  function InterceptorAuthorization(token: Option<string>): (header: Option<string>)
    ensures header.Some? <==> Truthy(token)
    ensures header.Some? ==> |header.value| > |BearerPrefix| && header.value[..|BearerPrefix|] == BearerPrefix
  {
    if Truthy(token) then Some(BearerPrefix + token.value) else None
  }

  /** The chat request's header: always sent, with `null` interpolated when no token is stored. */
  function ChatAuthorization(token: Option<string>): (header: string)
    ensures |header| >= |BearerPrefix| && header[..|BearerPrefix|] == BearerPrefix
    ensures BearerToken(header) == Some(if token.Some? then token.value else "null")
  {
    var h := BearerPrefix + (if token.Some? then token.value else "null");
    assert h[..|BearerPrefix|] == BearerPrefix;
    assert h[|BearerPrefix|..] == (if token.Some? then token.value else "null");
    h
  }

  /** The token a server reads from a bearer header. */
  function BearerToken(header: string): (token: Option<string>)
    ensures token.Some? <==> |header| >= |BearerPrefix| && header[..|BearerPrefix|] == BearerPrefix
    ensures token.Some? ==> header == BearerPrefix + token.value
  {
    if |header| >= |BearerPrefix| && header[..|BearerPrefix|] == BearerPrefix then
      assert header == header[..|BearerPrefix|] + header[|BearerPrefix|..];
      Some(header[|BearerPrefix|..])
    else None
  }

  /** A token the interceptor attaches is read back unchanged. */
  lemma InterceptorRoundTrip(token: Option<string>)
    requires Truthy(token)
    ensures BearerToken(InterceptorAuthorization(token).value) == token
  {
    var h := BearerPrefix + token.value;
    assert h[..|BearerPrefix|] == BearerPrefix;
    assert h[|BearerPrefix|..] == token.value;
  }

  /** Without a stored token, the chat request still carries a header, whose token is the text `null`. */
  lemma ChatHeaderWithoutToken()
    ensures InterceptorAuthorization(None).None?
    ensures BearerToken(ChatAuthorization(None)) == Some("null")
  {
  }
}
