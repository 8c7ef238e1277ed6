/** The chat endpoint of api/chat.ts: an in-memory sliding-window rate limiter
    keyed by client address, and the request handler's chain of early-return
    checks in front of the language-model call. The clock (`Date.now()`), the
    client address, the serialised body length and the API key setting are
    inputs; the model call itself is not modelled. */
module Chat {
  import opened Seqs

  const RateLimitWindowMs := 60000
  const RateLimitMax := 20
  const MaxBodyLength := 10240
  const MaxMessages := 20

  // ---------------------------------------------------------------------------
  // Rate limiting

  /** `timestamps.filter(t => now - t < RATE_LIMIT_WINDOW_MS)`. */
  function Recent(timestamps: seq<int>, now: int): (recent: seq<int>)
    ensures |recent| <= |timestamps|
    ensures forall t :: t in recent <==> t in timestamps && now - t < RateLimitWindowMs
    ensures forall t :: multiset(recent)[t] == if now - t < RateLimitWindowMs then multiset(timestamps)[t] else 0
  {
    if |timestamps| == 0 then []
    else
      assert timestamps == [timestamps[0]] + timestamps[1..];
      var rest := Recent(timestamps[1..], now);
      assert forall t :: multiset(timestamps)[t] == multiset([timestamps[0]])[t] + multiset(timestamps[1..])[t];
      if now - timestamps[0] < RateLimitWindowMs then [timestamps[0]] + rest else rest
  }

  /** Pruning keeps the stored order: a list pruned in two pieces is the two
      pruned pieces one after the other. */
  lemma {:induction false} RecentAppend(a: seq<int>, b: seq<int>, now: int)
    ensures Recent(a + b, now) == Recent(a, now) + Recent(b, now)
  {
    if |a| > 0 {
      assert (a + b)[1..] == a[1..] + b;
      RecentAppend(a[1..], b, now);
      if now - a[0] < RateLimitWindowMs {
        assert Recent(a + b, now) == [a[0]] + (Recent(a[1..], now) + Recent(b, now));
      }
    } else {
      assert a + b == b;
    }
  }

  /** `rateLimit.get(ip) ?? []`. */
  function Stored(rateLimit: map<string, seq<int>>, ip: string): seq<int> {
    if ip in rateLimit then rateLimit[ip] else []
  }

  /** Whether a request from `ip` at `now` is refused: the window already
      holds the maximum number of requests. */
  predicate Limited(rateLimit: map<string, seq<int>>, ip: string, now: int) {
    |Recent(Stored(rateLimit, ip), now)| >= RateLimitMax
  }

  /** The table after `isRateLimited(ip)` at `now`: the entry for `ip` is its
      pruned list, with `now` appended when the request is let through. */
  function AfterCall(rateLimit: map<string, seq<int>>, ip: string, now: int): map<string, seq<int>> {
    var recent := Recent(Stored(rateLimit, ip), now);
    rateLimit[ip := if Limited(rateLimit, ip, now) then recent else recent + [now]]
  }

  /** No address has more than the maximum number of requests stored. */
  predicate Bounded(rateLimit: map<string, seq<int>>) {
    forall ip :: ip in rateLimit ==> |rateLimit[ip]| <= RateLimitMax
  }

  /** The module-level state of the endpoint. */
  class ChatEndpoint {
    var rateLimit: map<string, seq<int>>

    predicate Valid()
      reads this
    {
      Bounded(rateLimit)
    }

    constructor()
      ensures rateLimit == map[] && Valid()
    {
      rateLimit := map[];
    }

    method IsRateLimited(ip: string, now: int) returns (limited: bool)
      modifies this
      ensures limited == Limited(old(rateLimit), ip, now)
      ensures rateLimit == AfterCall(old(rateLimit), ip, now)
      ensures old(Valid()) ==> Valid()
    {
      var timestamps := if ip in rateLimit then rateLimit[ip] else [];
      var recent := Recent(timestamps, now);
      if |recent| >= RateLimitMax {
        rateLimit := rateLimit[ip := recent];
        StepKeepsBound(old(rateLimit), ip, now);
        return true;
      }
      recent := recent + [now];
      rateLimit := rateLimit[ip := recent];
      StepKeepsBound(old(rateLimit), ip, now);
      return false;
    }

    method Handle(req: Request, now: int) returns (reply: Reply)
      modifies this
      ensures rateLimit == Respond(old(rateLimit), req, now).0
      ensures reply == Respond(old(rateLimit), req, now).1
      ensures old(Valid()) ==> Valid()
    {
      if req.httpMethod != "POST" {
        return Reply(405, "Method not allowed");
      }
      if !JsonContent(req.contentType) {
        return Reply(400, "Content-Type must be application/json");
      }
      if req.body.Undefined? {
        return Thrown(UndefinedLength);
      }
      if req.bodyLength > MaxBodyLength {
        return Reply(413, "Request body too large");
      }
      var limited := IsRateLimited(req.ip, now);
      if limited {
        return Reply(429, "Too many requests. Please wait a minute.");
      }
      reply := Checked(req);
    }
  }

  /** After a call the stored list for `ip` holds only timestamps that were
      stored and fall inside the window, and possibly `now`; when the request
      is refused it is exactly the pruned list, otherwise the pruned list with
      `now` added as its last element. */
  lemma StoredAfterCall(rateLimit: map<string, seq<int>>, ip: string, now: int)
    ensures var after := AfterCall(rateLimit, ip, now)[ip];
      var recent := Recent(Stored(rateLimit, ip), now);
      && (forall t :: t in after ==> (t in Stored(rateLimit, ip) && now - t < RateLimitWindowMs) || t == now)
      && (Limited(rateLimit, ip, now) ==> after == recent)
      && (!Limited(rateLimit, ip, now) ==> |after| == |recent| + 1 && after[|after| - 1] == now && after[..|recent|] == recent)
  {
    var recent := Recent(Stored(rateLimit, ip), now);
    assert (recent + [now])[..|recent|] == recent;
  }

  /** Pruning never lengthens a list, and a refused request leaves at most the
      maximum, so every list stays within the limit. */
  lemma StepKeepsBound(rateLimit: map<string, seq<int>>, ip: string, now: int)
    ensures Bounded(rateLimit) ==> Bounded(AfterCall(rateLimit, ip, now))
  {
    if Bounded(rateLimit) {
      var recent := Recent(Stored(rateLimit, ip), now);
      assert |Stored(rateLimit, ip)| <= RateLimitMax;
      assert |recent| <= RateLimitMax;
    }
  }

  /** Only the entry for `ip` changes. */
  lemma OtherAddressesUntouched(rateLimit: map<string, seq<int>>, ip: string, now: int, other: string)
    requires other != ip
    ensures other in AfterCall(rateLimit, ip, now) <==> other in rateLimit
    ensures other in rateLimit ==> AfterCall(rateLimit, ip, now)[other] == rateLimit[other]
  {
  }

  /** A refused request is not recorded: calling again at the same instant
      is refused again and leaves the table as it is. */
  lemma RefusalIsStable(rateLimit: map<string, seq<int>>, ip: string, now: int)
    requires Limited(rateLimit, ip, now)
    ensures var after := AfterCall(rateLimit, ip, now);
      Limited(after, ip, now) && AfterCall(after, ip, now) == after
  {
    var recent := Recent(Stored(rateLimit, ip), now);
    RecentIdempotent(recent, now);
  }

  /** Pruning twice at the same instant is pruning once. */
  lemma {:induction false} RecentIdempotent(timestamps: seq<int>, now: int)
    requires forall t :: t in timestamps ==> now - t < RateLimitWindowMs
    ensures Recent(timestamps, now) == timestamps
  {
    if |timestamps| > 0 {
      assert timestamps[0] in timestamps;
      assert forall t :: t in timestamps[1..] ==> t in timestamps;
      RecentIdempotent(timestamps[1..], now);
    }
  }

  // ---------------------------------------------------------------------------
  // The handler

  /** What `req.body` is: `undefined`, `null` (the JSON text `null`), or any
      other value. Only the first two make the handler throw. */
  datatype BodyKind = Undefined | Null | Present

  /** The parts of a request the handler looks at. `body` says whether
      `req.body` is undefined, null or a value, `bodyLength` is the length of
      `JSON.stringify(req.body)` for a value, `ip` the address already taken
      from the headers or the socket, `apiKey` the environment setting;
      `messages` is the length of `body.messages` or `None` when it is not an
      array, and `systemPrompt` is `None` when `body.systemPrompt` is not a
      string. The fields are left independent on purpose: a `null` body
      really stringifies to four characters and has no fields, but every
      lemma below holds for any combination, so none needs that tie. */
  datatype Request = Request(
    httpMethod: string,
    contentType: Option<string>,
    body: BodyKind,
    bodyLength: nat,
    ip: string,
    apiKey: Option<string>,
    messages: Option<nat>,
    systemPrompt: Option<string>)

  /** An error status with its message, the go-ahead for the model call
      (whose 200 or 502 reply is not modelled), or a `TypeError` the handler
      throws and does not catch. */
  datatype Reply =
    | Reply(status: int, error: string)
    | CallModel(systemPrompt: string, messageCount: nat)
    | Thrown(reason: string)

  /** A present Content-Type header that includes "application/json". */
  predicate JsonContent(contentType: Option<string>) {
    contentType.Some? && Contains(contentType.value, "application/json")
  }

  /** A set (non-empty) API key. */
  predicate HasApiKey(apiKey: Option<string>) {
    apiKey.Some? && |apiKey.value| > 0
  }

  /** The checks after the rate limiter: API key, then the destructuring of
      the body, which throws for `null` or `undefined`, then messages, then
      the system prompt. */
  function Checked(req: Request): Reply {
    if !HasApiKey(req.apiKey) then Reply(500, "API key not configured")
    else if !req.body.Present? then Thrown(NoBodyFields)
    else if req.messages.None? || req.messages.value == 0 then Reply(400, "messages must be a non-empty array")
    else if req.messages.value > MaxMessages then Reply(400, "Too many messages (max 20)")
    else if req.systemPrompt.None? || |req.systemPrompt.value| == 0 then Reply(400, "systemPrompt must be a non-empty string")
    else CallModel(req.systemPrompt.value, req.messages.value)
  }

  /** Whether the request reaches the rate limiter. */
  predicate PassesGates(req: Request) {
    req.httpMethod == "POST" && JsonContent(req.contentType) && !req.body.Undefined? && req.bodyLength <= MaxBodyLength
  }

  /** The reply and the new rate-limit table for a request at `now`. */
  function Respond(rateLimit: map<string, seq<int>>, req: Request, now: int): (map<string, seq<int>>, Reply) {
    if req.httpMethod != "POST" then (rateLimit, Reply(405, "Method not allowed"))
    else if !JsonContent(req.contentType) then (rateLimit, Reply(400, "Content-Type must be application/json"))
    else if req.body.Undefined? then (rateLimit, Thrown(UndefinedLength))
    else if req.bodyLength > MaxBodyLength then (rateLimit, Reply(413, "Request body too large"))
    else if Limited(rateLimit, req.ip, now) then (AfterCall(rateLimit, req.ip, now), Reply(429, "Too many requests. Please wait a minute."))
    else (AfterCall(rateLimit, req.ip, now), Checked(req))
  }

  /** `JSON.stringify(undefined)` is `undefined`, which has no `length`. */
  const UndefinedLength := "the stringified body has no length"

  /** `const { messages, systemPrompt } = null` (or `undefined`) throws. */
  const NoBodyFields := "the body has no fields to destructure"

  /** The body fields the model call needs: 1..20 messages and a non-empty
      system prompt. */
  predicate ValidBody(req: Request) {
    req.messages.Some? && 0 < req.messages.value <= MaxMessages
    && req.systemPrompt.Some? && |req.systemPrompt.value| > 0
  }

  /** Each status code is given exactly when every earlier check passed and
      its own check fails: 405, then 400 for the content type, 413, 429, 500,
      then 400 for the messages or the system prompt; the model is called
      only when all pass. A body that is `undefined` throws before the size
      check, one that is `null` after the API-key check. */
  lemma StatusPrecedence(rateLimit: map<string, seq<int>>, req: Request, now: int)
    ensures var reply := Respond(rateLimit, req, now).1;
      var admitted := PassesGates(req) && !Limited(rateLimit, req.ip, now);
      && (reply.Reply? && reply.status == 405 <==> req.httpMethod != "POST")
      && (reply.Reply? && reply.status == 413 <==>
            req.httpMethod == "POST" && JsonContent(req.contentType) && !req.body.Undefined? && req.bodyLength > MaxBodyLength)
      && (reply.Reply? && reply.status == 429 <==> PassesGates(req) && Limited(rateLimit, req.ip, now))
      && (reply.Reply? && reply.status == 500 <==> admitted && !HasApiKey(req.apiKey))
      && (reply.Reply? && reply.status == 400 <==>
            (req.httpMethod == "POST" && !JsonContent(req.contentType))
            || (admitted && HasApiKey(req.apiKey) && req.body.Present? && !ValidBody(req)))
      && (reply.Thrown? <==>
            (req.httpMethod == "POST" && JsonContent(req.contentType) && req.body.Undefined?)
            || (admitted && HasApiKey(req.apiKey) && req.body.Null?))
      && (reply.CallModel? <==> admitted && HasApiKey(req.apiKey) && req.body.Present? && ValidBody(req))
  {
  }

  /** The limiter runs, and records the request when it lets it through, as
      soon as the method, content type and size are acceptable, so a request
      then refused for its API key or its body, or one whose `null` body
      throws, still counts against the address; a request refused before
      that leaves the table alone. */
  lemma LimiterCountsRejected(rateLimit: map<string, seq<int>>, req: Request, now: int)
    ensures Respond(rateLimit, req, now).0 == if PassesGates(req) then AfterCall(rateLimit, req.ip, now) else rateLimit
    ensures var reply := Respond(rateLimit, req, now).1;
      (reply.Reply? && (reply.status == 500 || (reply.status == 400 && JsonContent(req.contentType))))
      || (reply.Thrown? && req.body.Null?) ==>
        Respond(rateLimit, req, now).0[req.ip] == Recent(Stored(rateLimit, req.ip), now) + [now]
  {
    StatusPrecedence(rateLimit, req, now);
  }
}
