/**
 * Delivery of one task: `sendMessage` makes one attempt and classifies the
 * channel's reply; `send` calls it a second time only when the first attempt
 * reports an invalid access token. The token service, the HTTP exchange and
 * the JSON codec are not part of this model: what one attempt observes is
 * an `Outcome` that an oracle supplies.
 */
module Delivery {
  import opened Wrappers
  import opened Config
  import opened Options

  /** The reply code with which WeChat Work rejects an expired or invalid access token. */
  const AccessTokenInvalid: int := 42001

  /** The step of an attempt that failed before a reply could be read. */
  datatype Stage = GetToken | Encode | SetPath | SetParameters | NewRequest | DoHttp | DecodeReply

  /** What one attempt observes: a failure at some step, or the reply's code and error text. */
  datatype Outcome = Failed(stage: Stage, err: string) | Replied(code: int, errmsg: string)

  /** The text message body: content, the three destinations, the agent, `safe` and `msgtype`. */
  datatype WeChatMessage = WeChatMessage(content: string, toUser: string, toParty: string, toTag: string,
                                         agentId: string, safe: string, msgType: string)

  /** What an attempt sends: the token cache key its token is fetched under, the API URL and the body. */
  datatype Request = Request(tokenKey: string, apiUrl: string, message: WeChatMessage)

  /** The token cache key of a receiver, used both to fetch and to invalidate its token. */
  function TokenKey(c: WechatConfig): string
  {
    c.corpId + " | " + c.agentId
  }

  /**
   * The key does not tell receivers apart: corp "a | b" with agent "c" and
   * corp "a" with agent "b | c" share one key, and so one cached token.
   */
  lemma TokenKeyCollision(c1: WechatConfig, c2: WechatConfig)
    requires c1.corpId == "a | b" && c1.agentId == "c"
    requires c2.corpId == "a" && c2.agentId == "b | c"
    ensures c1.corpId != c2.corpId && TokenKey(c1) == TokenKey(c2)
  {
    assert TokenKey(c1) == "a | b | c";
    assert TokenKey(c2) == "a | b | c";
  }

  /** Between corp ids of the same length, the key determines the corp id and the agent id. */
  lemma TokenKeySameCorpLength(c1: WechatConfig, c2: WechatConfig)
    requires |c1.corpId| == |c2.corpId|
    ensures TokenKey(c1) == TokenKey(c2) <==> c1.corpId == c2.corpId && c1.agentId == c2.agentId
  {
    var n := |c1.corpId|;
    if TokenKey(c1) == TokenKey(c2) {
      assert c1.corpId == TokenKey(c1)[..n];
      assert c2.corpId == TokenKey(c2)[..n];
      assert c1.agentId == TokenKey(c1)[n + 3..];
      assert c2.agentId == TokenKey(c2)[n + 3..];
    }
  }

  /** The message `send` builds for receiver copy `w` and text `msg`. */
  function MessageFor(w: Wechat, msg: string): WeChatMessage
    requires w.config.Some?
  {
    WeChatMessage(msg, w.toUser, w.toParty, w.toTag, w.config.value.agentId, "0", "text")
  }

  /** The request every attempt for `w` and `msg` makes. */
  function RequestFor(w: Wechat, msg: string): Request
    requires w.config.Some?
  {
    Request(TokenKey(w.config.value), w.config.value.apiUrl, MessageFor(w, msg))
  }

  /** True of an outcome that reports an invalid access token. */
  predicate TokenRejected(o: Outcome)
  {
    o.Replied? && o.code == AccessTokenInvalid
  }

  /** True of an outcome whose reply reports success. */
  predicate Accepted(o: Outcome)
  {
    o.Replied? && o.code == 0
  }

  /** The pair `sendMessage` returns. */
  datatype AttemptResult = AttemptResult(retry: bool, err: Option<string>)

  /**
   * `sendMessage`'s classification of one outcome: a failed step returns its
   * error and no retry; code 0 returns no error; code 42001 asks for a retry
   * and returns the reply's error text; any other code is only logged and
   * returns no error.
   */
  function SendMessage(o: Outcome): (a: AttemptResult)
    ensures a.retry <==> TokenRejected(o)
    ensures a.err.None? <==> o.Replied? && o.code != AccessTokenInvalid
    ensures o.Failed? ==> a.err == Some(o.err)
    ensures TokenRejected(o) ==> a.err == Some(o.errmsg)
  {
    match o
    case Failed(_, err) => AttemptResult(false, Some(err))
    case Replied(code, errmsg) =>
      if code == 0 then AttemptResult(false, None)
      else if code == AccessTokenInvalid then AttemptResult(true, Some(errmsg))
      else AttemptResult(false, None)
  }

  /** The token keys an attempt with outcome `o` invalidates: its own, exactly when the token was rejected. */
  function Invalidations(key: string, o: Outcome): (ks: seq<string>)
    ensures |ks| <= 1 && (|ks| == 1 <==> TokenRejected(o))
    ensures forall i :: 0 <= i < |ks| ==> ks[i] == key
  {
    if TokenRejected(o) then [key] else []
  }

  /** What `send` produces: its error, the outcomes of the attempts it made, and the token keys it invalidated. */
  datatype SendResult = SendResult(err: Option<string>, attempts: seq<Outcome>, invalidated: seq<string>)

  /**
   * `send` for receiver copy `w` and message `msg`; `attempt(req, i)` is the
   * outcome of attempt `i` (0 or 1) with request `req`.
   */
  function Send(w: Wechat, msg: string, attempt: (Request, nat) -> Outcome): (r: SendResult)
    requires w.config.Some?
    ensures 1 <= |r.attempts| <= 2
    ensures r.attempts[0] == attempt(RequestFor(w, msg), 0)
    ensures |r.attempts| == 2 <==> TokenRejected(r.attempts[0])
    ensures |r.attempts| == 2 ==> r.attempts[1] == attempt(RequestFor(w, msg), 1)
    ensures r.err == SendMessage(r.attempts[|r.attempts| - 1]).err
    ensures r.invalidated == Invalidations(TokenKey(w.config.value), r.attempts[0]) +
                             (if |r.attempts| == 2 then Invalidations(TokenKey(w.config.value), r.attempts[1]) else [])
    ensures |r.invalidated| <= 2
    ensures forall i :: 0 <= i < |r.invalidated| ==> r.invalidated[i] == TokenKey(w.config.value)
  {
    var req := RequestFor(w, msg);
    var first := attempt(req, 0);
    var a := SendMessage(first);
    if a.retry then
      var second := attempt(req, 1);
      SendResult(SendMessage(second).err, [first, second],
                 Invalidations(req.tokenKey, first) + Invalidations(req.tokenKey, second))
    else
      SendResult(a.err, [first], Invalidations(req.tokenKey, first))
  }

  /** `send` reports no error exactly when its last attempt got a reply other than 42001. */
  lemma SendSucceeds(w: Wechat, msg: string, attempt: (Request, nat) -> Outcome)
    requires w.config.Some?
    ensures var r := Send(w, msg, attempt);
            var last := r.attempts[|r.attempts| - 1];
            r.err.None? <==> last.Replied? && last.code != AccessTokenInvalid
  {
  }

  /** The key a rejected token is invalidated under is the key it was fetched under. */
  lemma InvalidatesFetchedKey(w: Wechat, msg: string, attempt: (Request, nat) -> Outcome)
    requires w.config.Some?
    requires TokenRejected(attempt(RequestFor(w, msg), 0))
    ensures Send(w, msg, attempt).invalidated[0] == RequestFor(w, msg).tokenKey
  {
  }

  /** A token rejection followed by a successful reply gives no error, after one invalidation. */
  lemma RetryThenSuccess(w: Wechat, msg: string, attempt: (Request, nat) -> Outcome)
    requires w.config.Some?
    requires TokenRejected(attempt(RequestFor(w, msg), 0))
    requires Accepted(attempt(RequestFor(w, msg), 1))
    ensures Send(w, msg, attempt).err.None?
    ensures Send(w, msg, attempt).invalidated == [TokenKey(w.config.value)]
  {
  }

  /** A failure before any reply, or any reply other than 42001, is final: there is no second attempt. */
  lemma NoRetryOtherwise(w: Wechat, msg: string, attempt: (Request, nat) -> Outcome)
    requires w.config.Some?
    requires !TokenRejected(attempt(RequestFor(w, msg), 0))
    ensures Send(w, msg, attempt).attempts == [attempt(RequestFor(w, msg), 0)]
    ensures Send(w, msg, attempt).invalidated == []
    ensures attempt(RequestFor(w, msg), 0).Failed? ==> Send(w, msg, attempt).err == Some(attempt(RequestFor(w, msg), 0).err)
  {
  }

  /** Two rejections in a row: the second retry flag is ignored and the second reply's error text is returned. */
  lemma SecondRejectionFinal(w: Wechat, msg: string, attempt: (Request, nat) -> Outcome)
    requires w.config.Some?
    requires TokenRejected(attempt(RequestFor(w, msg), 0))
    requires TokenRejected(attempt(RequestFor(w, msg), 1))
    ensures |Send(w, msg, attempt).attempts| == 2
    ensures Send(w, msg, attempt).err == Some(attempt(RequestFor(w, msg), 1).errmsg)
    ensures Send(w, msg, attempt).invalidated == [TokenKey(w.config.value), TokenKey(w.config.value)]
  {
  }

  // ----- The token fetch passed to the token service -----

  /** What the token fetch observes: a failure at some step, or the decoded reply's access token. */
  datatype FetchOutcome = FetchFailed(err: string) | Fetched(accessToken: string)

  /** The request the token fetch makes: the `gettoken` endpoint of the API URL, the corp id and the secret reference. */
  datatype TokenRequest = TokenRequest(apiUrl: string, corpId: string, namespace: string, secretRef: string)

  /** The token request for receiver copy `w`. */
  function TokenRequestFor(w: Wechat): TokenRequest
    requires w.config.Some?
  {
    TokenRequest(w.config.value.apiUrl, w.config.value.corpId, w.namespace, w.config.value.apiSecret)
  }

  /** The triple the fetch returns: token, lifetime in nanoseconds, error. */
  datatype Grant = Grant(token: string, lifetime: int, err: Option<string>)

  /**
   * The token fetch for `w`; `fetch` is what its request observes. It
   * succeeds exactly when the request does, with the access token of the
   * reply; a failure carries the request's error. A success always reports
   * the lifetime `DefaultExpires`, whatever token lifetime the notifier was
   * configured with.
   */
  function FetchToken(w: Wechat, fetch: TokenRequest -> FetchOutcome): (g: Grant)
    requires w.config.Some?
    ensures g.err.None? <==> fetch(TokenRequestFor(w)).Fetched?
    ensures fetch(TokenRequestFor(w)).Fetched? ==> g.token == fetch(TokenRequestFor(w)).accessToken
    ensures fetch(TokenRequestFor(w)).FetchFailed? ==> g.err == Some(fetch(TokenRequestFor(w)).err)
    ensures g.err.None? ==> g.lifetime == 2 * 3600 * 1_000_000_000
  {
    match fetch(TokenRequestFor(w))
    case FetchFailed(err) => Grant("", 0, Some(err))
    case Fetched(token) => Grant(token, DefaultExpires, None)
  }

  /**
   * What an attempt observes when the token service answers with grant `g`:
   * a failed grant ends the attempt at its first step, otherwise the rest of
   * the attempt decides.
   */
  function AfterGrant(g: Grant, rest: Outcome): Outcome
  {
    if g.err.Some? then Failed(GetToken, g.err.value) else rest
  }

  /**
   * When the token service runs the fetch (a cache miss) and the fetch
   * fails, `send` makes one attempt, returns the fetch's error and
   * invalidates nothing.
   */
  lemma FetchFailureFinal(w: Wechat, msg: string, fetch: TokenRequest -> FetchOutcome, rest: (Request, nat) -> Outcome)
    requires w.config.Some?
    requires fetch(TokenRequestFor(w)).FetchFailed?
    ensures var r := Send(w, msg, (req: Request, i: nat) => AfterGrant(FetchToken(w, fetch), rest(req, i)));
            r.err == Some(fetch(TokenRequestFor(w)).err) &&
            r.attempts == [Failed(GetToken, fetch(TokenRequestFor(w)).err)] && r.invalidated == []
  {
    var g := FetchToken(w, fetch);
    assert g.err == Some(fetch(TokenRequestFor(w)).err);
    var at := (req: Request, i: nat) => AfterGrant(FetchToken(w, fetch), rest(req, i));
    assert at(RequestFor(w, msg), 0) == AfterGrant(g, rest(RequestFor(w, msg), 0));
    assert AfterGrant(g, rest(RequestFor(w, msg), 0)) == Failed(GetToken, g.err.value);
    assert at(RequestFor(w, msg), 0) == Failed(GetToken, fetch(TokenRequestFor(w)).err);
  }

  /** When the fetch succeeds, the attempts are decided by the rest of the exchange alone. */
  lemma FetchSuccessTransparent(w: Wechat, msg: string, fetch: TokenRequest -> FetchOutcome, rest: (Request, nat) -> Outcome)
    requires w.config.Some?
    requires fetch(TokenRequestFor(w)).Fetched?
    ensures Send(w, msg, (req: Request, i: nat) => AfterGrant(FetchToken(w, fetch), rest(req, i))) == Send(w, msg, rest)
  {
  }
}
