/** The endpoint: every public operation wrapped in its access-token
    handling, as a sequential state machine over an abstract transport.

    Each call returns its outcome, the token provider afterwards, and the
    trace of transport calls it made: the log of refresh calls and attempts,
    in order, and a counter of each. The counters tell the transport which
    refresh or attempt of the call it is answering; the log only records. */
module Endpoint {
  import opened Wrappers
  import opened Errors
  import Order
  import HttpClient

  datatype AccessToken = AccessToken(token: string, validUntil: int, durationInMillis: int)

  /** The current access token (null until one is set) and the fixed refresh
      token. Whether the held token is still valid depends on the clock, so
      the provider's answer is an input of each call. */
  datatype TokenProvider = TokenProvider(accessToken: Option<AccessToken>, refreshToken: string)

  function GetAccessToken(p: TokenProvider): Option<string> {
    match p.accessToken
    case None => None
    case Some(t) => Some(t.token)
  }

  function SetAccessToken(p: TokenProvider, t: AccessToken): (q: TokenProvider)
    ensures GetAccessToken(q) == Some(t.token) && q.accessToken == Some(t)
    ensures q.refreshToken == p.refreshToken
  {
    p.(accessToken := Some(t))
  }

  /** One transport call. */
  datatype Event =
    | Refreshed(refreshToken: string)
    | Attempted(request: HttpClient.Request, bearer: Option<string>)
    | StatusRequested(notification: HttpClient.ApiNotification)

  /** The transport, as the answers it gives. `call(q, n, bearer)` answers
      the n-th attempt (counting from 0) within one endpoint call;
      `refresh(n, refreshToken)` answers the n-th refresh call. */
  datatype Transport<T> = Transport(
    call: (HttpClient.Request, nat, Option<string>) -> Outcome<T>,
    refresh: (nat, string) -> Outcome<AccessToken>,
    orderStatusData: HttpClient.ApiNotification -> Outcome<T>)

  /** The calls made so far within one endpoint call: the ordered log and
      the two counters. */
  datatype Trace = Trace(log: seq<Event>, refreshes: nat, attempts: nat) {
    function AddRefresh(refreshToken: string): Trace {
      Trace(log + [Refreshed(refreshToken)], refreshes + 1, attempts)
    }

    function AddAttempt(q: HttpClient.Request, bearer: Option<string>): Trace {
      Trace(log + [Attempted(q, bearer)], refreshes, attempts + 1)
    }
  }

  const NoCalls := Trace([], 0, 0)

  datatype Call<T> = Call(result: Outcome<T>, provider: TokenProvider, trace: Trace)

  /** An attempt, optionally followed by a refresh, optionally followed by
      a second attempt. */
  predicate RetryShape(log: seq<Event>) {
    && 1 <= |log| <= 3
    && log[0].Attempted?
    && (|log| >= 2 ==> log[1].Refreshed?)
    && (|log| == 3 ==> log[2].Attempted?)
  }

  /** The call shapes an operation with a pre-flight token check may take:
      a refresh first exactly when the provider reported no valid token,
      then (unless that refresh failed) the retry shape. */
  predicate GuardedShape(hasNoValidAccessToken: bool, log: seq<Event>) {
    if hasNoValidAccessToken then
      |log| >= 1 && log[0].Refreshed? && (|log| == 1 || RetryShape(log[1..]))
    else
      RetryShape(log)
  }

  /** The call shape of an operation without the pre-flight check: it never
      refreshes before its first attempt. */
  predicate ReactiveShape(log: seq<Event>) {
    RetryShape(log)
  }

  /** What every call keeps: together the counters count the log, the
      refresh token is the provider's own and never changes, every attempt
      is for the requested operation, and a success comes from an attempt,
      the last call made. */
  predicate Disciplined<T>(q: HttpClient.Request, p: TokenProvider, r: Call<T>) {
    && r.trace.refreshes + r.trace.attempts == |r.trace.log|
    && r.provider.refreshToken == p.refreshToken
    && (forall i :: 0 <= i < |r.trace.log| && r.trace.log[i].Refreshed? ==> r.trace.log[i].refreshToken == p.refreshToken)
    && (forall i :: 0 <= i < |r.trace.log| && r.trace.log[i].Attempted? ==> r.trace.log[i].request == q)
    && (r.result.Ok? ==> |r.trace.log| > 0 && r.trace.log[|r.trace.log| - 1].Attempted?)
  }

  predicate IsInvalidAccessToken<T>(o: Outcome<T>) {
    o.Err? && o.error == InvalidAccessToken
  }

  /** `RetrieveNewToken`: one refresh call with the provider's refresh
      token; the returned token is stored, and on failure the provider is
      left as it was and the failure propagates. */
  function RetrieveNewToken<T>(p: TokenProvider, tr: Transport<T>, t: Trace): (r: Call<()>)
    ensures r.trace == t.AddRefresh(p.refreshToken)
    ensures r.provider.refreshToken == p.refreshToken
    ensures var answer := tr.refresh(t.refreshes, p.refreshToken);
      && (r.result.Ok? <==> answer.Ok?)
      && (answer.Ok? ==> r.provider == SetAccessToken(p, answer.value))
      && (answer.Err? ==> r.provider == p && r.result == Err(answer.error))
  {
    match tr.refresh(t.refreshes, p.refreshToken)
    case Ok(token) => Call(Ok(()), SetAccessToken(p, token), t.AddRefresh(p.refreshToken))
    case Err(e) => Call(Err(e), p, t.AddRefresh(p.refreshToken))
  }

  /** `ValidateAccessToken`: refreshes exactly when the provider reports no
      valid token. */
  function ValidateAccessToken<T>(hasNoValidAccessToken: bool, p: TokenProvider, tr: Transport<T>, t: Trace): (r: Call<()>)
    ensures !hasNoValidAccessToken ==> r == Call(Ok(()), p, t)
    ensures hasNoValidAccessToken ==> r.trace == t.AddRefresh(p.refreshToken)
    ensures hasNoValidAccessToken ==>
      var answer := tr.refresh(t.refreshes, p.refreshToken);
      && (answer.Ok? ==> r.result == Ok(()) && r.provider == SetAccessToken(p, answer.value))
      && (answer.Err? ==> r.result == Err(answer.error) && r.provider == p)
  {
    if hasNoValidAccessToken then RetrieveNewToken(p, tr, t) else Call(Ok(()), p, t)
  }

  /** One attempt with the token the provider holds now. */
  function Attempt<T>(q: HttpClient.Request, p: TokenProvider, tr: Transport<T>, t: Trace): Call<T> {
    Call(tr.call(q, t.attempts, GetAccessToken(p)), p, t.AddAttempt(q, GetAccessToken(p)))
  }

  /** The try/catch of every authenticated operation: only a rejected token
      is caught; it is followed by one refresh and one retry, whose outcome
      is final. */
  function AttemptWithRetry<T>(q: HttpClient.Request, p: TokenProvider, tr: Transport<T>, t: Trace): (r: Call<T>)
    ensures |r.trace.log| > |t.log| && r.trace.log[..|t.log|] == t.log
    ensures RetryShape(r.trace.log[|t.log|..])
    ensures r.trace.log[|t.log|] == Attempted(q, GetAccessToken(p))
    ensures r.trace.refreshes <= t.refreshes + 1 && r.trace.attempts <= t.attempts + 2
    ensures r.provider.refreshToken == p.refreshToken
    ensures forall i :: |t.log| <= i < |r.trace.log| && r.trace.log[i].Refreshed? ==> r.trace.log[i].refreshToken == p.refreshToken
    ensures forall i :: |t.log| <= i < |r.trace.log| && r.trace.log[i].Attempted? ==> r.trace.log[i].request == q
    ensures r.result.Ok? ==> r.trace.log[|r.trace.log| - 1].Attempted?
    ensures r.trace.refreshes + r.trace.attempts - |r.trace.log| == t.refreshes + t.attempts - |t.log|
    // Which of the three shapes happened, and what each one returns.
    ensures var first := tr.call(q, t.attempts, GetAccessToken(p));
      (|r.trace.log| == |t.log| + 1 <==> !IsInvalidAccessToken(first))
      && (|r.trace.log| == |t.log| + 1 ==> r == Call(first, p, t.AddAttempt(q, GetAccessToken(p))))
    ensures var token := tr.refresh(t.refreshes, p.refreshToken);
      |r.trace.log| == |t.log| + 2 ==> token.Err? && r.result == Err(token.error) && r.provider == p
    ensures var token := tr.refresh(t.refreshes, p.refreshToken);
      |r.trace.log| == |t.log| + 3 ==>
        && token.Ok?
        && r.provider == SetAccessToken(p, token.value)
        && r.trace.log[|t.log| + 2] == Attempted(q, Some(token.value.token))
        && r.result == tr.call(q, t.attempts + 1, Some(token.value.token))
  {
    var first := Attempt(q, p, tr, t);
    if !IsInvalidAccessToken(first.result) then
      first
    else
      var refreshed := RetrieveNewToken(first.provider, tr, first.trace);
      if refreshed.result.Err? then
        Call(Err(refreshed.result.error), refreshed.provider, refreshed.trace)
      else
        Attempt(q, refreshed.provider, tr, refreshed.trace)
  }

  /** Pre-flight check, then the guarded attempt. */
  function Guarded<T>(q: HttpClient.Request, hasNoValidAccessToken: bool, p: TokenProvider, tr: Transport<T>): (r: Call<T>)
    ensures GuardedShape(hasNoValidAccessToken, r.trace.log) && Disciplined(q, p, r)
    ensures r.trace.refreshes <= 2 && r.trace.attempts <= 2
  {
    var v := ValidateAccessToken(hasNoValidAccessToken, p, tr, NoCalls);
    if v.result.Err? then
      Call(Err(v.result.error), v.provider, v.trace)
    else
      AttemptWithRetry(q, v.provider, tr, v.trace)
  }

  /** The guarded attempt without the pre-flight check. */
  function Reactive<T>(q: HttpClient.Request, p: TokenProvider, tr: Transport<T>): (r: Call<T>)
    ensures ReactiveShape(r.trace.log) && Disciplined(q, p, r)
    ensures r.trace.refreshes <= 1 && r.trace.attempts <= 2
    ensures r.trace.log[0] == Attempted(q, GetAccessToken(p))
  {
    AttemptWithRetry(q, p, tr, NoCalls)
  }

  // The public operations. Each names its request and its token policy.

  /** `AnnounceMerchantOrder` (and its alias `Announce`). */
  function AnnounceMerchantOrder<T>(order: Order.MerchantOrder, hasNoValidAccessToken: bool, p: TokenProvider, tr: Transport<T>): (r: Call<T>)
    ensures GuardedShape(hasNoValidAccessToken, r.trace.log)
    ensures Disciplined(HttpClient.AnnounceMerchantOrder(order), p, r)
  {
    Guarded(HttpClient.AnnounceMerchantOrder(order), hasNoValidAccessToken, p, tr)
  }

  function RetrievePaymentBrands<T>(hasNoValidAccessToken: bool, p: TokenProvider, tr: Transport<T>): (r: Call<T>)
    ensures GuardedShape(hasNoValidAccessToken, r.trace.log)
    ensures Disciplined(HttpClient.RetrievePaymentBrands, p, r)
  {
    Guarded(HttpClient.RetrievePaymentBrands, hasNoValidAccessToken, p, tr)
  }

  function RetrieveIdealIssuers<T>(hasNoValidAccessToken: bool, p: TokenProvider, tr: Transport<T>): (r: Call<T>)
    ensures GuardedShape(hasNoValidAccessToken, r.trace.log)
    ensures Disciplined(HttpClient.RetrieveIdealIssuers, p, r)
  {
    Guarded(HttpClient.RetrieveIdealIssuers, hasNoValidAccessToken, p, tr)
  }

  function RetrieveShopperPaymentDetails<T>(shopperRef: NString, hasNoValidAccessToken: bool, p: TokenProvider, tr: Transport<T>): (r: Call<T>)
    ensures GuardedShape(hasNoValidAccessToken, r.trace.log)
    ensures Disciplined(HttpClient.GetShopperPaymentDetails(shopperRef), p, r)
  {
    Guarded(HttpClient.GetShopperPaymentDetails(shopperRef), hasNoValidAccessToken, p, tr)
  }

  function DeleteShopperPaymentDetail<T>(id: NString, shopperRef: NString, hasNoValidAccessToken: bool, p: TokenProvider, tr: Transport<T>): (r: Call<T>)
    ensures GuardedShape(hasNoValidAccessToken, r.trace.log)
    ensures Disciplined(HttpClient.DeleteShopperPaymentDetail(id, shopperRef), p, r)
  {
    Guarded(HttpClient.DeleteShopperPaymentDetail(id, shopperRef), hasNoValidAccessToken, p, tr)
  }

  function InitiateRefundTransaction<T>(refundRequest: HttpClient.InitiateRefundRequest, transactionId: HttpClient.Guid,
                                        requestId: HttpClient.Guid, p: TokenProvider, tr: Transport<T>): (r: Call<T>)
    ensures ReactiveShape(r.trace.log)
    ensures Disciplined(HttpClient.PostRefundRequest(refundRequest, transactionId, requestId), p, r)
  {
    Reactive(HttpClient.PostRefundRequest(refundRequest, transactionId, requestId), p, tr)
  }

  function FetchRefundTransaction<T>(transactionId: HttpClient.Guid, refundId: HttpClient.Guid, p: TokenProvider, tr: Transport<T>): (r: Call<T>)
    ensures ReactiveShape(r.trace.log)
    ensures Disciplined(HttpClient.GetRefundRequest(transactionId, refundId), p, r)
  {
    Reactive(HttpClient.GetRefundRequest(transactionId, refundId), p, tr)
  }

  function FetchRefundableTransactionDetails<T>(transactionId: HttpClient.Guid, p: TokenProvider, tr: Transport<T>): (r: Call<T>)
    ensures ReactiveShape(r.trace.log)
    ensures Disciplined(HttpClient.GetRefundableDetails(transactionId), p, r)
  {
    Reactive(HttpClient.GetRefundableDetails(transactionId), p, tr)
  }

  /** `RetrieveAnnouncement`: the notification's signature is checked with
      the client's signing key, then the order-status data is fetched once.
      No token handling at all. */
  function RetrieveAnnouncement<T>(client: HttpClient.OmniKassaHttpClient, notification: HttpClient.ApiNotification,
                                   check: HttpClient.SignatureCheck, p: TokenProvider, tr: Transport<T>): (r: Call<T>)
    ensures r.provider == p && r.trace.refreshes == 0 && r.trace.attempts == 0
    ensures !check(notification.signed, client.signingKey) ==> r.result == Err(SignatureMismatch) && r.trace.log == []
    ensures check(notification.signed, client.signingKey) ==>
      r.result == tr.orderStatusData(notification) && r.trace.log == [StatusRequested(notification)]
  {
    match HttpClient.ValidateSignature(notification.signed, client.signingKey, check)
    case Err(e) => Call(Err(e), p, NoCalls)
    case Ok(_) => Call(tr.orderStatusData(notification), p, Trace([StatusRequested(notification)], 0, 0))
  }

  // Properties of the protocol, for every request.

  /** With a token the provider reports valid, an attempt that is not
      rejected for its token is the only call: no refresh, one attempt with
      the provider's current token, and its outcome is returned. */
  lemma ValidTokenSingleAttempt<T>(q: HttpClient.Request, p: TokenProvider, tr: Transport<T>)
    requires !IsInvalidAccessToken(tr.call(q, 0, GetAccessToken(p)))
    ensures var r := Guarded(q, false, p, tr);
      && r.trace == Trace([Attempted(q, GetAccessToken(p))], 0, 1)
      && r.result == tr.call(q, 0, GetAccessToken(p))
      && r.provider == p
  {
  }

  /** Without a valid token, exactly one refresh precedes the first attempt,
      which uses the refreshed token; if that attempt is not rejected it is
      the only one. */
  lemma ExpiredTokenRefreshedFirst<T>(q: HttpClient.Request, p: TokenProvider, tr: Transport<T>)
    requires tr.refresh(0, p.refreshToken).Ok?
    requires !IsInvalidAccessToken(tr.call(q, 0, Some(tr.refresh(0, p.refreshToken).value.token)))
    ensures var token := tr.refresh(0, p.refreshToken).value;
      var r := Guarded(q, true, p, tr);
      && r.trace == Trace([Refreshed(p.refreshToken), Attempted(q, Some(token.token))], 1, 1)
      && r.result == tr.call(q, 0, Some(token.token))
      && r.provider == SetAccessToken(p, token)
  {
  }

  /** A rejected token is refreshed once and the attempt retried once with
      the token the refresh stored; the retry's outcome is final, even when
      it is another rejection. */
  lemma RejectedTokenRetriedOnce<T>(q: HttpClient.Request, p: TokenProvider, tr: Transport<T>)
    requires IsInvalidAccessToken(tr.call(q, 0, GetAccessToken(p)))
    requires tr.refresh(0, p.refreshToken).Ok?
    ensures var token := tr.refresh(0, p.refreshToken).value;
      var r := Guarded(q, false, p, tr);
      && r.trace == Trace([Attempted(q, GetAccessToken(p)), Refreshed(p.refreshToken), Attempted(q, Some(token.token))], 1, 2)
      && r.result == tr.call(q, 1, Some(token.token))
      && r.provider == SetAccessToken(p, token)
  {
  }

  /** Both refreshes in one call: the pre-flight one and the reactive one.
      This is the most calls any guarded operation makes. */
  lemma PreflightAndRetry<T>(q: HttpClient.Request, p: TokenProvider, tr: Transport<T>)
    requires tr.refresh(0, p.refreshToken).Ok? && tr.refresh(1, p.refreshToken).Ok?
    requires IsInvalidAccessToken(tr.call(q, 0, Some(tr.refresh(0, p.refreshToken).value.token)))
    ensures var first := tr.refresh(0, p.refreshToken).value;
      var second := tr.refresh(1, p.refreshToken).value;
      var r := Guarded(q, true, p, tr);
      && r.trace == Trace([Refreshed(p.refreshToken), Attempted(q, Some(first.token)),
                           Refreshed(p.refreshToken), Attempted(q, Some(second.token))], 2, 2)
      && r.result == tr.call(q, 1, Some(second.token))
      && r.provider == SetAccessToken(p, second)
  {
  }

  /** A failed refresh ends the call with its failure and leaves the
      provider as it was, whether it was the pre-flight or the reactive one. */
  lemma RefreshFailurePropagates<T>(q: HttpClient.Request, hasNoValidAccessToken: bool, p: TokenProvider, tr: Transport<T>)
    requires tr.refresh(0, p.refreshToken).Err?
    requires hasNoValidAccessToken || IsInvalidAccessToken(tr.call(q, 0, GetAccessToken(p)))
    ensures var r := Guarded(q, hasNoValidAccessToken, p, tr);
      && r.result == Err(tr.refresh(0, p.refreshToken).error)
      && r.provider == p
      && r.trace.refreshes == 1
      && r.trace.attempts == (if hasNoValidAccessToken then 0 else 1)
  {
  }

  /** A pre-flight refresh that succeeds, an attempt rejected with the new
      token, and a reactive refresh that fails: that failure is returned and
      the provider keeps the pre-flight token. */
  lemma ReactiveRefreshFailurePropagates<T>(q: HttpClient.Request, p: TokenProvider, tr: Transport<T>)
    requires tr.refresh(0, p.refreshToken).Ok? && tr.refresh(1, p.refreshToken).Err?
    requires IsInvalidAccessToken(tr.call(q, 0, Some(tr.refresh(0, p.refreshToken).value.token)))
    ensures var r := Guarded(q, true, p, tr);
      && r.result == Err(tr.refresh(1, p.refreshToken).error)
      && r.provider == SetAccessToken(p, tr.refresh(0, p.refreshToken).value)
      && r.trace.refreshes == 2 && r.trace.attempts == 1
  {
  }

  /** The refund operations attempt first and refresh only after a rejection. */
  lemma ReactiveRetriedOnce<T>(q: HttpClient.Request, p: TokenProvider, tr: Transport<T>)
    ensures var r := Reactive(q, p, tr);
      if !IsInvalidAccessToken(tr.call(q, 0, GetAccessToken(p))) then
        r.trace == Trace([Attempted(q, GetAccessToken(p))], 0, 1) && r.result == tr.call(q, 0, GetAccessToken(p))
      else if tr.refresh(0, p.refreshToken).Err? then
        r.trace.refreshes == 1 && r.trace.attempts == 1 && r.result == Err(tr.refresh(0, p.refreshToken).error)
      else
        && r.trace == Trace([Attempted(q, GetAccessToken(p)), Refreshed(p.refreshToken),
                             Attempted(q, Some(tr.refresh(0, p.refreshToken).value.token))], 1, 2)
        && r.result == tr.call(q, 1, Some(tr.refresh(0, p.refreshToken).value.token))
  {
  }

  /** The announce scenario: the first announce is rejected, the refresh with
      refresh token "rt-1" yields "at-2", and the retried announce succeeds;
      the caller gets that success and the provider now holds "at-2". */
  lemma AnnounceAfterRejection(order: Order.MerchantOrder, held: Option<AccessToken>, success: string)
    ensures var p := TokenProvider(held, "rt-1");
      var at2 := AccessToken("at-2", 3600, 3600000);
      var tr := Transport(
        (q: HttpClient.Request, n: nat, bearer: Option<string>) => if n == 0 then Err(InvalidAccessToken) else Ok(success),
        (n: nat, refreshToken: string) => if refreshToken == "rt-1" then Ok(at2) else Err(TransportFailure("revoked")),
        (notification: HttpClient.ApiNotification) => Err(TransportFailure("unused")));
      var r := AnnounceMerchantOrder(order, false, p, tr);
      && r.result == Ok(success)
      && GetAccessToken(r.provider) == Some("at-2")
      && r.trace.refreshes == 1 && r.trace.attempts == 2
  {
  }

  /** Reading a notification uses neither the token provider nor the
      authenticated transport: two endpoints that differ only in those
      answer it identically. */
  lemma AnnouncementIgnoresTokens<T>(client: HttpClient.OmniKassaHttpClient, notification: HttpClient.ApiNotification,
                                     check: HttpClient.SignatureCheck, p1: TokenProvider, p2: TokenProvider,
                                     tr1: Transport<T>, tr2: Transport<T>)
    requires tr1.orderStatusData == tr2.orderStatusData
    ensures RetrieveAnnouncement(client, notification, check, p1, tr1).result
         == RetrieveAnnouncement(client, notification, check, p2, tr2).result
    ensures RetrieveAnnouncement(client, notification, check, p1, tr1).trace
         == RetrieveAnnouncement(client, notification, check, p2, tr2).trace
  {
  }
}
