/** The session-refresh interceptor (src/app/hooks/useRefreshToken.ts): the response handler
    that the private client runs on every rejected request.

    The backend is a script of replies, one per request in the order the requests leave; once
    the script is used up, requests get no response (a network error). `Call` and `Handle` are
    the specification, over a value `World`; `PrivateApi` is the same thing on objects, with
    request configs whose `_retry` mark is updated in place. */
module RefreshToken {
  import opened Wrappers
  import opened AuthContext
  import opened Reducers

  const RefreshUrl := "/auth/jwt/refresh/"
  const LogoutUrl := "/auth/logout/"

  datatype Client = PrivateClient | PublicClient

  /** A request as it leaves: the client, the URL, and the `_retry` mark its config held then. */
  datatype Sent = Sent(client: Client, url: string, retry: bool)

  /** A status axios rejects under its default `validateStatus`: anything outside 200-299. */
  type RejectedStatus = code: int | code < 200 || 300 <= code witness 401

  /** The backend's answer: a 2xx response, a response with another status, or none at all. */
  datatype Reply = Ok(body: string) | ErrorStatus(code: RejectedStatus) | NoResponse

  /** An axios rejection: its request (by position in the sent log and URL) and the reply.
      `error.response` exists exactly when the reply is an `ErrorStatus`. */
  datatype AxiosError = AxiosError(sentAt: nat, url: string, reply: Reply)

  datatype Settled = Resolved(body: string) | Rejected(error: AxiosError)

  datatype World = World(replies: seq<Reply>, sent: seq<Sent>, authActions: seq<AuthAction>)

  /** How a call through the private client ended, and the `_retry` mark its config ends with. */
  datatype Result = Result(settled: Settled, retry: bool, world: World)

  /** Which `_retry` mark the refresh request's own config starts with. The code as written
      gives it a fresh config (unmarked); `PreMarked` is the corrected variant (see README). */
  datatype RefreshPolicy = AsWritten | PreMarked

  function NextReply(replies: seq<Reply>): Reply {
    if |replies| > 0 then replies[0] else NoResponse
  }

  function Remaining(replies: seq<Reply>): (r: seq<Reply>)
    ensures |replies| > 0 ==> |r| == |replies| - 1
    ensures |replies| == 0 ==> r == []
  {
    if |replies| > 0 then replies[1..] else []
  }

  /** One request on the wire: it takes the next reply and is appended to the sent log. */
  function Transmit(w: World, client: Client, url: string, retry: bool): World {
    w.(replies := Remaining(w.replies), sent := w.sent + [Sent(client, url, retry)])
  }

  /** The condition under which the handler refreshes: a response, status 401, not yet retried. */
  predicate FirstUnauthorized(error: AxiosError, retry: bool) {
    error.reply.ErrorStatus? && error.reply.code == 401 && !retry
  }

  /** `privateApi(config)`: send the request, pass a 2xx response through unchanged, and hand
      anything else to the response-error handler. */
  function Call(url: string, retry: bool, w: World, policy: RefreshPolicy): (res: Result)
    ensures |res.world.replies| <= |w.replies|
    ensures w.sent < res.world.sent && res.world.sent[|w.sent|] == Sent(PrivateClient, url, retry)
    ensures w.authActions <= res.world.authActions
    ensures retry ==> res.retry
    decreases 2 * |w.replies| + 1
  {
    var reply := NextReply(w.replies);
    var w1 := Transmit(w, PrivateClient, url, retry);
    if reply.Ok? then Result(Resolved(reply.body), retry, w1)
    else
      var res := Handle(AxiosError(|w.sent|, url, reply), retry, w1, policy);
      assert w1.sent[|w.sent|] == Sent(PrivateClient, url, retry);
      res
  }

  /** The interceptor's error handler, for an error of a request whose config holds `retry`. */
  function Handle(error: AxiosError, retry: bool, w: World, policy: RefreshPolicy): (res: Result)
    ensures |res.world.replies| <= |w.replies|
    ensures w.sent <= res.world.sent
    ensures w.authActions <= res.world.authActions
    ensures retry ==> res.retry
    decreases 2 * |w.replies| + (if error.reply.ErrorStatus? then 2 else 0)
  {
    if FirstUnauthorized(error, retry) then
      var refreshed := Call(RefreshUrl, policy == PreMarked, w, policy);
      if refreshed.settled.Resolved? then
        var replay := Call(error.url, true, refreshed.world, policy);
        Result(replay.settled, true, replay.world)
      else
        var w2 := refreshed.world;
        var logout := NextReply(w2.replies);
        var w3 := Transmit(w2, PublicClient, LogoutUrl, false);
        if logout.Ok? then
          Result(Rejected(error), true, w3.(authActions := w3.authActions + [RemoveUser]))
        else
          Result(Rejected(AxiosError(|w2.sent|, LogoutUrl, logout)), true, w3)
    else
      Result(Rejected(error), retry, w)
  }

  /** A 2xx response resolves the call with its body, after exactly one request. */
  lemma SuccessPassesThrough(url: string, retry: bool, w: World, policy: RefreshPolicy)
    requires NextReply(w.replies).Ok?
    ensures Call(url, retry, w, policy)
         == Result(Resolved(NextReply(w.replies).body), retry, Transmit(w, PrivateClient, url, retry))
  {
  }

  /** With no response, a status other than 401, or `_retry` already set, the handler rejects
      with the very error it got, sends nothing and dispatches nothing. */
  lemma OtherErrorsForwarded(error: AxiosError, retry: bool, w: World, policy: RefreshPolicy)
    requires !error.reply.ErrorStatus? || error.reply.code != 401 || retry
    ensures Handle(error, retry, w, policy) == Result(Rejected(error), retry, w)
  {
  }

  /** A request already marked `_retry` is sent once and settles with its own reply, whatever
      it is: a 401 on a replay is rejected without another refresh. */
  lemma MarkedRequestSentOnce(url: string, w: World, policy: RefreshPolicy)
    ensures var res := Call(url, true, w, policy);
      && res.world.sent == w.sent + [Sent(PrivateClient, url, true)]
      && res.world.authActions == w.authActions
      && res.retry
      && res.settled == (if NextReply(w.replies).Ok? then Resolved(NextReply(w.replies).body)
                         else Rejected(AxiosError(|w.sent|, url, NextReply(w.replies))))
  {
    var reply := NextReply(w.replies);
    if !reply.Ok? {
      OtherErrorsForwarded(AxiosError(|w.sent|, url, reply), true, Transmit(w, PrivateClient, url, true), policy);
    }
  }

  /** The 401 branch of `Handle`, read off as the order of requests and dispatches it produces.
      On the first 401 the config is marked `_retry` and the handler's first request is the
      refresh POST through the private client. If the refresh resolved, the call ends as the
      replay of the same request, now marked; otherwise the next request is a logout POST
      through the public client. After a successful logout REMOVE_USER is dispatched and the
      rejection is the original error, not the refresh's; if the logout itself fails, its error
      is the rejection and nothing is dispatched. How many refreshes this branch can cause in
      all is the subject of `NestedRefreshes`, `RefreshStorm` and `GuardedRefreshAtMostOnce`. */
  lemma FirstUnauthorizedRefreshes(error: AxiosError, w: World, policy: RefreshPolicy)
    requires FirstUnauthorized(error, false)
    ensures var res := Handle(error, false, w, policy);
      var refreshed := Call(RefreshUrl, policy == PreMarked, w, policy);
      var w2 := refreshed.world;
      && res.retry
      && res.world.sent[|w.sent|] == Sent(PrivateClient, RefreshUrl, policy == PreMarked)
      && (refreshed.settled.Resolved? ==>
            && res.settled == Call(error.url, true, w2, policy).settled
            && res.world.sent[|w2.sent|] == Sent(PrivateClient, error.url, true))
      && (refreshed.settled.Rejected? ==>
            && res.world.sent == w2.sent + [Sent(PublicClient, LogoutUrl, false)]
            && (NextReply(w2.replies).Ok? ==>
                  res.settled == Rejected(error) && res.world.authActions == w2.authActions + [RemoveUser])
            && (!NextReply(w2.replies).Ok? ==>
                  res.settled == Rejected(AxiosError(|w2.sent|, LogoutUrl, NextReply(w2.replies)))
                  && res.world.authActions == w2.authActions))
  {
  }

  /** The number of refresh requests in a stretch of the sent log. */
  function RefreshCount(sent: seq<Sent>): nat {
    if sent == [] then 0
    else (if sent[0] == Sent(PrivateClient, RefreshUrl, sent[0].retry) then 1 else 0) + RefreshCount(sent[1..])
  }

  lemma {:induction false} RefreshCountAppend(a: seq<Sent>, b: seq<Sent>)
    ensures RefreshCount(a + b) == RefreshCount(a) + RefreshCount(b)
  {
    if a == [] {
      assert a + b == b;
    } else {
      assert (a + b)[0] == a[0];
      assert (a + b)[1..] == a[1..] + b;
      RefreshCountAppend(a[1..], b);
    }
  }

  lemma RefreshCountOne(s: Sent)
    ensures RefreshCount([s]) == (if s.client == PrivateClient && s.url == RefreshUrl then 1 else 0)
  {
    assert [s][1..] == [];
  }

  /** A backend that answers every one of its first `n` requests with 401. */
  function Unauthorized(n: nat): (r: seq<Reply>)
    ensures |r| == n && forall i :: 0 <= i < n ==> r[i] == ErrorStatus(401)
  {
    seq(n, _ => ErrorStatus(401))
  }

  /** As written, a refresh request that gets a 401 is itself intercepted and refreshed again:
      against `k` 401s the refresh sends `k + 1` refresh requests. */
  lemma {:induction false} NestedRefreshes(k: nat, w: World)
    requires w.replies == Unauthorized(k)
    ensures var res := Call(RefreshUrl, false, w, AsWritten);
      && res.settled.Rejected?
      && res.world.replies == []
      && res.world.authActions == w.authActions
      && RefreshCount(res.world.sent[|w.sent|..]) == k + 1
  {
    var res := Call(RefreshUrl, false, w, AsWritten);
    var e := AxiosError(|w.sent|, RefreshUrl, NextReply(w.replies));
    var w1 := Transmit(w, PrivateClient, RefreshUrl, false);
    assert w1.sent[|w.sent|..] == [Sent(PrivateClient, RefreshUrl, false)];
    RefreshCountOne(Sent(PrivateClient, RefreshUrl, false));
    assert res == Handle(e, false, w1, AsWritten);
    if k == 0 {
      assert e.reply == NoResponse;
      assert Handle(e, false, w1, AsWritten) == Result(Rejected(e), false, w1);
    } else {
      assert w1.replies == Unauthorized(k - 1);
      var inner := Call(RefreshUrl, false, w1, AsWritten);
      NestedRefreshes(k - 1, w1);
      var w2 := inner.world;
      var w3 := Transmit(w2, PublicClient, LogoutUrl, false);
      assert e.reply == ErrorStatus(401);
      assert NextReply(w2.replies) == NoResponse;
      assert Handle(e, false, w1, AsWritten) == Result(Rejected(AxiosError(|w2.sent|, LogoutUrl, NoResponse)), true, w3);
      assert w3.sent[|w.sent|..] == w1.sent[|w.sent|..] + w2.sent[|w1.sent|..] + [Sent(PublicClient, LogoutUrl, false)];
      RefreshCountAppend(w1.sent[|w.sent|..] + w2.sent[|w1.sent|..], [Sent(PublicClient, LogoutUrl, false)]);
      RefreshCountAppend(w1.sent[|w.sent|..], w2.sent[|w1.sent|..]);
      RefreshCountOne(Sent(PublicClient, LogoutUrl, false));
    }
  }

  /** The defect: when the refresh endpoint answers 401 (an expired refresh token), one request
      that got a 401 leads to `n + 1` refresh requests against `n + 1` such answers, so no bound
      on refreshes per request exists. Against an endpoint that answers 401 forever the call
      never settles, which a finite script cannot show. Here the backend answers nothing after
      the 401s, the logouts included, so no REMOVE_USER is dispatched; that is the script's
      doing, not the nesting's (see `EachLevelLogsOut`). */
  lemma {:induction false} RefreshStorm(url: string, n: nat)
    requires url != RefreshUrl
    ensures var res := Call(url, false, World(Unauthorized(n + 1), [], []), AsWritten);
      && res.settled.Rejected?
      && res.world.authActions == []
      && RefreshCount(res.world.sent) == n + 1
  {
    var w := World(Unauthorized(n + 1), [], []);
    var w1 := Transmit(w, PrivateClient, url, false);
    assert w1.replies == Unauthorized(n);
    NestedRefreshes(n, w1);
    var inner := Call(RefreshUrl, false, w1, AsWritten);
    var w2 := inner.world;
    var w3 := Transmit(w2, PublicClient, LogoutUrl, false);
    var res := Call(url, false, w, AsWritten);
    var e := AxiosError(0, url, ErrorStatus(401));
    assert NextReply(w.replies) == ErrorStatus(401);
    assert res == Handle(e, false, w1, AsWritten);
    assert NextReply(w2.replies) == NoResponse;
    assert res.world == w3;
    assert w3.sent == w1.sent + w2.sent[|w1.sent|..] + [Sent(PublicClient, LogoutUrl, false)];
    RefreshCountAppend(w1.sent + w2.sent[|w1.sent|..], [Sent(PublicClient, LogoutUrl, false)]);
    RefreshCountAppend(w1.sent, w2.sent[|w1.sent|..]);
    RefreshCountOne(Sent(PublicClient, LogoutUrl, false));
    assert w1.sent == [Sent(PrivateClient, url, false)];
    RefreshCountOne(Sent(PrivateClient, url, false));
  }

  /** An expired session: the request and its refresh get 401, the nested refresh gets no
      response, and both logouts are answered. */
  const ExpiredSessionReplies: seq<Reply> := [ErrorStatus(401), ErrorStatus(401), NoResponse, Ok(""), Ok("")]

  /** When the logouts are answered, each nested refresh that fails logs out on its own: one
      request, two 401s and then a refresh without response lead to two refreshes, two logouts
      and two REMOVE_USER dispatches, and the call rejects with its own 401. */
  lemma EachLevelLogsOut(url: string)
    requires url != RefreshUrl
    ensures var res := Call(url, false, World(ExpiredSessionReplies, [], []), AsWritten);
      && res.settled == Rejected(AxiosError(0, url, ErrorStatus(401)))
      && res.world.authActions == [RemoveUser, RemoveUser]
      && res.world.sent == [Sent(PrivateClient, url, false), Sent(PrivateClient, RefreshUrl, false),
                            Sent(PrivateClient, RefreshUrl, false), Sent(PublicClient, LogoutUrl, false),
                            Sent(PublicClient, LogoutUrl, false)]
  {
    var w0 := World(ExpiredSessionReplies, [], []);
    var w1 := Transmit(w0, PrivateClient, url, false);
    var e1 := AxiosError(0, url, ErrorStatus(401));
    assert Call(url, false, w0, AsWritten) == Handle(e1, false, w1, AsWritten);
    // The first refresh gets the second 401 and is itself refreshed.
    var w2 := Transmit(w1, PrivateClient, RefreshUrl, false);
    var e2 := AxiosError(1, RefreshUrl, ErrorStatus(401));
    assert Call(RefreshUrl, false, w1, AsWritten) == Handle(e2, false, w2, AsWritten);
    // The nested refresh gets no response and is rejected as it is.
    var w3 := Transmit(w2, PrivateClient, RefreshUrl, false);
    var e3 := AxiosError(2, RefreshUrl, NoResponse);
    assert Call(RefreshUrl, false, w2, AsWritten) == Handle(e3, false, w3, AsWritten);
    assert Handle(e3, false, w3, AsWritten) == Result(Rejected(e3), false, w3);
    // The inner level logs out, then the outer one.
    var w4 := Transmit(w3, PublicClient, LogoutUrl, false);
    assert NextReply(w3.replies) == Ok("");
    var inner := Handle(e2, false, w2, AsWritten);
    assert inner == Result(Rejected(e2), true, w4.(authActions := [RemoveUser]));
    var w5 := Transmit(inner.world, PublicClient, LogoutUrl, false);
    assert NextReply(inner.world.replies) == Ok("");
    assert Handle(e1, false, w1, AsWritten) == Result(Rejected(e1), true, w5.(authActions := [RemoveUser, RemoveUser]));
  }

  /** Corrected: with the refresh request pre-marked, any request leads to at most one refresh
      and at most three requests in all (itself, the refresh, and the replay or the logout). */
  lemma GuardedRefreshAtMostOnce(url: string, retry: bool, w: World)
    requires url != RefreshUrl
    ensures var res := Call(url, retry, w, PreMarked);
      && |res.world.sent| <= |w.sent| + 3
      && RefreshCount(res.world.sent[|w.sent|..]) <= 1
  {
    var res := Call(url, retry, w, PreMarked);
    var reply := NextReply(w.replies);
    var w1 := Transmit(w, PrivateClient, url, retry);
    var e := AxiosError(|w.sent|, url, reply);
    RefreshCountOne(Sent(PrivateClient, url, retry));
    assert w1.sent[|w.sent|..] == [Sent(PrivateClient, url, retry)];
    if !reply.Ok? && FirstUnauthorized(e, retry) {
      MarkedRequestSentOnce(RefreshUrl, w1, PreMarked);
      var refreshed := Call(RefreshUrl, true, w1, PreMarked);
      var w2 := refreshed.world;
      assert res == Handle(e, retry, w1, PreMarked);
      var tail: Sent;
      if refreshed.settled.Resolved? {
        MarkedRequestSentOnce(url, w2, PreMarked);
        var replay := Call(url, true, w2, PreMarked);
        assert res.world == replay.world;
        tail := Sent(PrivateClient, url, true);
      } else {
        assert res.world.sent == Transmit(w2, PublicClient, LogoutUrl, false).sent;
        tail := Sent(PublicClient, LogoutUrl, false);
      }
      assert res.world.sent == w2.sent + [tail];
      assert res.world.sent[|w.sent|..]
          == [Sent(PrivateClient, url, retry)] + [Sent(PrivateClient, RefreshUrl, true)] + [tail];
      RefreshCountAppend([Sent(PrivateClient, url, retry)] + [Sent(PrivateClient, RefreshUrl, true)], [tail]);
      RefreshCountAppend([Sent(PrivateClient, url, retry)], [Sent(PrivateClient, RefreshUrl, true)]);
      RefreshCountOne(Sent(PrivateClient, RefreshUrl, true));
      RefreshCountOne(tail);
    } else if !reply.Ok? {
      OtherErrorsForwarded(e, retry, w1, PreMarked);
    }
  }

  /** A request config; axios hands the same object to the handler as `error.config`. */
  class RequestConfig {
    const url: string
    var retry: bool

    constructor (url: string, retry: bool)
      ensures this.url == url && this.retry == retry
    {
      this.url := url;
      this.retry := retry;
    }
  }

  /** The backend as seen from the browser: the replies still to come and the requests sent. */
  class Backend {
    var replies: seq<Reply>
    var sent: seq<Sent>

    constructor (replies: seq<Reply>)
      ensures this.replies == replies && sent == []
    {
      this.replies := replies;
      sent := [];
    }

    method Transmit(client: Client, url: string, retry: bool) returns (reply: Reply)
      modifies this
      ensures reply == NextReply(old(replies))
      ensures replies == Remaining(old(replies))
      ensures sent == old(sent) + [Sent(client, url, retry)]
    {
      reply := NextReply(replies);
      replies := Remaining(replies);
      sent := sent + [Sent(client, url, retry)];
    }
  }

  /** `privateApi` with one handler of `useRefreshToken` registered on it. The handler's
      `dispatch` is the one its `useAuthContext()` found: the session store's (`store`), or, for
      the handler AuthContextProvider registers above its own context provider, the
      `createContext` default, whose dispatch does nothing (`store == null`). `dispatchCalls` is
      every dispatch the handler made, whichever store received it. With `policy == AsWritten`
      it is the code as written; with `PreMarked` the refresh request's config starts marked. */
  class PrivateApi {
    const backend: Backend
    const store: AuthProvider?
    const policy: RefreshPolicy
    var dispatchCalls: seq<AuthAction>

    constructor (backend: Backend, store: AuthProvider?, policy: RefreshPolicy)
      ensures this.backend == backend && this.store == store && this.policy == policy
      ensures dispatchCalls == []
    {
      this.backend := backend;
      this.store := store;
      this.policy := policy;
      dispatchCalls := [];
    }

    ghost predicate Valid()
      reads this, store
    {
      store != null ==> store.Valid()
    }

    ghost function Snapshot(): World
      reads this, backend
    {
      World(backend.replies, backend.sent, dispatchCalls)
    }

    /** `privateApi(config)`. The session store, when the handler reaches one, receives exactly
        the dispatches the handler made. */
    method Request(config: RequestConfig) returns (settled: Settled)
      requires Valid()
      modifies backend, this, store, config
      ensures Valid()
      ensures Result(settled, config.retry, Snapshot()) == Call(config.url, old(config.retry), old(Snapshot()), policy)
      ensures store != null ==> store.dispatched == old(store.dispatched) + dispatchCalls[|old(dispatchCalls)|..]
      decreases 2 * |backend.replies| + 1
    {
      var at := |backend.sent|;
      var reply := backend.Transmit(PrivateClient, config.url, config.retry);
      if reply.Ok? {
        return Resolved(reply.body);
      }
      settled := OnRejected(AxiosError(at, config.url, reply), config);
    }

    /** The response-error handler, with `originalRequest` the rejected request's config. */
    method OnRejected(error: AxiosError, originalRequest: RequestConfig) returns (settled: Settled)
      requires Valid()
      requires error.url == originalRequest.url
      modifies backend, this, store, originalRequest
      ensures Valid()
      ensures Result(settled, originalRequest.retry, Snapshot())
           == Handle(error, old(originalRequest.retry), old(Snapshot()), policy)
      ensures store != null ==> store.dispatched == old(store.dispatched) + dispatchCalls[|old(dispatchCalls)|..]
      decreases 2 * |backend.replies| + (if error.reply.ErrorStatus? then 2 else 0)
    {
      if error.reply.ErrorStatus? && error.reply.code == 401 && !originalRequest.retry {
        originalRequest.retry := true;
        var refreshRequest := new RequestConfig(RefreshUrl, policy == PreMarked);
        var refreshed := Request(refreshRequest);
        if refreshed.Resolved? {
          settled := Request(originalRequest);
          return;
        }
        var at := |backend.sent|;
        var logout := backend.Transmit(PublicClient, LogoutUrl, false);
        if !logout.Ok? {
          return Rejected(AxiosError(at, LogoutUrl, logout));
        }
        dispatchCalls := dispatchCalls + [RemoveUser];
        if store != null {
          store.Dispatch(RemoveUser);
        }
      }
      settled := Rejected(error);
    }
  }

  /** The session as the code leaves it. AuthContextProvider registers its handler above its
      own context provider, so that handler, first in the chain for every request, dispatches
      into the `createContext` default (`store == null`). After an expired session's refresh
      fails, the handler issues REMOVE_USER twice, and the signed-in user stays in the store. */
  method ExpiredSessionAsWritten(session: AuthProvider, url: string) returns (settled: Settled, issued: seq<AuthAction>)
    requires session.Valid() && session.state.user.Some?
    requires url != RefreshUrl
    ensures settled == Rejected(AxiosError(0, url, ErrorStatus(401)))
    ensures issued == [RemoveUser, RemoveUser]
    ensures session.Valid() && session.state.user.Some?
  {
    var backend := new Backend(ExpiredSessionReplies);
    var api := new PrivateApi(backend, null, AsWritten);
    var config := new RequestConfig(url, false);
    settled := api.Request(config);
    EachLevelLogsOut(url);
    issued := api.dispatchCalls;
  }

  /** The intended session: with the handler connected to the session store, the same expired
      session ends signed out and no longer loading. */
  method ExpiredSessionConnected(session: AuthProvider, url: string) returns (settled: Settled)
    requires session.Valid()
    requires url != RefreshUrl
    modifies session
    ensures settled == Rejected(AxiosError(0, url, ErrorStatus(401)))
    ensures session.Valid() && session.state.user.None? && !session.state.loading
    ensures session.dispatched == old(session.dispatched) + [RemoveUser, RemoveUser]
  {
    var backend := new Backend(ExpiredSessionReplies);
    var api := new PrivateApi(backend, session, AsWritten);
    var config := new RequestConfig(url, false);
    ghost var d0 := session.dispatched;
    ghost var s0 := session.state;
    settled := api.Request(config);
    EachLevelLogsOut(url);
    assert api.dispatchCalls == [RemoveUser, RemoveUser];
    assert api.dispatchCalls[0..] == [RemoveUser, RemoveUser];
    FoldAppend(AuthContext.Reduce, AuthContext.InitialState, d0, [RemoveUser, RemoveUser]);
    FoldPair(AuthContext.Reduce, s0, RemoveUser, RemoveUser);
  }
}
