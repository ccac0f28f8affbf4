/**
 The realtime connection manager: one process-wide cached socket.io handle.

 The module-level `socket` variable becomes the `socket` field of an explicit
 `Cache` value threaded through the operations. The third-party `io(url,
 options)` constructor and `handle.disconnect()` are opaque, so each
 operation returns the list of calls it makes to them; `io` is modelled as
 handing out the next unused handle identity, kept in `nextId`.
 */
module Socket {
  import opened Wrappers
  import opened Credential

  /** The only transport a connection may use. */
  const WebSocketTransport: string := "websocket"

  /** The `auth` payload: `{}` or `{ token }`. */
  datatype Auth = EmptyAuth | TokenAuth(token: string)

  /** The options object handed to `io`. */
  datatype ConnectOptions = ConnectOptions(transports: seq<string>, auth: Auth)

  /** A connection handle as returned by `io`; `id` is its object identity. */
  datatype Handle = Handle(id: nat, url: string, options: ConnectOptions)

  /** A call into the realtime library. */
  datatype Call = Io(handle: Handle) | Disconnect(handle: Handle)

  /** The cached handle, and the identity the next `io` call will return. */
  datatype Cache = Cache(socket: Option<Handle>, nextId: nat)

  /** The state at page load: nothing cached, no connection ever opened. */
  const Initial: Cache := Cache(None, 0)

  /** The outcome of `getSocket`: new cache, the handle returned, calls made. */
  datatype GetOutcome = GetOutcome(cache: Cache, socket: Handle, calls: seq<Call>)

  /** The outcome of `disconnectSocket`: new cache, calls made. */
  datatype DisconnectOutcome = DisconnectOutcome(cache: Cache, calls: seq<Call>)

  /** The options of a new connection: websocket only, with the token as auth when it is truthy. */
  function OptionsFor(token: Option<string>): (o: ConnectOptions)
    ensures o.transports == [WebSocketTransport]
    ensures o.auth.TokenAuth? <==> Present(token)
    ensures o.auth.TokenAuth? ==> token == Some(o.auth.token)
  {
    ConnectOptions([WebSocketTransport], if Present(token) then TokenAuth(token.value) else EmptyAuth)
  }

  /**
   `getSocket`: a cached handle is returned as it is, with no call made and
   the token unused; otherwise exactly one connection is opened with the
   stored token, cached and returned.
   */
  function GetSocket(c: Cache, url: string, token: Option<string>): (r: GetOutcome)
    ensures c.socket.Some? ==> r.socket == c.socket.value && r.cache == c && r.calls == []
    ensures c.socket.None? ==> r.calls == [Io(r.socket)] && r.cache == Cache(Some(r.socket), c.nextId + 1)
    ensures c.socket.None? ==> r.socket == Handle(c.nextId, url, OptionsFor(token))
  {
    match c.socket
    case Some(h) => GetOutcome(c, h, [])
    case None =>
      var h := Handle(c.nextId, url, OptionsFor(token));
      GetOutcome(Cache(Some(h), c.nextId + 1), h, [Io(h)])
  }

  /**
   `disconnectSocket`: a cached handle is told to disconnect once and the cache
   is cleared; with nothing cached, nothing happens.
   */
  function DisconnectSocket(c: Cache): (r: DisconnectOutcome)
    ensures r.cache.socket.None? && r.cache.nextId == c.nextId
    ensures c.socket.Some? ==> r.calls == [Disconnect(c.socket.value)]
    ensures c.socket.None? ==> r.cache == c && r.calls == []
  {
    match c.socket
    case Some(h) => DisconnectOutcome(Cache(None, c.nextId), [Disconnect(h)])
    case None => DisconnectOutcome(c, [])
  }

  /**
   The identities `io` has handed out (`used`) all lie below `nextId`, and
   the cached handle, if any, is one of them.
   */
  ghost predicate Fresh(c: Cache, used: set<nat>) {
    && (forall id | id in used :: id < c.nextId)
    && (c.socket.Some? ==> c.socket.value.id in used)
  }

  /** Two `getSocket` calls with no disconnect between them return the same handle; the second makes no call. */
  lemma GetSocketIdempotent(c: Cache, url: string, token: Option<string>, url': string, token': Option<string>)
    ensures var first := GetSocket(c, url, token);
            var second := GetSocket(first.cache, url', token');
            second.socket == first.socket && second.cache == first.cache && second.calls == []
  {
  }

  /** With a handle cached, the stored token plays no part. */
  lemma CachedGetIgnoresToken(c: Cache, url: string, token1: Option<string>, token2: Option<string>)
    requires c.socket.Some?
    ensures GetSocket(c, url, token1) == GetSocket(c, url, token2)
  {
  }

  /** A second `disconnectSocket` changes nothing and calls nothing. */
  lemma DisconnectIdempotent(c: Cache)
    ensures var once := DisconnectSocket(c).cache;
            DisconnectSocket(once) == DisconnectOutcome(once, [])
  {
  }

  /** After a disconnect, the next `getSocket` opens a handle distinct from every handle opened before. */
  lemma ReconnectIsFresh(c: Cache, used: set<nat>, url: string, token: Option<string>)
    requires Fresh(c, used)
    ensures var r := GetSocket(DisconnectSocket(c).cache, url, token);
            && r.calls == [Io(r.socket)]
            && r.socket.id !in used
            && (c.socket.Some? ==> r.socket != c.socket.value)
  {
  }

  /** A use of the manager: `getSocket()` with the token then in storage, or `disconnectSocket()`. */
  datatype Op = Get(token: Option<string>) | Close

  /** The outcome of a sequence of uses: final cache, all calls in order, handles returned by each `Get`. */
  datatype RunOutcome = RunOutcome(cache: Cache, calls: seq<Call>, returned: seq<Handle>)

  /** Performs `ops` in order against the endpoint `url`. */
  function Run(c: Cache, url: string, ops: seq<Op>): (r: RunOutcome)
    decreases |ops|
  {
    if |ops| == 0 then RunOutcome(c, [], [])
    else match ops[0]
      case Get(token) =>
        var g := GetSocket(c, url, token);
        var rest := Run(g.cache, url, ops[1..]);
        RunOutcome(rest.cache, g.calls + rest.calls, [g.socket] + rest.returned)
      case Close =>
        var d := DisconnectSocket(c);
        var rest := Run(d.cache, url, ops[1..]);
        RunOutcome(rest.cache, d.calls + rest.calls, rest.returned)
  }

  /**
   A run of `getSocket` calls with no disconnect among them hands every
   caller one and the same handle: the one cached at the end.
   */
  lemma {:induction false} GetsShareHandle(c: Cache, url: string, ops: seq<Op>)
    requires |ops| > 0 && forall i | 0 <= i < |ops| :: ops[i].Get?
    ensures var r := Run(c, url, ops);
            && |r.returned| == |ops|
            && r.cache.socket.Some?
            && forall i | 0 <= i < |r.returned| :: r.returned[i] == r.cache.socket.value
    decreases |ops|
  {
    var r := Run(c, url, ops);
    var g := GetSocket(c, url, ops[0].token);
    var rest := Run(g.cache, url, ops[1..]);
    assert r.returned == [g.socket] + rest.returned;
    if |ops| == 1 {
      assert rest.cache == g.cache;
    } else {
      GetsShareHandle(g.cache, url, ops[1..]);
      assert rest.returned[0] == GetSocket(g.cache, url, ops[1].token).socket;
    }
  }

  /**
   The discipline the calls keep, given the handle currently live and the
   identities already used: `io` is called only when no connection is live
   and always yields an identity never seen before; `disconnect` is called
   only on the live handle, which is then no longer live. So at most one
   connection is live at any time and each is closed at most once.
   */
  ghost predicate Disciplined(live: Option<Handle>, used: set<nat>, calls: seq<Call>)
    decreases |calls|
  {
    if |calls| == 0 then true
    else match calls[0]
      case Io(h) =>
        live.None? && h.id !in used && Disciplined(Some(h), used + {h.id}, calls[1..])
      case Disconnect(h) =>
        live == Some(h) && Disciplined(None, used, calls[1..])
  }

  /** Every run of the manager, from a state whose used identities lie below `nextId`, keeps the discipline. */
  lemma {:induction false} RunDisciplined(c: Cache, used: set<nat>, url: string, ops: seq<Op>)
    requires Fresh(c, used)
    ensures Disciplined(c.socket, used, Run(c, url, ops).calls)
    decreases |ops|
  {
    if |ops| > 0 {
      var r := Run(c, url, ops);
      match ops[0]
      case Get(token) =>
        var g := GetSocket(c, url, token);
        var rest := Run(g.cache, url, ops[1..]);
        if c.socket.Some? {
          RunDisciplined(g.cache, used, url, ops[1..]);
          assert r.calls == rest.calls;
        } else {
          var h := g.socket;
          RunDisciplined(g.cache, used + {h.id}, url, ops[1..]);
          assert r.calls == [Io(h)] + rest.calls;
          assert r.calls[1..] == rest.calls;
        }
      case Close =>
        var d := DisconnectSocket(c);
        var rest := Run(d.cache, url, ops[1..]);
        RunDisciplined(d.cache, used, url, ops[1..]);
        if c.socket.Some? {
          assert r.calls == [Disconnect(c.socket.value)] + rest.calls;
          assert r.calls[1..] == rest.calls;
        } else {
          assert r.calls == rest.calls;
        }
    }
  }

  /** From page load, every sequence of uses keeps at most one live connection, each opened fresh and closed at most once. */
  lemma SingleLiveConnection(url: string, ops: seq<Op>)
    ensures Disciplined(None, {}, Run(Initial, url, ops).calls)
  {
    RunDisciplined(Initial, {}, url, ops);
  }
}
