/** The generic connection and message engine (`Server[T]`), run as a
    sequential interleaving of its goroutines.

    Each goroutine kind is a step method that consumes the outcomes the
    transport delivers to it (accepted or failed connections and streams,
    stream contents, codec results). The callbacks the application plugs in
    are not run: each invocation is appended to `trace`, together with what
    the callback would observe of the registry. Ghost fields count the
    goroutines that exist, and `Valid()` ties them to the wait-group counter
    and to the registry. */
module Engine {
  import opened Wire
  import Tick

  /** An opaque handle to one transport connection (a `*quic.Conn`).
      A connection the listener accepts is a newly allocated object. */
  class Connection {
    constructor () {}
  }

  /** The error a blocking accept returns. A cancelled server context
      arrives here too: there is no separate shutdown cause. */
  datatype Cause = ContextCanceled | TransportError(reason: string)

  /** What one `Accept` or `AcceptStream` call returns. */
  datatype AcceptOutcome = Accepted | Failed(cause: Cause)

  /** What delivering one broadcast to one connection came to. */
  datatype Delivery = OpenFailed | WriteFailed | Written

  /** One delivery attempt of `Broadcast`. */
  datatype Attempt = Attempt(conn: Connection, data: seq<Byte>, result: Delivery)

  /** One invocation of an application callback, or the close of an inbound
      stream. `lookup` is what `GetClientByConn` returns for the connection
      while the callback runs. */
  datatype Event<C> =
    | Connect(client: C, lookup: Option<C>)
    | Disconnect(client: C, cause: Cause, lookup: Option<C>)
    | Dispatch(client: C, msg: Message)
    | TickFired
    | StreamClosed(client: C)

  /** How a run of `tickLoop` ends: the ticker constructor panicked (an
      unrecovered panic that ends the whole process), the loop returned, or
      it is still waiting for the next tick. */
  datatype TickEnd = TickerPanic | Returned | Waiting

  /** Why `New` does not return a server. */
  datatype NewError = ListenFailed | DivideByZeroPanic

  datatype NewResult<C(==)> = Created(server: Server<C>) | NotCreated(error: NewError)

  /** Index of the first failed accept, or `|outs|` if none failed. */
  function FirstFailure(outs: seq<AcceptOutcome>): (k: nat)
    ensures k <= |outs|
    ensures forall i :: 0 <= i < k ==> outs[i].Accepted?
    ensures k < |outs| ==> outs[k].Failed?
  {
    if outs == [] || outs[0].Failed? then 0 else 1 + FirstFailure(outs[1..])
  }

  /** Number of successful accepts in `outs`. */
  function CountAccepted(outs: seq<AcceptOutcome>): (n: nat)
    ensures n <= |outs|
  {
    if outs == [] then 0 else (if outs[0].Accepted? then 1 else 0) + CountAccepted(outs[1..])
  }

  /** What one run of `acceptLoop` over `outs` does: the number of
      connections it hands to `handleConnection`, and whether it returns. */
  datatype AcceptSummary = AcceptSummary(spawned: nat, returned: bool)

  function AcceptRun(outs: seq<AcceptOutcome>, cancelled: bool): (r: AcceptSummary)
    // an accept error before cancellation is skipped and the loop goes on
    ensures !cancelled ==> !r.returned && r.spawned == CountAccepted(outs)
    // after cancellation the first accept error ends the loop
    ensures cancelled ==> r.returned == (FirstFailure(outs) < |outs|) && r.spawned == FirstFailure(outs)
  {
    if outs == [] then AcceptSummary(0, false)
    else match outs[0]
      case Accepted =>
        var rest := AcceptRun(outs[1..], cancelled);
        rest.(spawned := rest.spawned + 1)
      case Failed(_) =>
        if cancelled then AcceptSummary(0, true) else AcceptRun(outs[1..], cancelled)
  }

  /** `n` copies of `x`. */
  function Copies<T>(x: T, n: nat): (m: multiset<T>)
    ensures |m| == n
    ensures forall y :: y in m ==> y == x
  {
    if n == 0 then multiset{} else Copies(x, n - 1) + multiset{x}
  }

  lemma RemoveKeyCard<K, V>(m: map<K, V>, k: K)
    ensures |m - {k}| == if k in m then |m| - 1 else |m|
  {
    assert (m - {k}).Keys == m.Keys - {k};
    if k in m {
      assert m.Keys == (m.Keys - {k}) + {k};
    }
  }

  /** `New`: listening may fail; the tick period divides one second by the
      tick rate, which panics when the rate is zero. */
  method New<C(==)>(tickRate: int, listenOk: bool, factory: Connection -> C) returns (r: NewResult<C>)
    ensures !listenOk ==> r == NotCreated(ListenFailed)
    ensures listenOk && tickRate == 0 ==> r == NotCreated(DivideByZeroPanic)
    ensures r.Created? <==> listenOk && tickRate != 0
    ensures r.Created? ==>
      && fresh(r.server) && r.server.Valid() && r.server.Idle()
      && Tick.TickPeriod(tickRate) == Some(r.server.tps)
      && r.server.clientFactory == factory
      && !r.server.hasOnConn && !r.server.hasOnDisc && !r.server.hasOnMsg && !r.server.hasTickFn
      && r.server.trace == [] && !r.server.cancelled
  {
    if !listenOk {
      return NotCreated(ListenFailed);
    }
    var period := Tick.TickPeriod(tickRate);
    if period.None? {
      return NotCreated(DivideByZeroPanic);
    }
    var s := new Server(period.value, factory);
    r := Created(s);
  }

  class Server<C(==)> {
    /** Tick period in nanoseconds. */
    const tps: int
    var clientFactory: Connection -> C
    /** Which callback slots are set (a nil slot is skipped). */
    var hasOnConn: bool
    var hasOnDisc: bool
    var hasOnMsg: bool
    var hasTickFn: bool

    /** The registry `conns`: connection to client. `Range` visits its
        entries in no order the program relies on. */
    var conns: map<Connection, C>

    /** Whether the server context has been cancelled. */
    var cancelled: bool
    /** The `sync.WaitGroup` counter. */
    var wg: int
    /** Callback invocations and stream closes, in order. */
    var trace: seq<Event<C>>

    /** Live goroutines: accept loops, tick loops, `handleConnection` calls
        that have not yet run the factory, `handleConnection` calls inside
        their stream-accept loop (with the client they hold), and
        `handleStream` workers (by the client they are bound to). */
    ghost var acceptLoops: nat
    ghost var tickLoops: nat
    ghost var starting: set<Connection>
    ghost var handlers: map<Connection, C>
    ghost var streams: multiset<C>

    ghost predicate Valid()
      reads this
    {
      // the registry holds exactly the connections whose handler is in its
      // stream-accept loop, each with that handler's client
      && conns == handlers
      && starting !! handlers.Keys
      // every live goroutine was counted by one wg.Add(1)
      && wg == acceptLoops + tickLoops + |starting| + |handlers| + |streams|
    }

    /** No goroutine is alive. */
    ghost predicate Idle()
      reads this
    {
      acceptLoops == 0 && tickLoops == 0 && starting == {} && handlers == map[] && streams == multiset{}
    }

    constructor (period: int, factory: Connection -> C)
      ensures Valid() && Idle()
      ensures tps == period && clientFactory == factory
      ensures !hasOnConn && !hasOnDisc && !hasOnMsg && !hasTickFn
      ensures conns == map[] && wg == 0 && trace == [] && !cancelled
    {
      tps := period;
      clientFactory := factory;
      hasOnConn, hasOnDisc, hasOnMsg, hasTickFn := false, false, false, false;
      conns := map[];
      cancelled, wg, trace := false, 0, [];
      acceptLoops, tickLoops, starting, handlers, streams := 0, 0, {}, map[], multiset{};
    }

    /** `Start`: a fresh context, then one wg.Add(1) per loop it spawns. */
    method Start()
      requires Valid()
      modifies this`cancelled, this`wg, this`acceptLoops, this`tickLoops
      ensures Valid()
      ensures !cancelled
      ensures acceptLoops == old(acceptLoops) + 1 && tickLoops == old(tickLoops) + 1
      ensures wg == old(wg) + 2
    {
      cancelled := false;
      wg := wg + 1;
      acceptLoops := acceptLoops + 1;
      wg := wg + 1;
      tickLoops := tickLoops + 1;
    }

    /** `Stop`: cancels the context (and closes the listener). Its
        `wg.Wait()` returns once `wg` is zero; see `QuiescentIffIdle`. */
    method Stop()
      modifies this`cancelled
      ensures cancelled
    {
      cancelled := true;
    }

    /** `wg.Wait()` returns exactly when every goroutine has exited, and
        then the registry is empty. */
    lemma QuiescentIffIdle()
      requires Valid()
      ensures wg == 0 <==> Idle()
      ensures wg == 0 ==> conns == map[]
    {
    }

    /** `GetClients`: one element per registry entry, in whatever order
        `Range` visits them. `keys` is that visiting order. */
    method GetClients() returns (clients: seq<C>, ghost keys: seq<Connection>)
      ensures |clients| == |keys| == |conns|
      ensures forall i, j :: 0 <= i < j < |keys| ==> keys[i] != keys[j]
      ensures forall k :: k in keys <==> k in conns
      ensures forall i :: 0 <= i < |keys| ==> keys[i] in conns && clients[i] == conns[keys[i]]
    {
      clients, keys := [], [];
      var left := conns.Keys;
      while left != {}
        invariant left <= conns.Keys
        invariant |clients| == |keys| && |keys| + |left| == |conns|
        invariant forall i, j :: 0 <= i < j < |keys| ==> keys[i] != keys[j]
        invariant forall k :: k in keys <==> k in conns && k !in left
        invariant forall i :: 0 <= i < |keys| ==> keys[i] in conns && clients[i] == conns[keys[i]]
        decreases |left|
      {
        var k :| k in left;
        clients, keys := clients + [conns[k]], keys + [k];
        left := left - {k};
      }
    }

    /** `GetClientByConn`: the client stored for `conn`, if any. */
    method GetClientByConn(conn: Connection) returns (r: Option<C>)
      ensures r.Some? <==> conn in conns
      ensures r.Some? ==> r.value == conns[conn]
    {
      if conn in conns {
        r := Some(conns[conn]);
      } else {
        r := None;
      }
    }

    /** `acceptLoop` over the accept outcomes `outcomes`: every accepted
        connection gets one wg.Add(1) and one `handleConnection`; an error
        is skipped unless the context is cancelled, which ends the loop and
        its deferred wg.Done(). If the outcomes run out first, the loop is
        still blocked in `Accept`. */
    method RunAcceptLoop(outcomes: seq<AcceptOutcome>) returns (returned: bool, spawned: seq<Connection>)
      requires Valid() && acceptLoops > 0
      modifies this`wg, this`starting, this`acceptLoops
      ensures Valid()
      ensures returned == AcceptRun(outcomes, cancelled).returned
      ensures |spawned| == AcceptRun(outcomes, cancelled).spawned
      ensures forall c :: c in spawned ==> fresh(c)
      ensures forall c :: c in starting <==> c in old(starting) || c in spawned
      ensures acceptLoops == old(acceptLoops) - (if returned then 1 else 0)
      ensures wg == old(wg) + |spawned| - (if returned then 1 else 0)
    {
      ghost var run := AcceptRun(outcomes, cancelled);
      returned, spawned := false, [];
      var rest := outcomes;
      while rest != [] && !returned
        invariant !returned ==> run.returned == AcceptRun(rest, cancelled).returned
        invariant !returned ==> run.spawned == AcceptRun(rest, cancelled).spawned + |spawned|
        invariant returned ==> run.returned && run.spawned == |spawned|
        invariant forall c :: c in spawned ==> fresh(c)
        invariant forall c :: c in starting <==> c in old(starting) || c in spawned
        invariant acceptLoops == old(acceptLoops) && wg == old(wg) + |spawned|
        invariant Valid()
        decreases |rest|
      {
        if rest[0].Accepted? {
          var conn := SpawnConnection();
          spawned := spawned + [conn];
        } else if cancelled {
          returned := true;
        }
        rest := rest[1..];
      }
      if returned {
        wg := wg - 1;
        acceptLoops := acceptLoops - 1;
      }
    }

    /** `wg.Add(1)` and `go s.handleConnection(conn)` for a newly accepted
        connection. */
    method SpawnConnection() returns (conn: Connection)
      requires Valid()
      modifies this`wg, this`starting
      ensures Valid() && fresh(conn)
      ensures starting == old(starting) + {conn} && wg == old(wg) + 1
    {
      conn := new Connection();
      wg := wg + 1;
      starting := starting + {conn};
    }

    /** The start of `handleConnection`: the factory builds the client, the
        registry stores it, and only then does `OnConn` run. */
    method BeginConnection(conn: Connection) returns (c: C)
      requires Valid() && conn in starting
      modifies this`conns, this`trace, this`starting, this`handlers
      ensures Valid()
      ensures c == clientFactory(conn)
      ensures conns == old(conns)[conn := c]
      ensures starting == old(starting) - {conn} && handlers == old(handlers)[conn := c]
      ensures trace == old(trace) + if hasOnConn then [Connect(c, Some(c))] else []
    {
      c := clientFactory(conn);
      conns := conns[conn := c];
      starting := starting - {conn};
      handlers := handlers[conn := c];
      if hasOnConn {
        var seen := GetClientByConn(conn);
        trace := trace + [Connect(c, seen)];
      }
    }

    /** The stream-accept loop of `handleConnection` over `outcomes`: each
        accepted stream gets one wg.Add(1) and one `handleStream` bound to
        the connection's client; the first error runs `OnDisc` with that
        error, deletes the registry entry and ends the handler. If the
        outcomes run out first, the handler is still blocked in
        `AcceptStream`. */
    method RunStreamLoop(conn: Connection, c: C, outcomes: seq<AcceptOutcome>) returns (returned: bool, accepted: nat)
      requires Valid() && conn in handlers && handlers[conn] == c
      modifies this`conns, this`trace, this`handlers, this`streams, this`wg
      ensures Valid()
      ensures accepted == FirstFailure(outcomes)
      ensures returned <==> FirstFailure(outcomes) < |outcomes|
      ensures streams == old(streams) + Copies(c, accepted)
      ensures returned ==>
        && conns == old(conns) - {conn} && handlers == old(handlers) - {conn}
        && trace == old(trace) + (if hasOnDisc then [Disconnect(c, outcomes[accepted].cause, Some(c))] else [])
        && wg == old(wg) + accepted - 1
      ensures !returned ==>
        && conns == old(conns) && handlers == old(handlers)
        && trace == old(trace) && wg == old(wg) + accepted
    {
      returned, accepted := false, 0;
      while accepted < |outcomes| && outcomes[accepted].Accepted?
        invariant 0 <= accepted <= |outcomes|
        invariant forall i :: 0 <= i < accepted ==> outcomes[i].Accepted?
        invariant streams == old(streams) + Copies(c, accepted)
        invariant wg == old(wg) + accepted
        invariant unchanged(this`conns, this`handlers, this`trace)
        invariant Valid()
      {
        SpawnStream(c);
        accepted := accepted + 1;
      }
      if accepted < |outcomes| {
        EndConnection(conn, c, outcomes[accepted].cause);
        returned := true;
      }
    }

    /** `wg.Add(1)` and `go s.handleStream(stream, c)`. */
    method SpawnStream(c: C)
      requires Valid()
      modifies this`streams, this`wg
      ensures Valid()
      ensures streams == old(streams) + multiset{c} && wg == old(wg) + 1
    {
      wg := wg + 1;
      streams := streams + multiset{c};
    }

    /** The error path of `handleConnection`: `OnDisc` with the error, then
        the registry `Delete`, then the deferred wg.Done(). */
    method EndConnection(conn: Connection, c: C, cause: Cause)
      requires Valid() && conn in handlers && handlers[conn] == c
      modifies this`conns, this`trace, this`handlers, this`wg
      ensures Valid()
      ensures conns == old(conns) - {conn} && handlers == old(handlers) - {conn}
      ensures trace == old(trace) + (if hasOnDisc then [Disconnect(c, cause, Some(c))] else [])
      ensures wg == old(wg) - 1
    {
      if hasOnDisc {
        var seen := GetClientByConn(conn);
        trace := trace + [Disconnect(c, cause, seen)];
      }
      ghost var before := handlers;
      RemoveKeyCard(before, conn);
      var remaining := conns - {conn};
      assert remaining == before - {conn};
      conns, handlers, wg := remaining, remaining, wg - 1;
    }

    /** `handleStream`: `OnMsg` runs only when the read and the decode both
        succeed; the stream is closed on every path, then wg.Done(). */
    method RunStream(c: C, read: Option<seq<Byte>>, unmarshal: seq<Byte> -> Option<Message>)
      requires Valid() && c in streams
      modifies this`trace, this`streams, this`wg
      ensures Valid()
      ensures streams == old(streams) - multiset{c} && wg == old(wg) - 1
      ensures trace == old(trace)
        + (if read.Some? && unmarshal(read.value).Some? && hasOnMsg then [Dispatch(c, unmarshal(read.value).value)] else [])
        + [StreamClosed(c)]
    {
      if read.Some? {
        var decoded := unmarshal(read.value);
        if decoded.Some? && hasOnMsg {
          trace := trace + [Dispatch(c, decoded.value)];
        }
      }
      trace := trace + [StreamClosed(c)];
      streams := streams - multiset{c};
      wg := wg - 1;
    }

    /** `tickLoop`: `time.NewTicker` panics unless the period is positive,
        which ends the process (the state the model goes on with after
        `TickerPanic` has no counterpart in the program); otherwise each of the `firings` ticks that arrive runs `TickFn` if
        it is set, and then the loop returns (and calls wg.Done()) if the
        context is cancelled, or goes on waiting. */
    method RunTickLoop(firings: nat) returns (end: TickEnd)
      requires Valid() && tickLoops > 0
      modifies this`trace, this`tickLoops, this`wg
      ensures Valid()
      ensures tps <= 0 ==> end == TickerPanic && trace == old(trace)
      ensures tps > 0 ==>
        && end == (if cancelled then Returned else Waiting)
        && |trace| == |old(trace)| + (if hasTickFn then firings else 0)
        && trace[..|old(trace)|] == old(trace)
        && (forall i :: |old(trace)| <= i < |trace| ==> trace[i] == TickFired)
      ensures end == Waiting ==> tickLoops == old(tickLoops) && wg == old(wg)
      ensures end != Waiting ==> tickLoops == old(tickLoops) - 1 && wg == old(wg) - 1
    {
      if tps <= 0 {
        end := TickerPanic;
      } else {
        var i := 0;
        while i < firings
          invariant 0 <= i <= firings
          invariant |trace| == |old(trace)| + (if hasTickFn then i else 0)
          invariant trace[..|old(trace)|] == old(trace)
          invariant forall j :: |old(trace)| <= j < |trace| ==> trace[j] == TickFired
          invariant unchanged(this`tickLoops, this`wg)
        {
          if hasTickFn {
            trace := trace + [TickFired];
          }
          i := i + 1;
        }
        end := if cancelled then Returned else Waiting;
      }
      if end != Waiting {
        // the deferred wg.Done() also runs while a panic unwinds
        tickLoops := tickLoops - 1;
        wg := wg - 1;
      }
    }

    /** `Broadcast`: the message is encoded once; if that fails nothing is
        sent, otherwise every registry entry gets exactly one delivery
        attempt, whatever became of the others. */
    method Broadcast(msg: Message, marshal: Message -> Option<seq<Byte>>, deliver: Connection -> Delivery)
      returns (attempts: seq<Attempt>)
      ensures marshal(msg).None? ==> attempts == []
      ensures marshal(msg).Some? ==>
        && |attempts| == |conns|
        && (forall i :: 0 <= i < |attempts| ==>
              attempts[i] == Attempt(attempts[i].conn, marshal(msg).value, deliver(attempts[i].conn)))
        && (forall k :: k in conns <==> exists i :: 0 <= i < |attempts| && attempts[i].conn == k)
        && (forall i, j :: 0 <= i < j < |attempts| ==> attempts[i].conn != attempts[j].conn)
    {
      var data := marshal(msg);
      if data.None? {
        return [];
      }
      attempts := [];
      ghost var keys: seq<Connection> := [];
      var left := conns.Keys;
      while left != {}
        invariant left <= conns.Keys
        invariant |attempts| == |keys| && |keys| + |left| == |conns|
        invariant forall i :: 0 <= i < |attempts| ==>
          attempts[i] == Attempt(keys[i], data.value, deliver(keys[i]))
        invariant forall k :: k in keys <==> k in conns && k !in left
        invariant forall i, j :: 0 <= i < j < |keys| ==> keys[i] != keys[j]
        decreases |left|
      {
        var conn :| conn in left;
        attempts, keys := attempts + [Attempt(conn, data.value, deliver(conn))], keys + [conn];
        left := left - {conn};
      }
      forall k | k in conns ensures exists i :: 0 <= i < |attempts| && attempts[i].conn == k {
        var i :| 0 <= i < |keys| && keys[i] == k;
        assert attempts[i].conn == k;
      }
    }
  }
}
