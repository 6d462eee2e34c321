/**
 * Properties of two IOF channels talking to each other: a window that
 * initiates and a frame that listens. A post reaches the window it is
 * addressed to when its target origin is that window's origin (or `*`), and
 * is seen there with the sender's origin and window as `origin` and `source`.
 */
module ChannelProperties {
  import opened Wrappers
  import opened Registry
  import opened Correlation
  import opened Channel
  import Js

  /** Whether the receiver at `receiverOrigin` gets post `p` (the targetOrigin check of postMessage). */
  predicate Reaches(p: Post, receiver: Handle, receiverOrigin: string) {
    p.target == receiver && (p.targetOrigin == Some(receiverOrigin) || p.targetOrigin == Some("*"))
  }

  function Last<T>(s: seq<T>): T
    requires s != []
  {
    s[|s| - 1]
  }

  /** The invocations one dispatch of `connect` (no payload, no cid) makes. */
  function ConnectCalls(ev: Events): seq<Invocation> {
    Fire(ev, "connect", None, None).calls
  }

  /**
   * Handshake: the window's `initiate` posts `handshake` to the frame; the
   * frame pins the window, answers `handshake` and raises `connect`; the
   * answer makes the window raise `connect` without replying. Each side's
   * log grows by exactly one dispatch of `connect`.
   */
  lemma {:induction false} HandshakeConnectsBoth(w: State, f: State, wh: Handle, fh: Handle,
                                                 wo: string, fo: string, host: Option<string>)
    requires w.peer.kind != IFRAME
    requires f.peer.source.None?
    requires fo != ""
    requires host.None? || host.value == "" || host.value == wo
    ensures
      var w1 := Initiate(w, Some(fh), fo);
      && w1.outcome == Done
      && w1.state.outbox == w.outbox + [Post(fh, Some(fo), Signal("handshake"))]
      && Reaches(Last(w1.state.outbox), fh, fo)
      && w1.state.log == w.log
      && var f1 := OnListenMessage(f, host, wo, Some(wh), Message(Signal("handshake")));
      && f1.outcome == Done
      && f1.state.peer == f.peer.(source := Some(wh), origin := Some(wo))
      && f1.state.outbox == f.outbox + [Post(wh, Some(wo), Signal("handshake"))]
      && Reaches(Last(f1.state.outbox), wh, wo)
      && f1.state.log == f.log + ConnectCalls(f.events)
      && var w2 := OnInitiateMessage(w1.state, fo, Some(fh), Message(Signal("handshake")));
      && w2.outcome == Done
      && w2.state.outbox == w1.state.outbox
      && w2.state.log == w.log + ConnectCalls(w.events)
  {
    var w1 := Initiate(w, Some(fh), fo);
    assert w1.state.events == w.events;
    var pinned := f.(peer := f.peer.(source := Some(wh), origin := Some(wo)));
    assert ListenGate(host, wo, Some(wh), Message(Signal("handshake"))).None?;
    var e1 := Emit(pinned, "handshake", NoArg, NoArg, "");
    assert e1.state.events == f.events && e1.state.log == f.log;
  }

  /** There is no guard against a repeated handshake: each one is answered and raises `connect` again. */
  lemma {:induction false} RepeatedHandshake(f: State, host: Option<string>, wo: string, wh: Handle)
    requires f.peer.source.Some? && f.peer.origin == Some(wo)
    requires host.None? || host.value == "" || host.value == wo
    ensures
      var f1 := OnListenMessage(f, host, wo, Some(wh), Message(Signal("handshake")));
      && f1.outcome == Done
      && f1.state.outbox == f.outbox + [Post(f.peer.source.value, Some(wo), Signal("handshake"))]
      && f1.state.log == f.log + ConnectCalls(f.events)
  {
    assert ListenGate(host, wo, Some(wh), Message(Signal("handshake"))).None?;
    var e1 := Emit(f, "handshake", NoArg, NoArg, "");
    assert e1.state.events == f.events && e1.state.log == f.log;
  }

  /**
   * Origin enforcement is asymmetric: once a counterpart is pinned, a
   * well-formed message from another origin makes the listening side throw
   * 'Invalid Origin' and the initiating side drop it; neither changes state.
   */
  lemma OriginAsymmetry(s: State, host: Option<string>, origin: string, source: Handle, env: Envelope)
    requires s.peer.source.Some? && s.peer.origin.Some? && s.peer.origin.value != origin
    requires host.None? || host.value == "" || host.value == origin
    ensures OnListenMessage(s, host, origin, Some(source), Message(env)) == Step(Thrown(InvalidOrigin), s)
    ensures OnInitiateMessage(s, origin, Some(source), Message(env)) == Step(Done, s)
  {
  }

  /**
   * After pinning, the listening side checks the origin only: a message from
   * another window of the pinned origin is delivered like any other.
   */
  lemma ListenerIgnoresSource(s: State, host: Option<string>, origin: string, other: Handle, env: Envelope)
    requires s.peer.source.Some? && s.peer.origin == Some(origin) && s.peer.source != Some(other)
    requires host.None? || host.value == "" || host.value == origin
    requires env.event != "handshake"
    ensures OnListenMessage(s, host, origin, Some(other), Message(env))
         == Step(Done, FireStep(s, env.event, env.payload, env.cid))
    ensures OnInitiateMessage(s, origin, Some(other), Message(env)) == Step(Done, s)
  {
  }

  /** A host origin given to `listen` that differs from the message's makes the handler throw, whatever it carries. */
  lemma HostOriginEnforced(s: State, host: string, origin: string, source: Option<Handle>, data: InboundData)
    requires host != "" && host != origin
    ensures OnListenMessage(s, Some(host), origin, source, data) == Step(Thrown(InvalidEventOrigin), s)
  {
  }

  /** A message without a source, or whose data is not an object with `_event`, is dropped without a change. */
  lemma ListenDropsMalformed(s: State, host: Option<string>, origin: string, source: Option<Handle>, data: InboundData)
    requires host.None? || host.value == "" || host.value == origin
    requires source.None? || data.NotAnObject? || data.MissingEvent?
    ensures OnListenMessage(s, host, origin, source, data) == Step(Done, s)
  {
  }

  /** `null` data from a window passes the `typeof` test and throws a TypeError, changing nothing. */
  lemma ListenNullThrows(s: State, host: Option<string>, origin: string, h: Handle)
    requires host.None? || host.value == "" || host.value == origin
    ensures OnListenMessage(s, host, origin, Some(h), NullData) == Step(Thrown(TypeError), s)
  {
  }

  /** The first well-formed message, whatever its event, pins its window and origin and is then delivered. */
  lemma FirstMessagePins(s: State, host: Option<string>, origin: string, h: Handle, env: Envelope)
    requires host.None? || host.value == "" || host.value == origin
    requires s.peer.source.None? && env.event != "handshake"
    ensures OnListenMessage(s, host, origin, Some(h), Message(env)) ==
            Step(Done, FireStep(s.(peer := s.peer.(source := Some(h), origin := Some(origin))), env.event, env.payload, env.cid))
  {
  }

  /** A well-formed non-handshake message from the pinned window makes the frame fire it. */
  lemma FrameDelivers(f: State, host: Option<string>, wo: string, wh: Handle, env: Envelope)
    requires f.peer.source == Some(wh) && f.peer.origin == Some(wo)
    requires host.None? || host.value == "" || host.value == wo
    requires env.event != "handshake"
    ensures OnListenMessage(f, host, wo, Some(wh), Message(env)) == Step(Done, FireStep(f, env.event, env.payload, env.cid))
  {
    assert ListenGate(host, wo, Some(wh), Message(env)).None?;
  }

  /** A non-handshake message from the pinned frame makes the window fire it. */
  lemma WindowDelivers(w: State, fo: string, fh: Handle, env: Envelope)
    requires w.peer.source == Some(fh) && w.peer.origin == Some(fo)
    requires env.event != "handshake"
    ensures OnInitiateMessage(w, fo, Some(fh), Message(env)) == Step(Done, FireStep(w, env.event, env.payload, env.cid))
  {
  }

  /** A reply of a connected side posts `(error, ...args)` on the reply event, without a cid. */
  lemma ReplyPost(s: State, to: ReplyTo, error: Option<Value>, args: seq<Value>)
    requires s.peer.source.Some?
    ensures var r := ReplyStep(s, to, error, args);
      && r.outcome == Done
      && r.state.outbox != []
      && Last(r.state.outbox) == Post(s.peer.source.value, s.peer.origin, Envelope(ReplyName(to), Some(ReplyPayload(error, args)), None))
  {
  }

  /** The frame's half of a round trip with a persistent listener: it runs the listeners, and a reply posts back on `<e>--<cid>--@callback`. */
  lemma FrameLegPersistent(f: State, host: Option<string>, wo: string, wh: Handle,
                           e: string, p: Value, cid: string, error: Option<Value>, args: seq<Value>)
    requires f.peer.source == Some(wh) && f.peer.origin == Some(wo)
    requires host.None? || host.value == "" || host.value == wo
    requires e != "handshake" && NoOnceMarker(e) && cid != ""
    requires e in f.events && OnceKey(e) !in f.events
    ensures
      var f1 := OnListenMessage(f, host, wo, Some(wh), Message(Envelope(e, Some(p), Some(cid))));
      && f1.outcome == Done
      && f1.state.log == f.log + Calls(f.events[e], [Val(p), Reply(ReplyTo(e, cid))])
      && var f2 := ReplyStep(f1.state, ReplyTo(e, cid), error, args);
      && f2.outcome == Done
      && f2.state.outbox != []
      && Last(f2.state.outbox) == Post(wh, Some(wo), Envelope(CallbackName(e, cid), Some(ReplyPayload(error, args)), None))
  {
    FrameDelivers(f, host, wo, wh, Envelope(e, Some(p), Some(cid)));
    FirePersistent(f.events, e, Some(p), Some(cid));
    var f1 := OnListenMessage(f, host, wo, Some(wh), Message(Envelope(e, Some(p), Some(cid))));
    assert f1.state.peer == f.peer;
    ReplyPost(f1.state, ReplyTo(e, cid), error, args);
    ReplyNamePersistent(e, cid);
  }

  /** The window's half of a round trip: it emits with a fresh waiter, and the reply runs the waiter once and evicts it. */
  lemma WindowLegOnce(w: State, fo: string, fh: Handle,
                      e: string, p: Value, cb: nat, cid: string, error: Option<Value>, args: seq<Value>)
    requires w.peer.source == Some(fh) && w.peer.origin == Some(fo)
    requires CallbackName(e, cid) !in w.events && OnceKey(CallbackName(e, cid)) !in w.events
    ensures
      var w1 := Emit(w, e, DataArg(p), FuncArg(cb), cid);
      && w1.outcome == Done
      && w1.state.outbox != []
      && Last(w1.state.outbox) == Post(fh, Some(fo), Envelope(e, Some(p), Some(cid)))
      && var w2 := OnInitiateMessage(w1.state, fo, Some(fh), Message(Envelope(CallbackName(e, cid), Some(ReplyPayload(error, args)), None)));
      && w2.outcome == Done
      && w2.state.log == w.log + [Invocation(ReplyWaiter(cb), [Val(ReplyPayload(error, args)), Absent])]
      && w2.state.events == w.events
  {
    var name := CallbackName(e, cid);
    var w1 := Emit(w, e, DataArg(p), FuncArg(cb), cid);
    assert w1.state.events == Once(w.events, name, ReplyWaiter(cb));
    CallbackNameNotHandshake(e, cid);
    WindowDelivers(w1.state, fo, fh, Envelope(name, Some(ReplyPayload(error, args)), None));
    FireFreshOnce(w.events, name, ReplyWaiter(cb), ReplyPayload(error, args));
  }

  /** The frame's half with a once listener: it runs and drops the bucket, and the reply posts on the once-suffixed reply name. */
  lemma FrameLegOnce(f: State, host: Option<string>, wo: string, wh: Handle,
                     e: string, p: Value, cid: string, error: Option<Value>, args: seq<Value>)
    requires f.peer.source == Some(wh) && f.peer.origin == Some(wo)
    requires host.None? || host.value == "" || host.value == wo
    requires e != "handshake" && NoOnceMarker(e) && cid != ""
    requires OnceKey(e) in f.events
    ensures
      var f1 := OnListenMessage(f, host, wo, Some(wh), Message(Envelope(e, Some(p), Some(cid))));
      && f1.outcome == Done
      && f1.state.log == f.log + Calls(f.events[OnceKey(e)], [Val(p), Reply(ReplyTo(OnceKey(e), cid))])
      && OnceKey(e) !in f1.state.events
      && var f2 := ReplyStep(f1.state, ReplyTo(OnceKey(e), cid), error, args);
      && f2.state.outbox != []
      && Last(f2.state.outbox).message == Envelope(OnceKey(CallbackName(e, cid)), Some(ReplyPayload(error, args)), None)
  {
    FrameDelivers(f, host, wo, wh, Envelope(e, Some(p), Some(cid)));
    FireOnceBucket(f.events, e, Some(p), Some(cid));
    var f1 := OnListenMessage(f, host, wo, Some(wh), Message(Envelope(e, Some(p), Some(cid))));
    ReplyPost(f1.state, ReplyTo(OnceKey(e), cid), error, args);
    ReplyNameOnce(e, cid);
  }

  /** The window's half when the reply comes on `<e>--<cid>--@callback--@once`: the waiter runs once and stays registered. */
  lemma WindowLegKeeps(w: State, fo: string, fh: Handle,
                       e: string, p: Value, cb: nat, cid: string, error: Option<Value>, args: seq<Value>)
    requires w.peer.source == Some(fh) && w.peer.origin == Some(fo)
    requires OnceKey(CallbackName(e, cid)) !in w.events && OnceKey(OnceKey(CallbackName(e, cid))) !in w.events
    ensures
      var w1 := Emit(w, e, DataArg(p), FuncArg(cb), cid);
      && var w2 := OnInitiateMessage(w1.state, fo, Some(fh), Message(Envelope(OnceKey(CallbackName(e, cid)), Some(ReplyPayload(error, args)), None)));
      && w2.outcome == Done
      && w2.state.log == w1.state.log + [Invocation(ReplyWaiter(cb), [Val(ReplyPayload(error, args)), Absent])]
      && OnceKey(CallbackName(e, cid)) in w2.state.events
      && w2.state.events[OnceKey(CallbackName(e, cid))] == [ReplyWaiter(cb)]
  {
    var name := CallbackName(e, cid);
    var w1 := Emit(w, e, DataArg(p), FuncArg(cb), cid);
    assert w1.state.events == Once(w.events, name, ReplyWaiter(cb));
    CallbackNameNotHandshake(e, cid);
    var key := OnceKey(name);
    WindowDelivers(w1.state, fo, fh, Envelope(key, Some(ReplyPayload(error, args)), None));
    FireOnceKeyDirectly(w.events, name, ReplyWaiter(cb), ReplyPayload(error, args));
  }

  /**
   * Correlation round trip: the window emits `e` with payload `p` and
   * callback `cb`; the frame's listeners of `e` each get `p` and a reply
   * function; one reply `(error, ...args)` travels back on
   * `<e>--<cid>--@callback`, where the waiter runs once, is evicted, and
   * hands `cb` the arguments `(error || false, ...args)`.
   */
  lemma {:induction false} RequestReplyRoundTrip(w: State, f: State, wh: Handle, fh: Handle,
                                                 wo: string, fo: string, host: Option<string>,
                                                 e: string, p: Value, cb: nat, cid: string,
                                                 error: Option<Value>, args: seq<Value>)
    requires w.peer.source == Some(fh) && w.peer.origin == Some(fo)
    requires f.peer.source == Some(wh) && f.peer.origin == Some(wo)
    requires host.None? || host.value == "" || host.value == wo
    requires e != "handshake" && NoOnceMarker(e) && cid != ""
    requires e in f.events && OnceKey(e) !in f.events
    // the cid is fresh: nothing waits on its reply event yet
    requires CallbackName(e, cid) !in w.events && OnceKey(CallbackName(e, cid)) !in w.events
    ensures
      var w1 := Emit(w, e, DataArg(p), FuncArg(cb), cid);
      && w1.outcome == Done
      && Last(w1.state.outbox) == Post(fh, Some(fo), Envelope(e, Some(p), Some(cid)))
      && var f1 := OnListenMessage(f, host, wo, Some(wh), Message(Envelope(e, Some(p), Some(cid))));
      && f1.outcome == Done
      && f1.state.log == f.log + Calls(f.events[e], [Val(p), Reply(ReplyTo(e, cid))])
      && var f2 := ReplyStep(f1.state, ReplyTo(e, cid), error, args);
      && f2.outcome == Done
      && Last(f2.state.outbox) == Post(wh, Some(wo), Envelope(CallbackName(e, cid), Some(ReplyPayload(error, args)), None))
      && var w2 := OnInitiateMessage(w1.state, fo, Some(fh), Message(Last(f2.state.outbox).message));
      && w2.outcome == Done
      && w2.state.log == w.log + [Invocation(ReplyWaiter(cb), [Val(ReplyPayload(error, args)), Absent])]
      && w2.state.events == w.events
      && WaiterCall([Val(ReplyPayload(error, args)), Absent]) == Some([Val(ErrorOrFalse(error))] + Js.MapSeq(args, v => Val(v)))
  {
    FrameLegPersistent(f, host, wo, wh, e, p, cid, error, args);
    WindowLegOnce(w, fo, fh, e, p, cb, cid, error, args);
    ReplyReachesCallback(error, args, [Absent]);
  }

  /**
   * When the frame's listener was registered with `once`, its reply travels
   * on `<e>--<cid>--@callback--@once`. On the window that name is itself the
   * key of the waiter's bucket, so `fire` takes the persistent path: the
   * callback still runs once, but the waiter stays registered.
   */
  lemma {:induction false} ReplyFromOnceListenerKeepsWaiter(w: State, f: State, wh: Handle, fh: Handle,
                                                            wo: string, fo: string, host: Option<string>,
                                                            e: string, p: Value, cb: nat, cid: string,
                                                            error: Option<Value>, args: seq<Value>)
    requires w.peer.source == Some(fh) && w.peer.origin == Some(fo)
    requires f.peer.source == Some(wh) && f.peer.origin == Some(wo)
    requires host.None? || host.value == "" || host.value == wo
    requires e != "handshake" && NoOnceMarker(e) && cid != ""
    requires OnceKey(e) in f.events
    requires OnceKey(CallbackName(e, cid)) !in w.events && OnceKey(OnceKey(CallbackName(e, cid))) !in w.events
    ensures
      var w1 := Emit(w, e, DataArg(p), FuncArg(cb), cid);
      var f1 := OnListenMessage(f, host, wo, Some(wh), Message(Envelope(e, Some(p), Some(cid))));
      && f1.outcome == Done
      && f1.state.log == f.log + Calls(f.events[OnceKey(e)], [Val(p), Reply(ReplyTo(OnceKey(e), cid))])
      && OnceKey(e) !in f1.state.events
      && var f2 := ReplyStep(f1.state, ReplyTo(OnceKey(e), cid), error, args);
      && Last(f2.state.outbox).message == Envelope(OnceKey(CallbackName(e, cid)), Some(ReplyPayload(error, args)), None)
      && var w2 := OnInitiateMessage(w1.state, fo, Some(fh), Message(Last(f2.state.outbox).message));
      && w2.outcome == Done
      && w2.state.log == w1.state.log + [Invocation(ReplyWaiter(cb), [Val(ReplyPayload(error, args)), Absent])]
      && OnceKey(CallbackName(e, cid)) in w2.state.events
      && w2.state.events[OnceKey(CallbackName(e, cid))] == [ReplyWaiter(cb)]
  {
    FrameLegOnce(f, host, wo, wh, e, p, cid, error, args);
    WindowLegKeeps(w, fo, fh, e, p, cb, cid, error, args);
  }

  /**
   * The concrete exchange: a frame pinned to https://host.example runs its
   * `ping` listener with "hello"; the same message from https://evil.example
   * throws 'Invalid Origin' and runs nothing.
   */
  lemma PinnedOriginScenario(s: State, wh: Handle)
    requires s.peer.source.Some? && s.peer.origin == Some("https://host.example")
    requires s.events == map["ping" := [Handler(1)]]
    ensures
      var r1 := OnListenMessage(s, None, "https://host.example", Some(wh), Message(Envelope("ping", Some(Str("hello")), None)));
      && r1.outcome == Done
      && r1.state.log == s.log + [Invocation(Handler(1), [Val(Str("hello")), Absent])]
      && var r2 := OnListenMessage(r1.state, None, "https://evil.example", Some(wh), Message(Envelope("ping", None, None)));
      && r2 == Step(Thrown(InvalidOrigin), r1.state)
  {
    assert OnceKey("ping") != "ping";
    assert OnceKey("ping") !in s.events;
    assert "https://evil.example" != "https://host.example";
  }
}
