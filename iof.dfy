/**
 * Class IOF of src/lib/custom.iframe.io.ts: an event bus over
 * `window.postMessage` whose registry, peer and outgoing messages are
 * fields updated in place. Each method is proved to leave the state that
 * the corresponding function of module Channel prescribes.
 */
module IframeIO {
  import opened Wrappers
  import opened Registry
  import opened Correlation
  import opened Channel
  import Js

  class IOF {
    /** `this.Events`: event key to its ordered listeners. */
    var Events: Events
    /** `this.peer`. */
    var peer: Peer
    /** Every `postMessage` call made so far, oldest first. */
    var outbox: seq<Post>
    /** The `message` handlers registered on the window so far. */
    var handlers: seq<WindowHandler>
    /** Every listener invocation so far, oldest first. */
    ghost var log: seq<Invocation>

    ghost function Model(): Channel.State
      reads this
    {
      Channel.State(Events, peer, outbox, handlers, log)
    }

    /** The constructor, after its options have yielded the role `kind`. */
    constructor (kind: string)
      ensures Model() == Init(kind)
    {
      Events := map[];
      peer := Peer(kind, None, None);
      outbox := [];
      handlers := [];
      log := [];
    }

    /** `new IOF(options)`: throws on unusable options, else starts unconnected with no listeners. */
    static method Create(options: Options) returns (r: Result<IOF, Error>)
      ensures KindOf(options).Err? ==> r == Err(KindOf(options).error)
      ensures KindOf(options).Ok? ==> r.Ok? && fresh(r.value) && r.value.Model() == Init(KindOf(options).value)
    {
      if options.TruthyPrimitive? {
        return Err(InvalidOptions);
      }
      if options.Nullish? {
        return Err(TypeError);
      }
      var io := new IOF(IFRAME);
      if options.OptionsObject? && options.peerType != "" {
        io.peer := io.peer.(kind := Js.ToUpper(options.peerType));
      }
      r := Ok(io);
    }

    method On(e: string, f: Listener)
      modifies this
      ensures Model() == OnStep(old(Model()), e, f)
    {
      if e !in Events {
        Events := Events[e := []];
      }
      Events := Events[e := Events[e] + [f]];
    }

    method Once(e: string, f: Listener)
      modifies this
      ensures Model() == OnceStep(old(Model()), e, f)
    {
      var key := e + OnceSuffix;
      if key !in Events {
        Events := Events[key := []];
      }
      Events := Events[key := Events[key] + [f]];
    }

    method Off(e: string, fn: EmitArg)
      modifies this
      ensures Model() == OffStep(old(Model()), e, fn)
    {
      Events := Events - {e};
      if fn.FuncArg? {
        log := log + [Invocation(Handler(fn.callback), [])];
      }
    }

    method RemoveListeners(fn: EmitArg)
      modifies this
      ensures Model() == RemoveListenersStep(old(Model()), fn)
    {
      Events := map[];
      if fn.FuncArg? {
        log := log + [Invocation(Handler(fn.callback), [])];
      }
    }

    /** `fire(e, payload, cid)`: the listeners run one by one, each logged as it is called. */
    method Fire(e: string, payload: Option<Value>, cid: Option<string>)
      modifies this
      ensures Model() == FireStep(old(Model()), e, payload, cid)
    {
      if e !in Events && e + OnceSuffix !in Events {
        return;
      }
      var key := e;
      if e + OnceSuffix in Events {
        key := e + OnceSuffix;
      }
      var reply := if cid.Some? && cid.value != "" then Registry.Reply(ReplyTo(key, cid.value)) else Absent;
      var listeners := Events[key];
      if key != e {
        Events := Events - {key};
      }
      var args := if payload.Some? then [Val(payload.value), reply] else [reply];
      assert Registry.Fire(old(Events), e, payload, cid) == Dispatch(Events, Calls(listeners, args));
      CallAll(listeners, args);
    }

    /** The loop of `fire`: each listener is called with `args` in turn and logged. */
    method CallAll(listeners: seq<Listener>, args: seq<Arg>)
      modifies this
      ensures log == old(log) + Calls(listeners, args)
      ensures Events == old(Events) && peer == old(peer) && outbox == old(outbox) && handlers == old(handlers)
    {
      var i := 0;
      while i < |listeners|
        invariant 0 <= i <= |listeners|
        invariant log == old(log) + Calls(listeners[..i], args)
        invariant Events == old(Events) && peer == old(peer) && outbox == old(outbox) && handlers == old(handlers)
      {
        CallsSnoc(listeners, i, args);
        log := log + [Invocation(listeners[i], args)];
        i := i + 1;
      }
      assert listeners[..i] == listeners;
    }

    /** `emit(e, payload, fn)`, `cid` standing for the fresh `callbackId()`. */
    method Emit(e: string, payload: EmitArg, fn: EmitArg, cid: string) returns (r: Outcome<Error>)
      modifies this
      ensures Step(r, Model()) == Channel.Emit(old(Model()), e, payload, fn, cid)
    {
      if peer.source.None? {
        return Thrown(NoConnection);
      }
      var data, callback := payload, fn;
      if data.FuncArg? {
        callback := data;
        data := NoArg;
      }
      var sentCid: Option<string> := None;
      if callback.FuncArg? {
        sentCid := Some(cid);
        Once(CallbackName(e, cid), ReplyWaiter(callback.callback));
      }
      var sent := Envelope(e, if data.DataArg? then Some(data.v) else None, sentCid);
      outbox := outbox + [Post(peer.source.value, peer.origin, sent)];
      r := Done;
    }

    /** The reply function `fire` hands a listener, called with `(error, ...args)`. */
    method Reply(to: ReplyTo, error: Option<Value>, args: seq<Value>) returns (r: Outcome<Error>)
      modifies this
      ensures Step(r, Model()) == ReplyStep(old(Model()), to, error, args)
    {
      var (ev, once) := SplitOnce(to.event);
      var name := if once then ev + "--" + to.cid + "--@callback--@once" else ev + "--" + to.cid + "--@callback";
      assert ev + "--" + to.cid + "--@callback--@once" == (ev + "--" + to.cid + "--@callback") + OnceSuffix;
      assert name == ReplyName(to);
      r := Emit(name, DataArg(ReplyPayload(error, args)), NoArg, "");
    }

    method Initiate(contentWindow: Option<Handle>, iframeOrigin: string) returns (r: Outcome<Error>)
      modifies this
      ensures Step(r, Model()) == Channel.Initiate(old(Model()), contentWindow, iframeOrigin)
    {
      if contentWindow.None? || iframeOrigin == "" {
        return Thrown(InvalidInitiationArguments);
      }
      if peer.kind == IFRAME {
        return Thrown(WrongRole);
      }
      peer := peer.(source := contentWindow, origin := Some(iframeOrigin));
      handlers := handlers + [InitiateHandler];
      r := Emit("handshake", NoArg, NoArg, "");
    }

    method Listen(hostOrigin: Option<string>)
      modifies this
      ensures Model() == Channel.Listen(old(Model()), hostOrigin)
    {
      peer := peer.(kind := IFRAME);
      handlers := handlers + [ListenHandler(hostOrigin)];
    }

    /** The `message` handler installed by `initiate`. */
    method OnInitiateMessage(origin: string, source: Option<Handle>, data: InboundData) returns (r: Outcome<Error>)
      modifies this
      ensures Step(r, Model()) == Channel.OnInitiateMessage(old(Model()), origin, source, data)
    {
      if peer.origin != Some(origin) || source.None? || source != peer.source {
        return Done;
      }
      if data.NotAnObject? || data.MissingEvent? {
        return Done;
      }
      if data.NullData? {
        return Thrown(TypeError);
      }
      var env := data.env;
      if env.event == "handshake" {
        Fire("connect", None, None);
      } else {
        Fire(env.event, env.payload, env.cid);
      }
      r := Done;
    }

    /** The `message` handler installed by `listen(hostOrigin)`. */
    method OnListenMessage(hostOrigin: Option<string>, origin: string, source: Option<Handle>, data: InboundData)
      returns (r: Outcome<Error>)
      modifies this
      ensures Step(r, Model()) == Channel.OnListenMessage(old(Model()), hostOrigin, origin, source, data)
    {
      if hostOrigin.Some? && hostOrigin.value != "" && hostOrigin.value != origin {
        return Thrown(InvalidEventOrigin);
      }
      if source.None? || data.NotAnObject? {
        return Done;
      }
      if data.NullData? {
        return Thrown(TypeError);
      }
      if data.MissingEvent? {
        return Done;
      }
      if peer.source.None? {
        peer := peer.(source := source, origin := Some(origin));
      } else if peer.origin != Some(origin) {
        return Thrown(InvalidOrigin);
      }
      var env := data.env;
      if env.event == "handshake" {
        var sent := Emit("handshake", NoArg, NoArg, "");
        Fire("connect", None, None);
      } else {
        Fire(env.event, env.payload, env.cid);
      }
      r := Done;
    }
  }
}
