/**
 * The IOF channel as a state machine over values: one function per public
 * operation of class IOF (src/lib/custom.iframe.io.ts) and one per inbound
 * message handler. Class `IframeIO.IOF` is the imperative model and is
 * proved to agree with these functions.
 *
 * The transport, `window.postMessage` (section 9.3 of the WHATWG HTML Living
 * Standard), is an outbox of posts; inbound messages are handed to the
 * handler functions as (origin, source, data).
 */
module Channel {
  import opened Wrappers
  import opened Registry
  import opened Correlation
  import Js

  /** An opaque window handle (`MessageEventSource`). */
  type Handle = nat

  const WINDOW: string := "WINDOW"
  const IFRAME: string := "IFRAME"

  /** `IOF.peer`: this side's role, and the counterpart window and origin once pinned. */
  datatype Peer = Peer(kind: string, source: Option<Handle>, origin: Option<string>)

  /** The wire envelope `{ _event, payload, cid }`; undefined fields are None. */
  datatype Envelope = Envelope(event: string, payload: Option<Value>, cid: Option<string>)

  /** `target.postMessage(message, targetOrigin)`. */
  datatype Post = Post(target: Handle, targetOrigin: Option<string>, message: Envelope)

  /** The `data` of an inbound message event. */
  datatype InboundData =
    | NotAnObject           // typeof data !== 'object'
    | NullData              // null: typeof is 'object', so hasOwnProperty is called on it
    | MissingEvent          // an object without an `_event` property
    | Message(env: Envelope)

  /** A `message` handler registered on the window by `initiate` or `listen`. */
  datatype WindowHandler = InitiateHandler | ListenHandler(hostOrigin: Option<string>)

  /** A value passed to `emit` as payload or callback: omitted, data, or a function. */
  datatype EmitArg = NoArg | DataArg(v: Value) | FuncArg(callback: nat)

  /** The `options` argument of the constructor. */
  datatype Options =
    | Nullish                       // undefined or null
    | FalsyPrimitive                // 0, '', false
    | TruthyPrimitive               // any other non-object
    | OptionsObject(peerType: string)  // `type` as given; '' when absent

  datatype Error =
    | InvalidOptions                // 'Invalid Options'
    | InvalidInitiationArguments    // 'Invalid Connection initiation arguments'
    | WrongRole                     // 'Expect IFRAME to <listen> and WINDOW to <initiate> a connection'
    | NoConnection                  // 'No Connection initiated'
    | InvalidEventOrigin            // 'Invalid Event Origin'
    | InvalidOrigin                 // 'Invalid Origin'
    | TypeError                     // a property read on undefined or null

  /** Everything one IOF instance owns, plus the log of listener invocations. */
  datatype State = State(
    events: Events,
    peer: Peer,
    outbox: seq<Post>,
    handlers: seq<WindowHandler>,
    log: seq<Invocation>)

  /** The result of one operation: how it ended and the state it left. */
  datatype Step = Step(outcome: Outcome<Error>, state: State)

  // ---------------------------------------------------------------- construction

  /** The role the constructor derives from its options, or the error it throws. */
  function KindOf(options: Options): (r: Result<string, Error>)
    ensures options.Nullish? <==> r == Err(TypeError)
    ensures options.TruthyPrimitive? <==> r == Err(InvalidOptions)
    ensures options.FalsyPrimitive? ==> r == Ok(IFRAME)
    ensures options.OptionsObject? && options.peerType == "" ==> r == Ok(IFRAME)
    ensures options.OptionsObject? && options.peerType != "" ==> r == Ok(Js.ToUpper(options.peerType))
  {
    match options
    case TruthyPrimitive => Err(InvalidOptions)
    case Nullish => Err(TypeError)
    case FalsyPrimitive => Ok(IFRAME)
    case OptionsObject(t) => Ok(if t != "" then Js.ToUpper(t) else IFRAME)
  }

  function Init(kind: string): State {
    State(map[], Peer(kind, None, None), [], [], [])
  }

  // ---------------------------------------------------------------- registry operations

  /** Calls the optional completion argument of `off`/`removeListeners` with no arguments. */
  function Notify(log: seq<Invocation>, fn: EmitArg): seq<Invocation> {
    if fn.FuncArg? then log + [Invocation(Handler(fn.callback), [])] else log
  }

  function OnStep(s: State, e: string, f: Listener): State {
    s.(events := On(s.events, e, f))
  }

  function OnceStep(s: State, e: string, f: Listener): State {
    s.(events := Once(s.events, e, f))
  }

  function OffStep(s: State, e: string, fn: EmitArg): (r: State)
    ensures r.events == Off(s.events, e)
    ensures r.log == Notify(s.log, fn)
    ensures r.peer == s.peer && r.outbox == s.outbox && r.handlers == s.handlers
  {
    s.(events := Off(s.events, e), log := Notify(s.log, fn))
  }

  function RemoveListenersStep(s: State, fn: EmitArg): (r: State)
    ensures r.events == map[]
    ensures r.log == Notify(s.log, fn)
    ensures r.peer == s.peer && r.outbox == s.outbox && r.handlers == s.handlers
  {
    s.(events := map[], log := Notify(s.log, fn))
  }

  /** `fire`: the dispatch of Registry.Fire, its calls appended to the log. */
  function FireStep(s: State, e: string, payload: Option<Value>, cid: Option<string>): (r: State)
    ensures r.peer == s.peer && r.outbox == s.outbox && r.handlers == s.handlers
  {
    var d := Fire(s.events, e, payload, cid);
    s.(events := d.events, log := s.log + d.calls)
  }

  // ---------------------------------------------------------------- sending

  /**
   * `emit(e, payload, fn)` with `cid` the fresh id `callbackId()` would return.
   * Throws when no counterpart is pinned. A function given as payload is
   * the callback. With a callback, a waiter is registered once under
   * `<e>--<cid>--@callback` and the envelope carries the cid.
   */
  function Emit(s: State, e: string, payload: EmitArg, fn: EmitArg, cid: string): (r: Step)
    ensures s.peer.source.None? <==> r == Step(Thrown(NoConnection), s)
    ensures s.peer.source.Some? ==>
      var cb := if payload.FuncArg? then payload else fn;
      var data := if payload.DataArg? then Some(payload.v) else None;
      && r.outcome == Done
      && r.state.outbox == s.outbox + [Post(s.peer.source.value, s.peer.origin,
                                            Envelope(e, data, if cb.FuncArg? then Some(cid) else None))]
      && r.state.events == (if cb.FuncArg? then Once(s.events, CallbackName(e, cid), ReplyWaiter(cb.callback))
                            else s.events)
      && r.state.peer == s.peer && r.state.handlers == s.handlers && r.state.log == s.log
  {
    if s.peer.source.None? then Step(Thrown(NoConnection), s)
    else
      var (data, cb) := if payload.FuncArg? then (NoArg, payload) else (payload, fn);
      var events := if cb.FuncArg? then Once(s.events, CallbackName(e, cid), ReplyWaiter(cb.callback)) else s.events;
      var env := Envelope(e, if data.DataArg? then Some(data.v) else None, if cb.FuncArg? then Some(cid) else None);
      Step(Done, s.(events := events, outbox := s.outbox + [Post(s.peer.source.value, s.peer.origin, env)]))
  }

  /** The envelope `emit` sends with no payload and no callback. */
  function Signal(e: string): Envelope {
    Envelope(e, None, None)
  }

  /**
   * Calling the reply function a listener was handed with `(error, ...args)`:
   * an `emit` of `{ error: error || false, args }` on the reply event.
   */
  function ReplyStep(s: State, to: ReplyTo, error: Option<Value>, args: seq<Value>): (r: Step)
    ensures s.peer.source.None? ==> r == Step(Thrown(NoConnection), s)
    ensures s.peer.source.Some? ==>
      && r.outcome == Done
      && r.state == s.(outbox := s.outbox + [Post(s.peer.source.value, s.peer.origin,
                                                  Envelope(ReplyName(to), Some(ReplyPayload(error, args)), None))])
  {
    Emit(s, ReplyName(to), DataArg(ReplyPayload(error, args)), NoArg, "")
  }

  // ---------------------------------------------------------------- connection

  /**
   * `initiate(contentWindow, iframeOrigin)`: checks its arguments and the
   * role, pins the counterpart, registers its message handler and sends
   * `handshake`.
   */
  function Initiate(s: State, contentWindow: Option<Handle>, iframeOrigin: string): (r: Step)
    ensures contentWindow.None? || iframeOrigin == "" ==> r == Step(Thrown(InvalidInitiationArguments), s)
    ensures contentWindow.Some? && iframeOrigin != "" && s.peer.kind == IFRAME ==> r == Step(Thrown(WrongRole), s)
    ensures contentWindow.Some? && iframeOrigin != "" && s.peer.kind != IFRAME ==>
      && r.outcome == Done
      && r.state.peer == s.peer.(source := contentWindow, origin := Some(iframeOrigin))
      && r.state.handlers == s.handlers + [InitiateHandler]
      && r.state.outbox == s.outbox + [Post(contentWindow.value, Some(iframeOrigin), Signal("handshake"))]
      && r.state.events == s.events && r.state.log == s.log
  {
    if contentWindow.None? || iframeOrigin == "" then Step(Thrown(InvalidInitiationArguments), s)
    else if s.peer.kind == IFRAME then Step(Thrown(WrongRole), s)
    else
      var pinned := s.(peer := s.peer.(source := contentWindow, origin := Some(iframeOrigin)),
                       handlers := s.handlers + [InitiateHandler]);
      Emit(pinned, "handshake", NoArg, NoArg, "")
  }

  /** `listen(hostOrigin)`: forces the IFRAME role and registers its message handler. */
  function Listen(s: State, hostOrigin: Option<string>): (r: State)
    ensures r.peer == s.peer.(kind := IFRAME)
    ensures r.handlers == s.handlers + [ListenHandler(hostOrigin)]
    ensures r.events == s.events && r.outbox == s.outbox && r.log == s.log
  {
    s.(peer := s.peer.(kind := IFRAME), handlers := s.handlers + [ListenHandler(hostOrigin)])
  }

  /** How either handler reacts to a well-formed message once identity checks have passed. */
  function Deliver(s: State, env: Envelope, answerHandshake: bool): (r: State)
    ensures r.peer == s.peer && r.handlers == s.handlers
    ensures env.event != "handshake" ==>
      var d := Fire(s.events, env.event, env.payload, env.cid);
      r.events == d.events && r.log == s.log + d.calls && r.outbox == s.outbox
    ensures env.event == "handshake" ==>
      var d := Fire(s.events, "connect", None, None);
      && r.events == d.events && r.log == s.log + d.calls
      && r.outbox == s.outbox + (if answerHandshake && s.peer.source.Some?
                                 then [Post(s.peer.source.value, s.peer.origin, Envelope("handshake", None, None))]
                                 else [])
  {
    if env.event == "handshake" then
      var s1 := if answerHandshake then Emit(s, "handshake", NoArg, NoArg, "").state else s;
      FireStep(s1, "connect", None, None)
    else FireStep(s, env.event, env.payload, env.cid)
  }

  /**
   * The handler `initiate` registers. A message whose origin or source is
   * not the pinned one, or whose data is not an object with `_event`, is
   * dropped silently; `handshake` fires `connect` without a reply; any other
   * event is fired with its payload and cid.
   */
  function OnInitiateMessage(s: State, origin: string, source: Option<Handle>, data: InboundData): (r: Step)
    ensures s.peer.origin != Some(origin) || source.None? || source != s.peer.source ==> r == Step(Done, s)
    ensures data.NotAnObject? || data.MissingEvent? ==> r == Step(Done, s)
    ensures r.outcome.Thrown? ==> r.outcome.error == TypeError && data.NullData? && r.state == s
    ensures r.state.outbox == s.outbox && r.state.peer == s.peer && r.state.handlers == s.handlers
  {
    if s.peer.origin != Some(origin) || source.None? || source != s.peer.source then Step(Done, s)
    else match data
      case NotAnObject => Step(Done, s)
      case MissingEvent => Step(Done, s)
      case NullData => Step(Thrown(TypeError), s)
      case Message(env) => Step(Done, Deliver(s, env, false))
  }

  /** The (host origin, source, data) checks of the `listen` handler, before pinning. */
  function ListenGate(hostOrigin: Option<string>, origin: string, source: Option<Handle>, data: InboundData): (r: Option<Outcome<Error>>)
    ensures hostOrigin.Some? && hostOrigin.value != "" && hostOrigin.value != origin ==> r == Some(Thrown(InvalidEventOrigin))
    ensures r.None? <==> (hostOrigin.None? || hostOrigin.value == "" || hostOrigin.value == origin) && source.Some? && data.Message?
    ensures r == Some(Thrown(TypeError)) <==>
      (hostOrigin.None? || hostOrigin.value == "" || hostOrigin.value == origin) && source.Some? && data.NullData?
    ensures r.Some? && r.value.Done? ==> source.None? || data.NotAnObject? || data.MissingEvent?
  {
    if hostOrigin.Some? && hostOrigin.value != "" && hostOrigin.value != origin then Some(Thrown(InvalidEventOrigin))
    else if source.None? || data.NotAnObject? then Some(Done)
    else if data.NullData? then Some(Thrown(TypeError))
    else if data.MissingEvent? then Some(Done)
    else None
  }

  /**
   * The handler `listen(hostOrigin)` registers. A given host origin that
   * differs from the message's throws; malformed messages are dropped; the
   * first well-formed message pins source and origin, and a later one from
   * another origin throws. Every `handshake` is answered with `handshake`
   * and fires `connect`.
   */
  function OnListenMessage(s: State, hostOrigin: Option<string>, origin: string,
                           source: Option<Handle>, data: InboundData): (r: Step)
    ensures r.outcome.Thrown? ==> r.state == s
    ensures r.state.handlers == s.handlers
  {
    var gate := ListenGate(hostOrigin, origin, source, data);
    if gate.Some? then Step(gate.value, s)
    else if s.peer.source.None? then
      var pinned := s.(peer := s.peer.(source := source, origin := Some(origin)));
      Step(Done, Deliver(pinned, data.env, true))
    else if s.peer.origin != Some(origin) then Step(Thrown(InvalidOrigin), s)
    else Step(Done, Deliver(s, data.env, true))
  }
}
