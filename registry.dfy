/**
 * The listener registry of the IOF channel (`IOF.Events` in
 * src/lib/custom.iframe.io.ts) and its dispatch rule (`fire`).
 *
 * Persistent listeners of event `e` live under key `e`; once listeners live
 * under the separate key `e--@once`. Listeners are opaque ids: the model
 * records each invocation (which listener, with which arguments) instead of
 * running it.
 */
module Registry {
  import opened Wrappers

  /** Structured-clone data carried as a payload. */
  datatype Value =
    | Null
    | Bool(b: bool)
    | Num(n: int)
    | Str(s: string)
    | List(items: seq<Value>)
    | Record(fields: map<string, Value>)

  /** JavaScript truthiness of a payload value (NaN is not modelled). */
  predicate Truthy(v: Value) {
    match v
    case Null => false
    case Bool(b) => b
    case Num(n) => n != 0
    case Str(s) => s != ""
    case List(_) => true
    case Record(_) => true
  }

  /**
   * A registered listener: an application function, or the waiter that
   * `emit` registers for a reply, which forwards to the caller's callback.
   */
  datatype Listener = Handler(id: nat) | ReplyWaiter(callback: nat)

  /** What a reply function closes over: the (possibly once-suffixed) event name and the cid. */
  datatype ReplyTo = ReplyTo(event: string, cid: string)

  /** One argument passed to a listener: `undefined`, a payload, or a reply function. */
  datatype Arg = Absent | Val(v: Value) | Reply(to: ReplyTo)

  /** One call of a listener, with its argument list. */
  datatype Invocation = Invocation(listener: Listener, args: seq<Arg>)

  type Events = map<string, seq<Listener>>

  const OnceSuffix: string := "--@once"

  function OnceKey(e: string): (k: string)
    ensures |k| == |e| + 7 && k[..|e|] == e && k[|e|..] == OnceSuffix
  {
    e + OnceSuffix
  }

  /** The listeners stored under `k`, or none. */
  function Bucket(ev: Events, k: string): seq<Listener> {
    if k in ev then ev[k] else []
  }

  /** `on(e, f)`: `f` goes last in the list of `e`, which is created if absent. */
  function On(ev: Events, e: string, f: Listener): (r: Events)
    ensures e in r && r[e] == Bucket(ev, e) + [f]
    ensures r.Keys == ev.Keys + {e}
    ensures forall k :: k in ev && k != e ==> r[k] == ev[k]
  {
    ev[e := Bucket(ev, e) + [f]]
  }

  /** `once(e, f)`: the same, under the separate key `e--@once`; the list of `e` is untouched. */
  function Once(ev: Events, e: string, f: Listener): (r: Events)
    ensures OnceKey(e) in r && r[OnceKey(e)] == Bucket(ev, OnceKey(e)) + [f]
    ensures r.Keys == ev.Keys + {OnceKey(e)}
    ensures forall k :: k in ev && k != OnceKey(e) ==> r[k] == ev[k]
  {
    On(ev, OnceKey(e), f)
  }

  /** `off(e)`: deletes the list of `e` only; `e--@once` and every other key survive. */
  function Off(ev: Events, e: string): (r: Events)
    ensures e !in r
    ensures r.Keys == ev.Keys - {e}
    ensures forall k :: k in r ==> r[k] == ev[k]
  {
    ev - {e}
  }

  /** Argument lists passed by `fire`: `fn(payload, reply)`, or `fn(reply)` when the payload is undefined. */
  function ArgsOf(payload: Option<Value>, reply: Arg): (a: seq<Arg>)
    ensures payload.None? ==> a == [reply]
    ensures payload.Some? ==> a == [Val(payload.value), reply]
  {
    match payload
    case Some(p) => [Val(p), reply]
    case None => [reply]
  }

  /** A cid is used only when it is truthy, i.e. a non-empty string. */
  predicate CidSet(cid: Option<string>) {
    cid.Some? && cid.value != ""
  }

  /** The invocations of `ls`, in order, all with the same arguments. */
  function Calls(ls: seq<Listener>, args: seq<Arg>): (cs: seq<Invocation>)
    ensures |cs| == |ls|
    ensures forall i :: 0 <= i < |ls| ==> cs[i] == Invocation(ls[i], args)
  {
    seq(|ls|, i requires 0 <= i < |ls| => Invocation(ls[i], args))
  }

  /** Calling one more listener appends exactly its invocation. */
  lemma CallsSnoc(ls: seq<Listener>, i: nat, args: seq<Arg>)
    requires i < |ls|
    ensures Calls(ls[..i + 1], args) == Calls(ls[..i], args) + [Invocation(ls[i], args)]
  {
    var a, b := Calls(ls[..i + 1], args), Calls(ls[..i], args) + [Invocation(ls[i], args)];
    assert |a| == |b|;
    forall j | 0 <= j < |a| ensures a[j] == b[j] {
      if j < i {
        assert a[j] == Invocation(ls[..i + 1][j], args);
      }
    }
  }

  function Invoked(cs: seq<Invocation>): (ls: seq<Listener>)
    ensures |ls| == |cs|
    ensures forall i :: 0 <= i < |cs| ==> ls[i] == cs[i].listener
  {
    seq(|cs|, i requires 0 <= i < |cs| => cs[i].listener)
  }

  /** The result of one dispatch: the registry afterwards and the calls made. */
  datatype Dispatch = Dispatch(events: Events, calls: seq<Invocation>)

  /** The key `fire(e)` takes its listeners from: the once bucket when present. */
  function FiredKey(ev: Events, e: string): string {
    if OnceKey(e) in ev then OnceKey(e) else e
  }

  /**
   * `fire(e, payload, cid)`. With no list under `e` or `e--@once` nothing
   * happens. Otherwise, if the once bucket exists it is deleted and only its
   * listeners run; else the persistent list runs. With a truthy cid each
   * listener is handed a reply function closing over the key it was taken from.
   */
  function Fire(ev: Events, e: string, payload: Option<Value>, cid: Option<string>): (d: Dispatch)
  {
    if e !in ev && OnceKey(e) !in ev then Dispatch(ev, [])
    else
      var k := FiredKey(ev, e);
      var reply := if CidSet(cid) then Reply(ReplyTo(k, cid.value)) else Absent;
      Dispatch(if OnceKey(e) in ev then ev - {OnceKey(e)} else ev, Calls(ev[k], ArgsOf(payload, reply)))
  }

  /** The argument list every listener of one dispatch receives. */
  function FireArgs(ev: Events, e: string, payload: Option<Value>, cid: Option<string>): seq<Arg> {
    ArgsOf(payload, if CidSet(cid) then Reply(ReplyTo(FiredKey(ev, e), cid.value)) else Absent)
  }

  // ---------------------------------------------------------------- dispatch properties

  /** With neither list present, `fire` calls nothing and changes nothing. */
  lemma FireIdle(ev: Events, e: string, payload: Option<Value>, cid: Option<string>)
    requires e !in ev && OnceKey(e) !in ev
    ensures Fire(ev, e, payload, cid) == Dispatch(ev, [])
  {
  }

  /**
   * With a once bucket, `fire` runs exactly that bucket in registration
   * order, deletes it, and skips the persistent list of `e`.
   */
  lemma FireOnceBucket(ev: Events, e: string, payload: Option<Value>, cid: Option<string>)
    requires OnceKey(e) in ev
    ensures var d := Fire(ev, e, payload, cid);
      && Invoked(d.calls) == ev[OnceKey(e)]
      && d.events == ev - {OnceKey(e)}
      && forall c :: c in d.calls ==> c.args == FireArgs(ev, e, payload, cid)
  {
  }

  /** Without a once bucket, `fire` runs the persistent list in order and keeps the registry. */
  lemma FirePersistent(ev: Events, e: string, payload: Option<Value>, cid: Option<string>)
    requires OnceKey(e) !in ev && e in ev
    ensures var d := Fire(ev, e, payload, cid);
      && Invoked(d.calls) == ev[e]
      && d.events == ev
      && forall c :: c in d.calls ==> c.args == FireArgs(ev, e, payload, cid)
  {
  }

  /** A listener added with `once` under a fresh name runs once when that name fires, and the registry is as before. */
  lemma FireFreshOnce(ev: Events, e: string, f: Listener, v: Value)
    requires OnceKey(e) !in ev
    ensures Fire(Once(ev, e, f), e, Some(v), None) == Dispatch(ev, [Invocation(f, [Val(v), Absent])])
  {
    var r := Once(ev, e, f);
    assert r[OnceKey(e)] == [f];
    assert r - {OnceKey(e)} == ev;
  }

  /** Firing the suffixed key itself takes the persistent path: the listener runs and stays. */
  lemma FireOnceKeyDirectly(ev: Events, e: string, f: Listener, v: Value)
    requires OnceKey(e) !in ev && OnceKey(OnceKey(e)) !in ev
    ensures Fire(Once(ev, e, f), OnceKey(e), Some(v), None) == Dispatch(Once(ev, e, f), [Invocation(f, [Val(v), Absent])])
  {
    var r := Once(ev, e, f);
    assert r[OnceKey(e)] == [f];
    assert OnceKey(OnceKey(e)) !in r;
  }

  /**
   * Once semantics: after `once(e, f)`, a first `fire(e)` runs the once
   * bucket (ending with `f`) and a second reaches only the persistent list,
   * so `f` runs on the second dispatch only if it was also registered with `on`.
   */
  lemma {:induction false} OnceThenFireTwice(ev: Events, e: string, f: Listener,
                                             p1: Option<Value>, c1: Option<string>,
                                             p2: Option<Value>, c2: Option<string>)
    ensures var d1 := Fire(Once(ev, e, f), e, p1, c1);
            var d2 := Fire(d1.events, e, p2, c2);
      && Invoked(d1.calls) == Bucket(ev, OnceKey(e)) + [f]
      && Invoked(d2.calls) == Bucket(ev, e)
      && (f !in Bucket(ev, e) ==> forall c :: c in d2.calls ==> c.listener != f)
  {
    var ev1 := Once(ev, e, f);
    FireOnceBucket(ev1, e, p1, c1);
    var d1 := Fire(ev1, e, p1, c1);
    assert OnceKey(e) !in d1.events;
    assert e != OnceKey(e);
    if e in ev {
      assert e in d1.events && d1.events[e] == ev[e];
      FirePersistent(d1.events, e, p2, c2);
    } else {
      assert e !in d1.events;
    }
    var d2 := Fire(d1.events, e, p2, c2);
    if f !in Bucket(ev, e) {
      forall c | c in d2.calls ensures c.listener != f {
        var i :| 0 <= i < |d2.calls| && d2.calls[i] == c;
        assert Invoked(d2.calls)[i] == c.listener;
      }
    }
  }

  /**
   * `off(e)` does not reach the once bucket: a later `fire(e)` still runs
   * every listener registered with `once(e, …)`, and nothing else.
   */
  lemma {:induction false} OffThenFire(ev: Events, e: string, payload: Option<Value>, cid: Option<string>)
    ensures Invoked(Fire(Off(ev, e), e, payload, cid).calls) == Bucket(ev, OnceKey(e))
    ensures OnceKey(e) in ev ==> OnceKey(e) in Off(ev, e) && Off(ev, e)[OnceKey(e)] == ev[OnceKey(e)]
  {
    var r := Off(ev, e);
    assert e != OnceKey(e);
    if OnceKey(e) in ev {
      FireOnceBucket(r, e, payload, cid);
    } else {
      FireIdle(r, e, payload, cid);
    }
  }

  /** After `removeListeners` no event reaches any listener. */
  lemma RemoveAllThenFire(e: string, payload: Option<Value>, cid: Option<string>)
    ensures Fire(map[], e, payload, cid).calls == []
  {
  }
}
