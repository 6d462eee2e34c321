/**
 * Request/reply correlation of the IOF channel: the synthetic event names
 * `<event>--<cid>--@callback[--@once]`, the reply payload `{ error, args }`,
 * and the waiter that turns that payload back into a call of the caller's
 * callback (src/lib/custom.iframe.io.ts, `fire` and `emit`).
 */
module Correlation {
  import opened Wrappers
  import opened Registry
  import Js

  /** The reply event `emit` waits on for a request sent with correlation id `cid`. */
  function CallbackName(e: string, cid: string): (n: string)
    ensures |n| == |e| + |cid| + 13
  {
    e + "--" + cid + "--@callback"
  }

  /** Different cids of one event give different reply events, so replies cannot cross. */
  lemma CallbackNameInjective(e: string, c1: string, c2: string)
    requires CallbackName(e, c1) == CallbackName(e, c2)
    ensures c1 == c2
  {
    var n := CallbackName(e, c1);
    assert |c1| == |c2|;
    assert c1 == n[|e| + 2..|e| + 2 + |c1|];
    assert c2 == CallbackName(e, c2)[|e| + 2..|e| + 2 + |c2|];
  }

  /** A reply event is never the built-in `handshake` event. */
  lemma CallbackNameNotHandshake(e: string, cid: string)
    ensures CallbackName(e, cid) != "handshake"
    ensures OnceKey(CallbackName(e, cid)) != "handshake"
  {
  }

  /** Position of the first `--@once` in `s`, if any (`String.prototype.indexOf`). */
  function IndexOfOnce(s: string): (r: Option<nat>)
    ensures r.Some? ==> r.value + 7 <= |s| && s[r.value..r.value + 7] == OnceSuffix
  {
    if |s| < 7 then None
    else if s[..7] == OnceSuffix then Some(0)
    else match IndexOfOnce(s[1..])
      case None => None
      case Some(i) => Some(i + 1)
  }

  /** Whether the `--@once` marker occurs in `s` at position `j`. */
  predicate OnceAt(s: string, j: nat) {
    j + 7 <= |s| && s[j..j + 7] == OnceSuffix
  }

  lemma OnceAtShift(s: string, j: nat)
    requires s != []
    ensures OnceAt(s, j + 1) <==> OnceAt(s[1..], j)
  {
    if j + 8 <= |s| {
      assert s[1..][j..j + 7] == s[j + 1..j + 8];
    }
  }

  /** `indexOf` finds the first occurrence, and `None` means there is none. */
  lemma {:induction false} IndexOfOnceFirst(s: string)
    ensures IndexOfOnce(s).None? ==> forall j: nat :: !OnceAt(s, j)
    ensures IndexOfOnce(s).Some? ==> OnceAt(s, IndexOfOnce(s).value) &&
                                     forall j: nat :: j < IndexOfOnce(s).value ==> !OnceAt(s, j)
  {
    if |s| < 7 {
    } else if s[..7] == OnceSuffix {
    } else {
      IndexOfOnceFirst(s[1..]);
      forall j: nat | OnceAt(s, j) ensures IndexOfOnce(s).Some? && IndexOfOnce(s).value <= j {
        if j > 0 {
          OnceAtShift(s, j - 1);
        }
      }
      if IndexOfOnce(s).Some? {
        OnceAtShift(s, IndexOfOnce(s).value - 1);
      }
    }
  }

  /** A name has no marker exactly when the marker occurs nowhere in it. */
  lemma NoOnceMarkerMeans(s: string)
    ensures NoOnceMarker(s) <==> forall j: nat :: !OnceAt(s, j)
  {
    IndexOfOnceFirst(s);
  }

  /** Application event names are expected not to contain the `--@once` marker. */
  predicate NoOnceMarker(s: string) {
    IndexOfOnce(s).None?
  }

  /**
   * `const [ev, once] = s.split('--@once')`: the text before the first marker,
   * and whether a second part exists, i.e. whether the marker occurs at all.
   */
  function SplitOnce(s: string): (r: (string, bool))
    ensures !r.1 ==> r.0 == s
    ensures r.1 ==> |r.0| + 7 <= |s| && s[..|r.0|] == r.0 && s[|r.0|..|r.0| + 7] == OnceSuffix
  {
    match IndexOfOnce(s)
    case None => (s, false)
    case Some(i) => (s[..i], true)
  }

  /** `split` cuts at the first marker, and reports a second part iff the marker occurs. */
  lemma SplitOnceFirst(s: string)
    ensures SplitOnce(s).1 <==> exists j: nat :: OnceAt(s, j)
    ensures SplitOnce(s).1 ==> OnceAt(s, |SplitOnce(s).0|) &&
                               forall j: nat :: j < |SplitOnce(s).0| ==> !OnceAt(s, j)
  {
    IndexOfOnceFirst(s);
  }

  /** Appending the marker to a name without one puts the first marker at its end. */
  lemma {:induction false} IndexOfOnceKey(e: string)
    requires NoOnceMarker(e)
    ensures IndexOfOnce(OnceKey(e)) == Some(|e|)
  {
    var s := OnceKey(e);
    if e == [] {
      assert s[..7] == OnceSuffix;
    } else {
      // the marker cannot start inside e: it has no proper border
      if |e| >= 7 {
        assert s[..7] == e[..7];
        assert e[..7] != OnceSuffix;
      } else {
        assert s[|e|] == '-';
        if |e| == 1 {
          assert s[2] == '-';
          assert s[..7][2] != OnceSuffix[2];
        } else {
          assert s[..7][|e|] != OnceSuffix[|e|];
        }
      }
      assert s[..7] != OnceSuffix;
      assert IndexOfOnce(e[1..]).None? by {
        if |e| >= 7 {
          assert e[..7] != OnceSuffix;
        }
      }
      assert s[1..] == OnceKey(e[1..]);
      IndexOfOnceKey(e[1..]);
    }
  }

  /**
   * The reply function handed to a listener emits on
   * `<ev>--<cid>--@callback`, with `--@once` appended when the name it closes
   * over carries the marker, i.e. when the listener came from the once bucket.
   */
  function ReplyName(r: ReplyTo): (n: string)
    ensures var base := CallbackName(SplitOnce(r.event).0, r.cid);
      |base| <= |n| && n[..|base|] == base
    ensures |n| >= 7 && (n[|n| - 7..] == OnceSuffix <==> SplitOnce(r.event).1)
  {
    var (ev, once) := SplitOnce(r.event);
    if once then OnceKey(CallbackName(ev, r.cid))
    else
      var c := CallbackName(ev, r.cid);
      assert c[|c| - 7..] == "allback";
      c
  }

  /** A persistent listener replies on exactly the event the requester waits on. */
  lemma ReplyNamePersistent(e: string, cid: string)
    requires NoOnceMarker(e)
    ensures ReplyName(ReplyTo(e, cid)) == CallbackName(e, cid)
  {
  }

  /** A once listener replies on the once-suffixed name. */
  lemma ReplyNameOnce(e: string, cid: string)
    requires NoOnceMarker(e)
    ensures ReplyName(ReplyTo(OnceKey(e), cid)) == OnceKey(CallbackName(e, cid))
  {
    IndexOfOnceKey(e);
    assert OnceKey(e)[..|e|] == e;
  }

  /** `error || false`. */
  function ErrorOrFalse(error: Option<Value>): (v: Value)
    ensures error.Some? && Truthy(error.value) ==> v == error.value
    ensures !(error.Some? && Truthy(error.value)) ==> v == Bool(false)
  {
    if error.Some? && Truthy(error.value) then error.value else Bool(false)
  }

  /** The payload a reply function sends: `{ error: error || false, args }`. */
  function ReplyPayload(error: Option<Value>, args: seq<Value>): Value {
    Record(map["error" := ErrorOrFalse(error), "args" := List(args)])
  }

  /**
   * `...v` in an argument list: an array gives its items and a string its
   * characters, each as a one-character string; any other value is not
   * iterable and throws a TypeError (None).
   */
  function Spread(v: Value): (r: Option<seq<Value>>)
    ensures r.Some? <==> v.List? || v.Str?
    ensures v.List? ==> r == Some(v.items)
    ensures v.Str? ==> r.Some? && |r.value| == |v.s| && forall i :: 0 <= i < |v.s| ==> r.value[i] == Str([v.s[i]])
  {
    match v
    case List(items) => Some(items)
    case Str(s) => Some(Js.MapSeq(s, (c: char) => Str([c])))
    case _ => None
  }

  /**
   * The waiter `({ error, args }) => callback(error, ...args)` applied to
   * the arguments `fire` gave it: the argument list the callback receives,
   * or None where destructuring or spreading throws a TypeError.
   */
  function WaiterCall(args: seq<Arg>): (r: Option<seq<Arg>>)
    ensures r.Some? <==> |args| > 0 && args[0].Val? && args[0].v.Record? && "args" in args[0].v.fields &&
                         Spread(args[0].v.fields["args"]).Some?
    ensures r.Some? ==> |r.value| >= 1 && r.value[0] == (if "error" in args[0].v.fields then Val(args[0].v.fields["error"]) else Absent)
  {
    if args == [] || !args[0].Val? || !args[0].v.Record? then None
    else
      var f := args[0].v.fields;
      if "args" !in f then None
      else
        match Spread(f["args"])
        case None => None
        case Some(items) => Some([if "error" in f then Val(f["error"]) else Absent] + Js.MapSeq(items, v => Val(v)))
  }

  /** A string given as `args` reaches the callback one character per argument, after the error. */
  lemma WaiterSpreadsString(error: Value, text: string)
    ensures var r := WaiterCall([Val(Record(map["error" := error, "args" := Str(text)]))]);
      r.Some? && |r.value| == |text| + 1 && r.value[0] == Val(error) &&
      forall i :: 0 <= i < |text| ==> r.value[i + 1] == Val(Str([text[i]]))
  {
    var f := map["error" := error, "args" := Str(text)];
    assert "args" in f && f["args"] == Str(text) && "error" in f && f["error"] == error;
    WaiterSpreadsField(f, error, text);
  }

  lemma WaiterSpreadsField(f: map<string, Value>, error: Value, text: string)
    requires "args" in f && f["args"] == Str(text) && "error" in f && f["error"] == error
    ensures var r := WaiterCall([Val(Record(f))]);
      r.Some? && |r.value| == |text| + 1 && r.value[0] == Val(error) &&
      forall i :: 0 <= i < |text| ==> r.value[i + 1] == Val(Str([text[i]]))
  {
    var items := Spread(Str(text)).value;
    var sent := Js.MapSeq(items, v => Val(v));
    var r := WaiterCall([Val(Record(f))]).value;
    assert r == [Val(error)] + sent;
    forall i | 0 <= i < |text|
      ensures r[i + 1] == Val(Str([text[i]]))
    {
      assert r[i + 1] == sent[i] == Val(items[i]);
    }
  }

  /**
   * The reply payload is decoded back into the caller's callback arguments:
   * `(error || false, ...args)`.
   */
  lemma ReplyReachesCallback(error: Option<Value>, args: seq<Value>, rest: seq<Arg>)
    ensures WaiterCall([Val(ReplyPayload(error, args))] + rest)
         == Some([Val(ErrorOrFalse(error))] + Js.MapSeq(args, v => Val(v)))
  {
  }
}
