/**
 * The few JavaScript built-ins the modelled code relies on, written out:
 * string case mapping, the `\s` class of regular expressions, `Array.prototype.filter`
 * and `map`, and plain objects viewed as their ordered entry lists
 * (`Object.entries`), with property assignment and object spread.
 */
module Js {

  // ---------------------------------------------------------------- strings

  /** The characters matched by `\s` in an ECMAScript regular expression. */
  predicate IsSpace(c: char) {
    var n := c as int;
    n == 0x09 || n == 0x0A || n == 0x0B || n == 0x0C || n == 0x0D || n == 0x20 ||
    n == 0xA0 || n == 0x1680 || (0x2000 <= n <= 0x200A) || n == 0x2028 || n == 0x2029 ||
    n == 0x202F || n == 0x205F || n == 0x3000 || n == 0xFEFF
  }

  predicate NoSpace(s: string) {
    forall i :: 0 <= i < |s| ==> !IsSpace(s[i])
  }

  predicate AllSpace(s: string) {
    forall i :: 0 <= i < |s| ==> IsSpace(s[i])
  }

  function LowerChar(c: char): char {
    if 'A' <= c <= 'Z' then (c as int + 32) as char else c
  }

  function UpperChar(c: char): char {
    if 'a' <= c <= 'z' then (c as int - 32) as char else c
  }

  /** `s.toLowerCase()`, on the ASCII letters. */
  function ToLower(s: string): (r: string)
    ensures |r| == |s|
    ensures forall i :: 0 <= i < |s| ==> r[i] == LowerChar(s[i])
  {
    seq(|s|, i requires 0 <= i < |s| => LowerChar(s[i]))
  }

  /** `s.toUpperCase()`, on the ASCII letters. */
  function ToUpper(s: string): (r: string)
    ensures |r| == |s|
    ensures forall i :: 0 <= i < |s| ==> r[i] == UpperChar(s[i])
  {
    seq(|s|, i requires 0 <= i < |s| => UpperChar(s[i]))
  }

  /** Drops the whitespace run at the front of `s`. */
  function DropSpaces(s: string): string {
    if s != [] && IsSpace(s[0]) then DropSpaces(s[1..]) else s
  }

  /** `s.replace(/\s+/, '-')`: the first run of whitespace becomes one dash (no `g` flag). */
  function ReplaceFirstSpaceRun(s: string): string {
    if s == [] then []
    else if IsSpace(s[0]) then "-" + DropSpaces(s[1..])
    else [s[0]] + ReplaceFirstSpaceRun(s[1..])
  }

  /** A string without whitespace is left as it is. */
  lemma {:induction false} ReplaceFirstSpaceRunNoSpace(s: string)
    requires NoSpace(s)
    ensures ReplaceFirstSpaceRun(s) == s
  {
    if s != [] {
      assert !IsSpace(s[0]);
      ReplaceFirstSpaceRunNoSpace(s[1..]);
    }
  }

  /** Only the first whitespace run is replaced: later runs survive. */
  lemma {:induction false} ReplaceFirstSpaceRunSplit(a: string, w: string, b: string)
    requires NoSpace(a) && w != [] && AllSpace(w)
    requires b == [] || !IsSpace(b[0])
    ensures ReplaceFirstSpaceRun(a + w + b) == a + "-" + b
  {
    if a == [] {
      assert a + w + b == w + b;
      ReplaceWholeRun(w, b);
    } else {
      ReplaceFirstSpaceRunSplit(a[1..], w, b);
      assert a + w + b == [a[0]] + (a[1..] + w + b);
      ReplaceFirstSpaceRunCons(a[0], a[1..] + w + b);
      assert [a[0]] + (a[1..] + "-" + b) == a + "-" + b;
    }
  }

  /** A leading character that is not white space is kept as it is. */
  lemma ReplaceFirstSpaceRunCons(c: char, rest: string)
    requires !IsSpace(c)
    ensures ReplaceFirstSpaceRun([c] + rest) == [c] + ReplaceFirstSpaceRun(rest)
  {
    assert ([c] + rest)[1..] == rest;
  }

  /** A leading run of white space becomes one dash. */
  lemma ReplaceWholeRun(w: string, b: string)
    requires w != [] && AllSpace(w)
    requires b == [] || !IsSpace(b[0])
    ensures ReplaceFirstSpaceRun(w + b) == "-" + b
  {
    var s := w + b;
    assert s[0] == w[0] && IsSpace(s[0]);
    assert ReplaceFirstSpaceRun(s) == "-" + DropSpaces(s[1..]);
    assert s[1..] == w[1..] + b;
    DropWholeRun(w[1..], b);
  }

  lemma {:induction false} DropWholeRun(w: string, b: string)
    requires AllSpace(w)
    requires b == [] || !IsSpace(b[0])
    ensures DropSpaces(w + b) == b
  {
    if w != [] {
      assert (w + b)[1..] == w[1..] + b;
      DropWholeRun(w[1..], b);
    }
  }

  /** `s.replace(/<from>/g, <to>)` for a one-character pattern. */
  function ReplaceAll(s: string, from: char, to: char): (r: string)
    ensures |r| == |s|
    ensures forall i :: 0 <= i < |s| ==> r[i] == (if s[i] == from then to else s[i])
    ensures from != to ==> from !in r
  {
    seq(|s|, i requires 0 <= i < |s| => if s[i] == from then to else s[i])
  }

  // ---------------------------------------------------------------- arrays

  /** `s.filter(p)`: the elements that satisfy `p`, in their order. */
  function Select<T>(s: seq<T>, p: T -> bool): (r: seq<T>)
    ensures |r| <= |s|
    ensures forall x :: x in r ==> x in s && p(x)
    ensures forall x :: x in s && p(x) ==> x in r
  {
    if s == [] then []
    else
      var r0 := Select(s[..|s| - 1], p);
      assert s == s[..|s| - 1] + [s[|s| - 1]];
      r0 + (if p(s[|s| - 1]) then [s[|s| - 1]] else [])
  }

  /** Nothing is selected exactly when no element satisfies `p`. */
  lemma {:induction false} SelectEmpty<T>(s: seq<T>, p: T -> bool)
    ensures Select(s, p) == [] <==> forall i :: 0 <= i < |s| ==> !p(s[i])
  {
    if s != [] {
      SelectEmpty(s[..|s| - 1], p);
      assert forall i :: 0 <= i < |s| - 1 ==> s[..|s| - 1][i] == s[i];
    }
  }

  /** Selecting with `p` and with its negation splits `s` in two. */
  lemma {:induction false} SelectSplits<T>(s: seq<T>, p: T -> bool)
    ensures |Select(s, p)| + |Select(s, x => !p(x))| == |s|
  {
    if s != [] {
      SelectSplits(s[..|s| - 1], p);
    }
  }

  lemma SelectSnoc<T>(s: seq<T>, x: T, p: T -> bool)
    ensures Select(s + [x], p) == Select(s, p) + (if p(x) then [x] else [])
  {
    assert (s + [x])[..|s + [x]| - 1] == s;
  }

  /** `s.map(f)`. */
  function MapSeq<T, U>(s: seq<T>, f: T -> U): (r: seq<U>)
    ensures |r| == |s|
    ensures forall i :: 0 <= i < |s| ==> r[i] == f(s[i])
  {
    seq(|s|, i requires 0 <= i < |s| => f(s[i]))
  }

  lemma MapSnoc<T, U>(s: seq<T>, x: T, f: T -> U)
    ensures MapSeq(s + [x], f) == MapSeq(s, f) + [f(x)]
  {
  }

  /** The pairs `[i, s[i]]` that `s.forEach((x, i) => …)` visits. */
  function Indexed<T>(s: seq<T>): (r: seq<(nat, T)>)
    ensures |r| == |s|
    ensures forall i :: 0 <= i < |s| ==> r[i] == (i, s[i])
  {
    seq(|s|, i requires 0 <= i < |s| => (i, s[i]))
  }

  lemma IndexedSnoc<T>(s: seq<T>, x: T)
    ensures Indexed(s + [x]) == Indexed(s) + [(|s|, x)]
  {
  }

  /** One more element through `filter` then `map`: it is mapped and appended exactly when it passes. */
  lemma SelectMapSnoc<T, U>(s: seq<T>, x: T, p: T -> bool, f: T -> U)
    ensures MapSeq(Select(s + [x], p), f) == MapSeq(Select(s, p), f) + (if p(x) then [f(x)] else [])
  {
    SelectSnoc(s, x, p);
    if p(x) {
      MapSnoc(Select(s, p), x, f);
    }
  }

  /** Every element of `s.filter(p).map(f)` is `f` of an element of `s` that passes `p`. */
  lemma MappedFrom<T, U>(s: seq<T>, p: T -> bool, f: T -> U)
    ensures forall m :: m in MapSeq(Select(s, p), f) ==> exists x :: x in s && p(x) && m == f(x)
  {
    var sel := Select(s, p);
    forall m | m in MapSeq(sel, f) ensures exists x :: x in s && p(x) && m == f(x) {
      var i :| 0 <= i < |sel| && MapSeq(sel, f)[i] == m;
      assert sel[i] in sel;
    }
  }

  /** `s.filter(p).map(f)` built one element at a time, as a loop accumulates it. */
  function FilterMap<T, U>(s: seq<T>, p: T -> bool, f: T -> U): seq<U> {
    if s == [] then []
    else FilterMap(s[..|s| - 1], p, f) + (if p(s[|s| - 1]) then [f(s[|s| - 1])] else [])
  }

  lemma {:induction false} FilterMapIsMapSelect<T, U>(s: seq<T>, p: T -> bool, f: T -> U)
    ensures FilterMap(s, p, f) == MapSeq(Select(s, p), f)
  {
    if s != [] {
      var init := s[..|s| - 1];
      FilterMapIsMapSelect(init, p, f);
      assert init + [s[|s| - 1]] == s;
      SelectMapSnoc(init, s[|s| - 1], p, f);
    }
  }

  // ---------------------------------------------------------------- objects

  /** A plain object as `Object.entries` lists it: key and value, in insertion order. */
  type Entries<T> = seq<(string, T)>

  function Keys<T>(o: Entries<T>): (ks: seq<string>)
    ensures |ks| == |o|
    ensures forall i :: 0 <= i < |o| ==> ks[i] == o[i].0
  {
    seq(|o|, i requires 0 <= i < |o| => o[i].0)
  }

  /** No key occurs twice, as in every entry list of a JavaScript object. */
  predicate DistinctKeys<T>(o: Entries<T>) {
    forall i, j :: 0 <= i < j < |o| ==> o[i].0 != o[j].0
  }

  /** `o[k] = v`: an existing key keeps its place and takes the new value, a new key goes last. */
  function Put<T>(o: Entries<T>, k: string, v: T): (r: Entries<T>)
    ensures k in Keys(o) ==> |r| == |o| && forall i :: 0 <= i < |o| ==> r[i] == (if o[i].0 == k then (k, v) else o[i])
    ensures k !in Keys(o) ==> r == o + [(k, v)]
  {
    if k in Keys(o) then seq(|o|, i requires 0 <= i < |o| => if o[i].0 == k then (k, v) else o[i])
    else o + [(k, v)]
  }

  lemma PutKeepsDistinct<T>(o: Entries<T>, k: string, v: T)
    requires DistinctKeys(o)
    ensures DistinctKeys(Put(o, k, v))
    ensures forall q :: q in Keys(Put(o, k, v)) <==> q in Keys(o) || q == k
  {
    var r := Put(o, k, v);
    if k in Keys(o) {
      assert forall i :: 0 <= i < |o| ==> r[i].0 == o[i].0;
      assert Keys(r) == Keys(o);
    } else {
      assert Keys(r) == Keys(o) + [k];
    }
  }

  /** `{ ...a, ...b }`: the entries of `b` assigned one by one onto `a`. */
  function Spread<T>(a: Entries<T>, b: Entries<T>): Entries<T>
    decreases |b|
  {
    if b == [] then a else Spread(Put(a, b[0].0, b[0].1), b[1..])
  }

  /** Spreading keeps keys distinct; its keys are those of both operands. */
  lemma {:induction false} SpreadKeys<T>(a: Entries<T>, b: Entries<T>)
    requires DistinctKeys(a)
    ensures DistinctKeys(Spread(a, b))
    ensures forall q :: q in Keys(Spread(a, b)) <==> q in Keys(a) || q in Keys(b)
    decreases |b|
  {
    if b != [] {
      PutKeepsDistinct(a, b[0].0, b[0].1);
      SpreadKeys(Put(a, b[0].0, b[0].1), b[1..]);
      forall q ensures q in Keys(b) <==> q == b[0].0 || q in Keys(b[1..]) {
        assert Keys(b) == [b[0].0] + Keys(b[1..]);
      }
    }
  }

  /** Spreading `b` onto an object with none of its keys appends `b` in order. */
  lemma {:induction false} SpreadDisjoint<T>(a: Entries<T>, b: Entries<T>)
    requires DistinctKeys(b)
    requires forall i, j :: 0 <= i < |a| && 0 <= j < |b| ==> a[i].0 != b[j].0
    ensures Spread(a, b) == a + b
    decreases |b|
  {
    if b != [] {
      var a1, b1 := a + [b[0]], b[1..];
      PutNewKey(a, b[0].0, b[0].1);
      DisjointShift(a, b);
      SpreadDisjoint(a1, b1);
      assert a1 + b1 == a + b;
    }
  }

  /** Assigning a key the object does not have appends it. */
  lemma PutNewKey<T>(o: Entries<T>, k: string, v: T)
    requires forall i :: 0 <= i < |o| ==> o[i].0 != k
    ensures Put(o, k, v) == o + [(k, v)]
  {
    assert k !in Keys(o) by {
      forall i | 0 <= i < |o| ensures Keys(o)[i] != k {
        assert Keys(o)[i] == o[i].0;
      }
    }
  }

  /** Moving the first entry of `b` over to `a` keeps the keys of `b` distinct and the two disjoint. */
  lemma DisjointShift<T>(a: Entries<T>, b: Entries<T>)
    requires b != [] && DistinctKeys(b)
    requires forall i, j :: 0 <= i < |a| && 0 <= j < |b| ==> a[i].0 != b[j].0
    ensures DistinctKeys(b[1..])
    ensures forall i, j :: 0 <= i < |a| + 1 && 0 <= j < |b| - 1 ==> (a + [b[0]])[i].0 != b[1..][j].0
  {
    var a1, b1 := a + [b[0]], b[1..];
    forall i, j | 0 <= i < j < |b1| ensures b1[i].0 != b1[j].0 {
      assert b1[i] == b[i + 1] && b1[j] == b[j + 1];
    }
    forall i, j | 0 <= i < |a1| && 0 <= j < |b1| ensures a1[i].0 != b1[j].0 {
      assert b1[j] == b[j + 1];
      if i < |a| {
        assert a1[i] == a[i];
      }
    }
  }

  /** `Object.values(o)`. */
  function Values<T>(o: Entries<T>): (vs: seq<T>)
    ensures |vs| == |o|
    ensures forall i :: 0 <= i < |o| ==> vs[i] == o[i].1
  {
    seq(|o|, i requires 0 <= i < |o| => o[i].1)
  }
}
