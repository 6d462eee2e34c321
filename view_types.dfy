/**
 * Option records the factories take (src/types/index.d.ts) and the pieces of
 * markup they produce, as abstract items: tag names, whitespace and the
 * translation marker are not modelled, attribute lists and their order are.
 * An empty string stands for an absent or falsy text field.
 */
module ViewTypes {
  import opened Wrappers
  import Js

  /** A field or list value: `string | number | boolean`. */
  datatype Scalar = Text(s: string) | Number(n: int) | Boolean(b: bool)

  predicate Truthy(v: Option<Scalar>) {
    v.Some? &&
    match v.value
    case Text(s) => s != ""
    case Number(n) => n != 0
    case Boolean(b) => b
  }

  predicate IsDigits(s: string) {
    forall i :: 0 <= i < |s| ==> '0' <= s[i] <= '9'
  }

  /** The number a string of decimal digits denotes, most significant first. */
  function DecimalValue(s: string): nat
    requires IsDigits(s)
  {
    if s == [] then 0
    else
      var c := s[|s| - 1] as int - '0' as int;
      assert 0 <= c;
      DecimalValue(s[..|s| - 1]) * 10 + c
  }

  /** A decimal integer as a template literal writes it: digits, with a leading `-` when negative. */
  predicate IsIntegerText(s: string) {
    (s != [] && IsDigits(s)) || (|s| >= 2 && s[0] == '-' && IsDigits(s[1..]))
  }

  /** The integer `Number(s)` reads back from such a text. */
  function IntegerValue(s: string): int
    requires IsIntegerText(s)
  {
    if s[0] == '-' then -(DecimalValue(s[1..]) as int) else DecimalValue(s)
  }

  /** The decimal digits of `n`, most significant first, without leading zeros. */
  function Digits(n: nat): (r: string)
    ensures |r| >= 1 && IsDigits(r)
    ensures DecimalValue(r) == n
    ensures |r| > 1 ==> r[0] != '0'
  {
    var d := ('0' as int + n % 10) as char;
    if n < 10 then [d]
    else
      var r := Digits(n / 10) + [d];
      assert r[..|r| - 1] == Digits(n / 10);
      r
  }

  /** How a scalar is written into markup by a template literal. */
  function ScalarText(v: Scalar): (r: string)
    ensures v.Number? ==> IsIntegerText(r) && IntegerValue(r) == v.n
    ensures v.Number? ==> (r[0] == '-' <==> v.n < 0)
  {
    match v
    case Text(s) => s
    case Number(n) =>
      if n < 0 then
        var r := "-" + Digits(-n);
        assert r[1..] == Digits(-n);
        r
      else Digits(n)
    case Boolean(b) => if b then "true" else "false"
  }

  /** `{ type, attr, params }` of an option or list item. */
  datatype EventSpec = EventSpec(eventType: string, attr: string, params: string)

  datatype InputOptions = InputOptions(inputType: string, name: string, labelText: string, value: Option<Scalar>,
                                       pattern: string, placeholder: string, autofocus: bool, disabled: bool)

  datatype ListItem = ListItem(icon: string, title: string, value: Option<Scalar>, event: Option<EventSpec>,
                               sub: bool, disabled: bool)

  /** `fields` / `items` is None when it is not an array. */
  datatype Fieldset = Fieldset(labelText: string, seperate: bool, fields: Option<seq<InputOptions>>)
  datatype Listset = Listset(labelText: string, seperate: bool, items: Option<seq<ListItem>>)

  datatype PanelSection = PanelSection(icon: string, title: string,
                                       fieldsets: Option<seq<Fieldset>>, listsets: Option<seq<Listset>>)

  datatype Position = Position(left: string, top: string)
  datatype Caption = Caption(icon: string, title: string)

  /** An attribute `name="value"`, or a bare one such as `active`. */
  datatype Attr = Attr(name: string, value: string) | Flag(name: string)

  /** `style="left:…;top:…;"` when a position object is given. */
  function PositionAttrs(p: Option<Position>): (r: seq<Attr>)
    ensures p.None? <==> r == []
    ensures p.Some? ==> r == [Attr("style", "left:" + p.value.left + ";top:" + p.value.top + ";")]
  {
    match p
    case None => []
    case Some(pos) => [Attr("style", "left:" + pos.left + ";top:" + pos.top + ";")]
  }

  lemma SemicolonEndsLeft(left: string, top: string)
    ensures ("left:" + left + ";top:" + top + ";")[5 + |left|] == ';'
  {
  }

  lemma NoSemicolonInLeft(left: string, top: string, k: nat)
    requires ';' !in left && k < |left|
    ensures ("left:" + left + ";top:" + top + ";")[5 + k] != ';'
  {
    assert ("left:" + left + ";top:" + top + ";")[5 + k] == left[k];
  }

  /** When `left` holds no `;`, the style text gives back both coordinates. */
  lemma StyleDeterminesPosition(a: Position, b: Position)
    requires ';' !in a.left && ';' !in b.left
    requires PositionAttrs(Some(a)) == PositionAttrs(Some(b))
    ensures a == b
  {
    var sa := "left:" + a.left + ";top:" + a.top + ";";
    var sb := "left:" + b.left + ";top:" + b.top + ";";
    assert sa == sb;
    if |a.left| < |b.left| {
      SemicolonEndsLeft(a.left, a.top);
      NoSemicolonInLeft(b.left, b.top, |a.left|);
    } else if |b.left| < |a.left| {
      SemicolonEndsLeft(b.left, b.top);
      NoSemicolonInLeft(a.left, a.top, |b.left|);
    }
    assert a.left == sa[5..5 + |a.left|] == sb[5..5 + |b.left|] == b.left;
    assert a.top == sa[10 + |a.left|..|sa| - 1] == sb[10 + |b.left|..|sb| - 1] == b.top;
  }

  /** A rendered form field: a text-like `<input>` with its optional attributes, or a checkbox. */
  datatype InputBlock =
    | TextInput(inputType: string, id: string, name: string, attrs: seq<Attr>)
    | Checkbox(id: string, name: string, disabled: bool, checked: bool, labelText: string)

  /** `input-<type>-` then the key lower-cased, its first run of white space turned into `-`. */
  function InputId(inputType: string, key: string): string {
    "input-" + inputType + "-" + Js.ReplaceFirstSpaceRun(Js.ToLower(key))
  }

  /** A key without white space is only lower-cased. */
  lemma InputIdPlain(inputType: string, key: string)
    requires Js.NoSpace(key)
    ensures InputId(inputType, key) == "input-" + inputType + "-" + Js.ToLower(key)
  {
    LowerKeepsSpace(key);
    Js.ReplaceFirstSpaceRunNoSpace(Js.ToLower(key));
  }

  /**
   * Only the first run of white space becomes `-` (the pattern has no global
   * flag): the rest of the key keeps its white space.
   */
  lemma InputIdFirstRunOnly(inputType: string, a: string, w: string, b: string)
    requires Js.NoSpace(a) && w != [] && Js.AllSpace(w)
    requires b == [] || !Js.IsSpace(b[0])
    ensures InputId(inputType, a + w + b) == "input-" + inputType + "-" + Js.ToLower(a) + "-" + Js.ToLower(b)
  {
    LowerKeepsSpace(a);
    LowerKeepsSpace(w);
    LowerKeepsSpace(b);
    assert Js.ToLower(a + w + b) == Js.ToLower(a) + Js.ToLower(w) + Js.ToLower(b);
    Js.ReplaceFirstSpaceRunSplit(Js.ToLower(a), Js.ToLower(w), Js.ToLower(b));
  }

  lemma LowerKeepsSpace(s: string)
    ensures forall i :: 0 <= i < |s| ==> (Js.IsSpace(Js.ToLower(s)[i]) <==> Js.IsSpace(s[i]))
  {
  }

  /** A word of lower-case letters has no white space and is its own lower case. */
  lemma LowercaseWord(s: string)
    requires forall i :: 0 <= i < |s| ==> 'a' <= s[i] <= 'z'
    ensures Js.NoSpace(s) && Js.ToLower(s) == s
  {
  }

  /**
   * The trigger attributes of an event: `<type>="<attr>"` when both are set,
   * then `params="<params>"` when params is set.
   */
  function EventAttrs(ev: EventSpec, attr: string): (r: seq<Attr>)
    ensures |r| == (if ev.eventType != "" && attr != "" then 1 else 0) + (if ev.params != "" then 1 else 0)
    ensures ev.eventType != "" && attr != "" ==> r[0] == Attr(ev.eventType, attr)
    ensures ev.params != "" ==> r[|r| - 1] == Attr("params", ev.params)
  {
    (if ev.eventType != "" && attr != "" then [Attr(ev.eventType, attr)] else []) +
    (if ev.params != "" then [Attr("params", ev.params)] else [])
  }

  /** A rendered list item: its attributes, icon, title, shown value and sub-arrow. */
  datatype ListEntry = ListEntry(attrs: seq<Attr>, icon: string, title: string, value: Option<Scalar>, subArrow: bool)

  const DisabledClass: Attr := Attr("class", "disabled")

  /** `createListItem` as a value, for the specifications of the lists that contain items. */
  function ListEntryOf(item: ListItem): ListEntry {
    ListEntry((if item.disabled then [DisabledClass] else []) +
              (if item.event.Some? then EventAttrs(item.event.value, item.event.value.attr) else []),
              item.icon, item.title, if Truthy(item.value) then item.value else None, item.sub)
  }

  /**
   * `createListItem` (the same rules in both factories): the disabled class
   * first iff disabled, then the event attribute iff the event has both a type
   * and an attr, and `params` iff the event has params.
   */
  method CreateListItem(item: ListItem) returns (r: ListEntry)
    ensures r == ListEntryOf(item)
    ensures item.disabled ==> r.attrs[0] == DisabledClass
    ensures var n := |r.attrs| - (if item.disabled then 1 else 0);
      && (item.event.None? ==> n == 0)
      && (item.event.Some? ==> r.attrs[|r.attrs| - n..] == EventAttrs(item.event.value, item.event.value.attr))
    ensures r.value.Some? <==> Truthy(item.value)
    ensures r.subArrow == item.sub
  {
    var attrs: seq<Attr> := [];
    if item.disabled {
      attrs := [DisabledClass];
    }
    if item.event.Some? {
      var ev := item.event.value;
      if ev.eventType != "" && ev.attr != "" {
        attrs := attrs + [Attr(ev.eventType, ev.attr)];
      }
      if ev.params != "" {
        attrs := attrs + [Attr("params", ev.params)];
      }
    }
    r := ListEntry(attrs, item.icon, item.title, if Truthy(item.value) then item.value else None, item.sub);
  }
}
