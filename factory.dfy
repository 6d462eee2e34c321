/**
 * The view-control builders of src/modules/factory.ts: the toolbar, the
 * control panel, the floating trigger bar, the search results and the finder
 * panel around them, and the form input.
 *
 * Each builder that accumulates its output in a loop is a method with that
 * loop, proved equal to a specification function; the builder's rules are
 * lemmas about the specification function. The markup is abstract: which
 * entries, blocks and attributes appear, and in which order.
 * `VIEW_CONTROL_OPTIONS` is the parameter `controls`, and the
 * `String.prototype.toCapitalCase` extension is the parameter `capitalize`.
 */
module Factory {
  import opened Wrappers
  import opened ViewTypes
  import opened Sections
  import Js

  datatype Error =
    | InvalidToolbarArguments   // 'Invalid Toolbar Arguments'
    | UndefinedMainOptions      // 'Undefined main options'
    | InvalidPanelOptions       // 'Invalid createPanel options'
    | UndefinedTriggersList     // 'Undefined triggers list'
    | InvalidFinderOptions      // 'Invalid createAddViewBlock options'
    | TypeError                 // reading entries or values of `null`

  /** An argument the source requires to be an object (`typeof x === 'object'`): anything else, `null`, or an object. */
  datatype ObjectArg<T> = NotAnObject | NullObject | Entries(entries: Js.Entries<T>)

  // ================================================================ createInput

  /** The optional attributes of a text or search input, in template order. */
  function TextInputAttrs(o: InputOptions): seq<Attr> {
    (if o.labelText != "" then [Attr("title", o.labelText)] else []) +
    (if Truthy(o.value) then [Attr("value", ScalarText(o.value.value))] else []) +
    (if o.disabled then [Attr("disabled", "true")] else []) +
    (if o.pattern != "" then [Attr("pattern", o.pattern)] else []) +
    (if o.autofocus then [Attr("autofocus", "true")] else []) +
    (if o.placeholder != "" then [Attr("placeholder", o.placeholder)]
     else if o.labelText != "" then [Attr("placeholder", o.labelText)] else [])
  }

  /**
   * `createInput`: a text or search input, or a checkbox; any other type
   * renders nothing. The id is built from the label, or from the name when
   * there is no label.
   */
  function CreateInput(o: InputOptions): (r: Option<InputBlock>)
    ensures r.Some? <==> o.inputType in {"text", "search", "checkbox"}
    ensures r.Some? ==> r.value.id == InputId(o.inputType, if o.labelText != "" then o.labelText else o.name)
    ensures r.Some? && r.value.TextInput? ==> r.value.inputType == o.inputType && r.value.name == o.name
    ensures r.Some? && o.inputType == "checkbox" ==> r.value.Checkbox? && (r.value.checked <==> Truthy(o.value))
  {
    var id := InputId(o.inputType, if o.labelText != "" then o.labelText else o.name);
    if o.inputType == "text" || o.inputType == "search" then
      Some(TextInput(o.inputType, id, o.name, TextInputAttrs(o)))
    else if o.inputType == "checkbox" then
      Some(Checkbox(id, o.name, o.disabled, Truthy(o.value), o.labelText))
    else
      None
  }

  // ================================================================ Toolbar

  /** A toolbar option; `sub` holds the entries of its sub-menu (empty when there is none). */
  datatype ToolbarOption = ToolbarOption(
    icon: string, labelText: string, title: string, event: Option<EventSpec>,
    disabled: bool, active: bool, extra: bool, meta: bool, hidden: bool, detached: bool,
    sub: Js.Entries<ToolbarOption>)

  type ToolbarEntry = (string, ToolbarOption)

  /** The settings after `{ editing: false, detached: false, ...settings }`; a field left out is false. */
  datatype ToolbarSettings = ToolbarSettings(editing: bool, detached: bool)

  datatype ToolbarInput = ToolbarInput(key: string, options: ObjectArg<ToolbarOption>,
                                       settings: ToolbarSettings, position: Option<Position>)

  /** A main or extra menu entry: attributes, icon and the label element, if any. */
  datatype MenuItem = MenuItem(attrs: seq<Attr>, icon: string, labelText: Option<string>)

  /** A sub-menu or control entry: attributes, then the `title` attribute it always carries, and the icon. */
  datatype SubItem = SubItem(attrs: seq<Attr>, title: string, icon: string)

  /** A sub-menu block `options="sub"`: the key it extends, the caption entry and its items. */
  datatype SubMenu = SubMenu(extendsKey: string, icon: string, caption: string, items: seq<SubItem>)

  /**
   * The toolbar: the extra toggle and the extra block are rendered exactly
   * when `extra` is non-empty, the control block exactly when `controls` is.
   */
  datatype ToolbarBlock = ToolbarBlock(key: string, attrs: seq<Attr>, main: seq<MenuItem>, extra: seq<MenuItem>,
                                       subs: seq<SubMenu>, controls: seq<SubItem>)

  predicate Shown(e: ToolbarEntry) { !e.1.hidden }
  predicate InMain(e: ToolbarEntry) { !e.1.hidden && !e.1.extra }
  predicate InExtra(e: ToolbarEntry) { !e.1.hidden && e.1.extra }
  predicate OpensSub(e: ToolbarEntry) { !e.1.hidden && |e.1.sub| > 0 }
  predicate IsMeta(e: ToolbarEntry) { !e.1.hidden && e.1.meta }
  predicate IsDetached(e: ToolbarEntry) { !e.1.hidden && e.1.detached }

  function Flags(o: ToolbarOption): seq<Attr> {
    (if o.active then [Flag("active")] else []) + (if o.disabled then [Flag("disabled")] else [])
  }

  /** The attributes `composeLi` gives an entry: a sub-menu opener ignores the event. */
  function MenuAttrs(attr: string, o: ToolbarOption): seq<Attr> {
    MenuHead(attr, o) + (if o.meta then [Flag("meta")] else []) + Flags(o) + LabelTitle(o)
  }

  function MenuHead(attr: string, o: ToolbarOption): seq<Attr> {
    if |o.sub| > 0 then [Attr("show", "sub-toolbar"), Attr("params", attr)]
    else if o.event.Some? then EventAttrs(o.event.value, attr) else []
  }

  function LabelTitle(o: ToolbarOption): seq<Attr> {
    (if o.labelText != "" then [Attr("class", "label")] else []) +
    (if o.title != "" then [Attr("title", o.title)] else [])
  }

  function MenuItemOf(e: ToolbarEntry): MenuItem {
    MenuItem(MenuAttrs(e.0, e.1), e.1.icon, LabelOf(e.1.labelText))
  }

  /** The attributes `composeSubLi(parent)` gives an entry: its event targets `parent.attr`, or `attr` without a parent. */
  function SubAttrs(parent: string, attr: string, o: ToolbarOption): seq<Attr> {
    (if o.event.Some? && o.event.value.eventType != "" && attr != ""
     then [Attr(o.event.value.eventType, (if parent != "" then parent + "." else "") + attr)] else []) +
    (if o.event.Some? && o.event.value.params != "" then [Attr("params", o.event.value.params)] else []) +
    Flags(o) +
    (if o.title != "" then [Attr("title", o.title)] else [])
  }

  /** `composeSubLi(parent)`, curried as in the source. */
  function ComposeSubLi(parent: string): ToolbarEntry -> SubItem {
    (e: ToolbarEntry) => SubItem(SubAttrs(parent, e.0, e.1), e.1.title, e.1.icon)
  }

  function SubMenuOf(e: ToolbarEntry): SubMenu {
    SubMenu(e.0, e.1.icon, if e.1.labelText != "" then e.1.labelText else e.1.title, Js.MapSeq(e.1.sub, ComposeSubLi(e.0)))
  }

  /** `o[attr] = option` for every entry that satisfies `p`, in order. */
  function Collect(es: Js.Entries<ToolbarOption>, p: ToolbarEntry -> bool): Js.Entries<ToolbarOption> {
    if es == [] then []
    else
      var prev := Collect(es[..|es| - 1], p);
      var last := es[|es| - 1];
      if p(last) then Js.Put(prev, last.0, last.1) else prev
  }

  /** The menu entries: the options, with the visible meta controls spread over them when editing. */
  function MenuEntries(options: ObjectArg<ToolbarOption>, settings: ToolbarSettings,
                       controls: Js.Entries<ToolbarOption>): Result<Js.Entries<ToolbarOption>, Error>
  {
    var meta := Collect(controls, IsMeta);
    if options.NotAnObject? then Err(InvalidToolbarArguments)
    else if settings.editing && meta != [] then
      Ok(Js.Spread(if options.Entries? then options.entries else [], meta))
    else if options.NullObject? then Err(TypeError)
    else Ok(options.entries)
  }

  function DetachedControls(settings: ToolbarSettings, controls: Js.Entries<ToolbarOption>): Js.Entries<ToolbarOption> {
    if settings.detached then Collect(controls, IsDetached) else []
  }

  function ToolbarRootAttrs(settings: ToolbarSettings, position: Option<Position>): seq<Attr> {
    (if settings.editing then [Attr("class", "editing")] else []) + PositionAttrs(position)
  }

  function ToolbarSpec(input: ToolbarInput, controls: Js.Entries<ToolbarOption>): Result<ToolbarBlock, Error> {
    match MenuEntries(input.options, input.settings, controls)
    case Err(e) => Err(e)
    case Ok(es) =>
      var main := Js.MapSeq(Js.Select(es, InMain), MenuItemOf);
      if main == [] then Err(UndefinedMainOptions)
      else
        Ok(ToolbarBlock(input.key, ToolbarRootAttrs(input.settings, input.position), main,
                        Js.MapSeq(Js.Select(es, InExtra), MenuItemOf),
                        Js.MapSeq(Js.Select(es, OpensSub), SubMenuOf),
                        Js.MapSeq(DetachedControls(input.settings, controls), ComposeSubLi(""))))
  }

  /** The first part of `composeLi`: the sub-menu opener and its sub-menu, or else the event attributes. */
  method ComposeLiHead(attr: string, o: ToolbarOption) returns (attrs: seq<Attr>, sub: Option<SubMenu>)
    ensures attrs == MenuHead(attr, o)
    ensures sub.Some? <==> |o.sub| > 0
    ensures sub.Some? ==> sub.value == SubMenuOf((attr, o))
  {
    attrs := [];
    sub := None;
    if |o.sub| > 0 {
      attrs := [Attr("show", "sub-toolbar"), Attr("params", attr)];
      var caption := if o.labelText != "" then o.labelText else o.title;
      sub := Some(SubMenu(attr, o.icon, caption, Js.MapSeq(o.sub, ComposeSubLi(attr))));
    } else if o.event.Some? {
      var ev := o.event.value;
      if ev.eventType != "" && attr != "" {
        attrs := attrs + [Attr(ev.eventType, attr)];
      }
      if ev.params != "" {
        attrs := attrs + [Attr("params", ev.params)];
      }
    }
  }

  /**
   * `composeLi` for one visible entry: its menu item, and its sub-menu when
   * it has sub entries. A sub-menu opener carries `show="sub-toolbar"` and
   * `params=<key>` first, and no event attribute.
   */
  method ComposeLi(e: ToolbarEntry) returns (li: MenuItem, sub: Option<SubMenu>)
    ensures li == MenuItemOf(e)
    ensures sub.Some? <==> |e.1.sub| > 0
    ensures sub.Some? ==> sub.value == SubMenuOf(e)
    ensures |e.1.sub| > 0 ==> li.attrs[..2] == [Attr("show", "sub-toolbar"), Attr("params", e.0)]
  {
    var (attr, o) := e;
    var head;
    head, sub := ComposeLiHead(attr, o);
    var meta: seq<Attr> := if o.meta then [Flag("meta")] else [];
    var flags: seq<Attr> := [];
    if o.active {
      flags := flags + [Flag("active")];
    }
    if o.disabled {
      flags := flags + [Flag("disabled")];
    }
    assert flags == Flags(o);
    var labelTitle: seq<Attr> := [];
    if o.labelText != "" {
      labelTitle := labelTitle + [Attr("class", "label")];
    }
    if o.title != "" {
      labelTitle := labelTitle + [Attr("title", o.title)];
    }
    assert labelTitle == LabelTitle(o);
    li := MenuItem(head + meta + flags + labelTitle, o.icon, LabelOf(o.labelText));
    if |o.sub| > 0 {
      OpenerAttrsFirst(e);
    }
  }

  /** A sub-menu opener's item starts with `show="sub-toolbar"` and `params=<key>`. */
  lemma OpenerAttrsFirst(e: ToolbarEntry)
    requires |e.1.sub| > 0
    ensures MenuItemOf(e).attrs[..2] == [Attr("show", "sub-toolbar"), Attr("params", e.0)]
  {
    var head := MenuHead(e.0, e.1);
    var rest := (if e.1.meta then [Flag("meta")] else []) + Flags(e.1) + LabelTitle(e.1);
    assert MenuAttrs(e.0, e.1) == head + rest;
    assert (head + rest)[..2] == head;
  }

  /** The `VIEW_CONTROL_OPTIONS` pass: the visible meta controls, and the visible detached ones when asked for. */
  method CollectControls(controls: Js.Entries<ToolbarOption>, settings: ToolbarSettings)
    returns (metaOptions: Js.Entries<ToolbarOption>, detachedOptions: Js.Entries<ToolbarOption>)
    ensures metaOptions == Collect(controls, IsMeta)
    ensures detachedOptions == DetachedControls(settings, controls)
    ensures !settings.detached ==> detachedOptions == []
  {
    metaOptions := [];
    detachedOptions := [];
    for i := 0 to |controls|
      invariant metaOptions == Collect(controls[..i], IsMeta)
      invariant detachedOptions == DetachedControls(settings, controls[..i])
    {
      assert controls[..i + 1][..i] == controls[..i];
      var (attr, option) := controls[i];
      if !option.hidden {
        if option.meta {
          metaOptions := Js.Put(metaOptions, attr, option);
        }
        if settings.detached && option.detached {
          detachedOptions := Js.Put(detachedOptions, attr, option);
        }
      }
    }
    assert controls[..|controls|] == controls;
  }

  /** The menu pass: `composeLi` on every visible entry, in order. */
  method ComposeMenu(options: Js.Entries<ToolbarOption>)
    returns (main: seq<MenuItem>, extra: seq<MenuItem>, subs: seq<SubMenu>)
    ensures main == Js.MapSeq(Js.Select(options, InMain), MenuItemOf)
    ensures extra == Js.MapSeq(Js.Select(options, InExtra), MenuItemOf)
    ensures subs == Js.MapSeq(Js.Select(options, OpensSub), SubMenuOf)
  {
    main, extra, subs := [], [], [];
    for i := 0 to |options|
      invariant main == Js.FilterMap(options[..i], InMain, MenuItemOf)
      invariant extra == Js.FilterMap(options[..i], InExtra, MenuItemOf)
      invariant subs == Js.FilterMap(options[..i], OpensSub, SubMenuOf)
    {
      var e := options[i];
      assert options[..i + 1][..i] == options[..i];
      if e.1.hidden {
        continue;
      }
      var li, sub := ComposeLi(e);
      if sub.Some? {
        subs := subs + [sub.value];
      }
      if e.1.extra {
        extra := extra + [li];
      } else {
        main := main + [li];
      }
    }
    assert options[..|options|] == options;
    Js.FilterMapIsMapSelect(options, InMain, MenuItemOf);
    Js.FilterMapIsMapSelect(options, InExtra, MenuItemOf);
    Js.FilterMapIsMapSelect(options, OpensSub, SubMenuOf);
  }

  /** `Toolbar`: collects the meta and detached controls, merges, then lays out the visible entries. */
  method Toolbar(input: ToolbarInput, controls: Js.Entries<ToolbarOption>) returns (r: Result<ToolbarBlock, Error>)
    ensures r == ToolbarSpec(input, controls)
  {
    if input.options.NotAnObject? {
      return Err(InvalidToolbarArguments);
    }
    var settings := input.settings;
    var metaOptions, detachedOptions := CollectControls(controls, settings);
    var options: Js.Entries<ToolbarOption>;
    if settings.editing && |metaOptions| > 0 {
      options := Js.Spread(if input.options.Entries? then input.options.entries else [], metaOptions);
    } else if input.options.NullObject? {
      return Err(TypeError);
    } else {
      options := input.options.entries;
    }
    assert MenuEntries(input.options, settings, controls) == Ok(options);
    var main, extra, subs := ComposeMenu(options);
    if |main| == 0 {
      return Err(UndefinedMainOptions);
    }
    r := Ok(ToolbarBlock(input.key, ToolbarRootAttrs(settings, input.position), main, extra, subs,
                         Js.MapSeq(detachedOptions, ComposeSubLi(""))));
  }

  // ---------------------------------------------------------------- toolbar properties

  /** Over distinct keys, collecting with `o[attr] = option` is filtering. */
  lemma {:induction false} CollectIsSelect(es: Js.Entries<ToolbarOption>, p: ToolbarEntry -> bool)
    requires Js.DistinctKeys(es)
    ensures Collect(es, p) == Js.Select(es, p)
  {
    if es != [] {
      var init := es[..|es| - 1];
      var last := es[|es| - 1];
      assert Js.DistinctKeys(init);
      CollectIsSelect(init, p);
      if p(last) {
        var sel := Js.Select(init, p);
        forall i | 0 <= i < |sel| ensures sel[i].0 != last.0 {
          assert sel[i] in init;
        }
        assert last.0 !in Js.Keys(sel);
      }
      assert init + [last] == es;
      Js.SelectSnoc(init, last, p);
    }
  }

  lemma {:induction false} MainExtraSplitShown(es: Js.Entries<ToolbarOption>)
    ensures |Js.Select(es, InMain)| + |Js.Select(es, InExtra)| == |Js.Select(es, Shown)|
  {
    if es != [] {
      var init := es[..|es| - 1];
      var last := es[|es| - 1];
      MainExtraSplitShown(init);
      assert init + [last] == es;
      Js.SelectSnoc(init, last, InMain);
      Js.SelectSnoc(init, last, InExtra);
      Js.SelectSnoc(init, last, Shown);
    }
  }

  /**
   * Every visible entry is rendered once, in the main or the extra block;
   * a hidden entry is rendered nowhere, and the toolbar fails with
   * 'Undefined main options' exactly when no visible entry is a main one.
   */
  lemma ToolbarLayout(input: ToolbarInput, controls: Js.Entries<ToolbarOption>)
    requires MenuEntries(input.options, input.settings, controls).Ok?
    ensures var es := MenuEntries(input.options, input.settings, controls).value;
      ToolbarSpec(input, controls) == Err(UndefinedMainOptions) <==> forall i :: 0 <= i < |es| ==> !InMain(es[i])
    ensures var es := MenuEntries(input.options, input.settings, controls).value;
      var r := ToolbarSpec(input, controls);
      r.Ok? ==> |r.value.main| + |r.value.extra| == |Js.Select(es, Shown)| &&
                (forall m :: m in r.value.main ==> exists e :: e in es && InMain(e) && m == MenuItemOf(e)) &&
                (forall m :: m in r.value.extra ==> exists e :: e in es && InExtra(e) && m == MenuItemOf(e))
  {
    var es := MenuEntries(input.options, input.settings, controls).value;
    Js.SelectEmpty(es, InMain);
    MainExtraSplitShown(es);
    Js.MappedFrom(es, InMain, MenuItemOf);
    Js.MappedFrom(es, InExtra, MenuItemOf);
  }

  /**
   * Meta controls join the menu only in editing mode. A non-object fails
   * first; `null` options fail on `Object.entries` unless meta controls were
   * spread over them. When the options share no key with the meta controls,
   * the meta controls come last, in their own order.
   */
  lemma ToolbarMetaMerge(input: ToolbarInput, controls: Js.Entries<ToolbarOption>)
    requires Js.DistinctKeys(controls)
    ensures var m := MenuEntries(input.options, input.settings, controls);
      && (m == Err(InvalidToolbarArguments) <==> input.options.NotAnObject?)
      && (input.options.NullObject? ==>
            (m == Err(TypeError) <==> !input.settings.editing || Js.Select(controls, IsMeta) == []))
      && (input.options.Entries? && !input.settings.editing ==> m == Ok(input.options.entries))
      && (input.options.Entries? && input.settings.editing &&
          (forall i, j :: 0 <= i < |input.options.entries| && 0 <= j < |controls| && IsMeta(controls[j]) ==>
             input.options.entries[i].0 != controls[j].0)
          ==> m == Ok(input.options.entries + Js.Select(controls, IsMeta)))
  {
    CollectIsSelect(controls, IsMeta);
    var meta := Js.Select(controls, IsMeta);
    assert Js.DistinctKeys(meta) by {
      forall i, j | 0 <= i < j < |meta| ensures meta[i].0 != meta[j].0 {
        SelectKeepsOrder(controls, IsMeta, i, j);
      }
    }
    if input.options.Entries? {
      var es := input.options.entries;
      if input.settings.editing && (forall i, j :: 0 <= i < |es| && 0 <= j < |controls| && IsMeta(controls[j]) ==> es[i].0 != controls[j].0) {
        forall i, j | 0 <= i < |es| && 0 <= j < |meta| ensures es[i].0 != meta[j].0 {
          assert meta[j] in controls;
          var k :| 0 <= k < |controls| && controls[k] == meta[j];
        }
        Js.SpreadDisjoint(es, meta);
      }
    }
  }

  /** The elements `Select` keeps appear at increasing positions of the source. */
  lemma {:induction false} SelectKeepsOrder<T>(s: seq<T>, p: T -> bool, i: int, j: int)
    requires 0 <= i < j < |Js.Select(s, p)|
    ensures exists a, b :: 0 <= a < b < |s| && s[a] == Js.Select(s, p)[i] && s[b] == Js.Select(s, p)[j]
  {
    var init := s[..|s| - 1];
    var last := s[|s| - 1];
    assert init + [last] == s;
    Js.SelectSnoc(init, last, p);
    if j < |Js.Select(init, p)| {
      SelectKeepsOrder(init, p, i, j);
      var a, b :| 0 <= a < b < |init| && init[a] == Js.Select(init, p)[i] && init[b] == Js.Select(init, p)[j];
      assert s[a] == init[a] && s[b] == init[b];
    } else {
      assert Js.Select(s, p)[j] == last;
      assert Js.Select(s, p)[i] in init;
      var a :| 0 <= a < |init| && init[a] == Js.Select(s, p)[i];
      assert s[a] == init[a] && s[|s| - 1] == last;
    }
  }

  /**
   * The control block lists the visible detached controls, in order, and
   * only when the `detached` setting is on; their events target the bare key.
   */
  lemma ToolbarControls(input: ToolbarInput, controls: Js.Entries<ToolbarOption>)
    requires Js.DistinctKeys(controls)
    requires ToolbarSpec(input, controls).Ok?
    ensures var r := ToolbarSpec(input, controls).value;
      && (!input.settings.detached ==> r.controls == [])
      && (input.settings.detached ==> r.controls == Js.MapSeq(Js.Select(controls, IsDetached), ComposeSubLi("")))
  {
    CollectIsSelect(controls, IsDetached);
  }

  // ================================================================ Panel

  /** A section tab: its name, whether it is marked active, its title (if any) and icon. */
  datatype Tab = Tab(name: string, active: bool, title: Option<string>, icon: string)

  /** The body of a section: its fieldset pieces and its listset pieces. */
  datatype SectionBody = SectionBody(fieldsets: seq<Piece>, listsets: seq<Piece>)

  datatype PanelBlock = PanelBlock(key: string, attrs: seq<Attr>, caption: Caption, tabs: seq<Tab>, bodies: seq<SectionBody>)

  datatype PanelInput = PanelInput(key: string, caption: Caption, options: ObjectArg<PanelSection>,
                                   position: Option<Position>, active: Option<string>)

  function BodyOf(s: PanelSection): SectionBody {
    SectionBody(if s.fieldsets.None? then [] else FieldsetPieces(s.fieldsets.value, CreateInput),
                if s.listsets.None? then [] else ListsetPieces(s.listsets.value))
  }

  /** The tab of the section at `index`: active when it is the requested one, or the first. */
  function TabAt(es: Js.Entries<PanelSection>, active: Option<string>, index: nat): Tab
    requires index < |es|
  {
    Tab(es[index].0, active == Some(es[index].0) || index == 0, LabelOf(es[index].1.title), es[index].1.icon)
  }

  function Tabs(es: Js.Entries<PanelSection>, active: Option<string>): seq<Tab> {
    seq(|es|, i requires 0 <= i < |es| => TabAt(es, active, i))
  }

  function PanelSpec(input: PanelInput): Result<PanelBlock, Error> {
    match input.options
    case NotAnObject => Err(InvalidPanelOptions)
    case NullObject => Err(TypeError)
    case Entries(es) =>
      Ok(PanelBlock(input.key, PositionAttrs(input.position), input.caption, Tabs(es, input.active),
                    Js.MapSeq(Js.Values(es), BodyOf)))
  }

  /** `composeSection` for one section. */
  method ComposeSection(es: Js.Entries<PanelSection>, active: Option<string>, index: nat)
    returns (tab: Tab, body: SectionBody)
    requires index < |es|
    ensures tab == TabAt(es, active, index)
    ensures body == BodyOf(es[index].1)
  {
    var (name, section) := es[index];
    var isActive := active == Some(name) || index == 0;
    tab := Tab(name, isActive, if section.title != "" then Some(section.title) else None, section.icon);
    var fieldsetPieces := ComposeFieldsets(section.fieldsets, CreateInput);
    var listsetPieces := ComposeListsets(section.listsets);
    body := SectionBody(fieldsetPieces, listsetPieces);
  }

  /** `Panel`: one tab and one body per section, in order. */
  method Panel(input: PanelInput) returns (r: Result<PanelBlock, Error>)
    ensures r == PanelSpec(input)
  {
    if input.options.NotAnObject? {
      return Err(InvalidPanelOptions);
    }
    if input.options.NullObject? {
      return Err(TypeError);
    }
    var es := input.options.entries;
    var tabs: seq<Tab> := [];
    var bodies: seq<SectionBody> := [];
    for i := 0 to |es|
      invariant |tabs| == i && forall j :: 0 <= j < i ==> tabs[j] == TabAt(es, input.active, j)
      invariant bodies == Js.MapSeq(Js.Values(es)[..i], BodyOf)
    {
      var tab, body := ComposeSection(es, input.active, i);
      assert Js.Values(es)[..i + 1] == Js.Values(es)[..i] + [es[i].1];
      Js.MapSnoc(Js.Values(es)[..i], es[i].1, BodyOf);
      tabs := tabs + [tab];
      bodies := bodies + [body];
    }
    assert Js.Values(es)[..|es|] == Js.Values(es);
    assert tabs == Tabs(es, input.active);
    r := Ok(PanelBlock(input.key, PositionAttrs(input.position), input.caption, tabs, bodies));
  }

  /**
   * The first tab is always marked active, and so is the tab `active`
   * names: when it names a later section, two tabs are marked active.
   */
  lemma PanelActiveTabs(input: PanelInput, j: nat)
    requires input.options.Entries? && Js.DistinctKeys(input.options.entries)
    requires 0 < j < |input.options.entries| && input.active == Some(input.options.entries[j].0)
    ensures var tabs := PanelSpec(input).value.tabs;
      tabs[0].active && tabs[j].active &&
      forall i :: 0 <= i < |tabs| ==> (tabs[i].active <==> i == 0 || i == j)
  {
  }

  /**
   * Each section body keeps the fieldset and listset rules: one piece per
   * non-empty set, in order, followed by a separator exactly when that set
   * has `seperate`.
   */
  lemma PanelBodies(input: PanelInput, i: nat)
    requires input.options.Entries? && i < |input.options.entries|
    ensures var s := input.options.entries[i].1;
      var b := PanelSpec(input).value.bodies[i];
      && SeparatorsFollowSets(b.fieldsets) && SeparatorsFollowSets(b.listsets)
      && (s.fieldsets.Some? ==> CountSets(b.fieldsets) == |Js.Select(s.fieldsets.value, FieldsetShown)|)
      && (s.listsets.Some? ==> CountSets(b.listsets) == |Js.Select(s.listsets.value, ListsetShown)|)
      && (s.fieldsets.Some? ==> SeparatedSets(b.fieldsets) == Js.MapSeq(Js.Select(s.fieldsets.value, FieldsetShown), FieldsetSeperate))
      && (s.listsets.Some? ==> SeparatedSets(b.listsets) == Js.MapSeq(Js.Select(s.listsets.value, ListsetShown), ListsetSeperate))
  {
    var s := input.options.entries[i].1;
    if s.fieldsets.Some? {
      FieldsetPiecesShape(s.fieldsets.value, CreateInput);
    }
    if s.listsets.Some? {
      ListsetPiecesShape(s.listsets.value);
    }
  }

  // ================================================================ Floating

  datatype Trigger = AddView(params: string) | PasteView(params: string)

  datatype FloatingBlock = FloatingBlock(key: string, items: seq<Trigger>)

  predicate KnownTrigger(t: string) { t == "addpoint" || t == "paste" }

  function TriggerOf(viewType: string): string -> Trigger {
    (t: string) => if t == "addpoint" then AddView(viewType) else PasteView(viewType)
  }

  /** `triggers` is None when it is not an array. */
  function FloatingSpec(key: string, viewType: string, triggers: Option<seq<string>>): Result<FloatingBlock, Error> {
    if triggers.None? || triggers.value == [] then Err(UndefinedTriggersList)
    else Ok(FloatingBlock(key, Js.MapSeq(Js.Select(triggers.value, KnownTrigger), TriggerOf(viewType))))
  }

  /** `Floating`: one item per known trigger, in order; unknown triggers are skipped. */
  method Floating(key: string, viewType: string, triggers: Option<seq<string>>) returns (r: Result<FloatingBlock, Error>)
    ensures r == FloatingSpec(key, viewType, triggers)
  {
    if triggers.None? || |triggers.value| == 0 {
      return Err(UndefinedTriggersList);
    }
    var ts := triggers.value;
    var list: seq<Trigger> := [];
    for i := 0 to |ts|
      invariant list == Js.MapSeq(Js.Select(ts[..i], KnownTrigger), TriggerOf(viewType))
    {
      assert ts[..i + 1] == ts[..i] + [ts[i]];
      Js.SelectSnoc(ts[..i], ts[i], KnownTrigger);
      Js.MapSnoc(Js.Select(ts[..i], KnownTrigger), ts[i], TriggerOf(viewType));
      if ts[i] == "addpoint" {
        list := list + [AddView(viewType)];
      } else if ts[i] == "paste" {
        list := list + [PasteView(viewType)];
      }
    }
    assert ts[..|ts|] == ts;
    r := Ok(FloatingBlock(key, list));
  }

  /**
   * A missing or empty list is an error, but a list of only unknown triggers
   * gives an empty bar; every item carries the view type.
   */
  lemma FloatingItems(key: string, viewType: string, ts: seq<string>)
    requires ts != []
    ensures var r := FloatingSpec(key, viewType, Some(ts));
      && r.Ok?
      && (r.value.items == [] <==> forall i :: 0 <= i < |ts| ==> !KnownTrigger(ts[i]))
      && (forall t :: t in r.value.items ==> t.params == viewType)
  {
    Js.SelectEmpty(ts, KnownTrigger);
  }

  // ================================================================ SearchResult and FinderPanel

  datatype SearchBlock = Results(pieces: seq<Piece>) | NoResult

  /** A group label: dashes become spaces, then the capitalising extension is applied. */
  function ResultLabel(labelText: string, capitalize: string -> string): Option<string> {
    if labelText != "" then Some(capitalize(Js.ReplaceAll(labelText, '-', ' '))) else None
  }

  /**
   * The pieces after the groups `ls`. The separator rule looks at the
   * group's index among all groups, not at what was rendered before it.
   */
  function ResultPieces(ls: seq<Listset>, capitalize: string -> string): seq<Piece> {
    if ls == [] then []
    else ResultPieces(ls[..|ls| - 1], capitalize) + GroupOut(ls[|ls| - 1], |ls| - 1, capitalize)
  }

  /** What the loop adds for the list at `index`. */
  function GroupOut(l: Listset, index: nat, capitalize: string -> string): seq<Piece> {
    if ListsetShown(l) then
      (if l.seperate && index > 0 then [Separator] else []) +
      [ListsetPiece(ResultLabel(l.labelText, capitalize), Js.MapSeq(l.items.value, ListEntryOf))]
    else []
  }

  /** `list` is None for `null` or `undefined`. */
  function SearchSpec(list: Option<Js.Entries<Listset>>, capitalize: string -> string): Result<SearchBlock, Error> {
    if list.None? then Err(TypeError)
    else
      var pieces := ResultPieces(Js.Values(list.value), capitalize);
      Ok(if pieces == [] then NoResult else Results(pieces))
  }

  /** `SearchResult`: the groups with items, each preceded by a separator when asked for and not the first group. */
  method SearchResult(list: Option<Js.Entries<Listset>>, capitalize: string -> string) returns (r: Result<SearchBlock, Error>)
    ensures r == SearchSpec(list, capitalize)
  {
    if list.None? {
      return Err(TypeError);
    }
    var ls := Js.Values(list.value);
    var pieces: seq<Piece> := [];
    for index := 0 to |ls|
      invariant pieces == ResultPieces(ls[..index], capitalize)
    {
      assert ls[..index + 1][..index] == ls[..index];
      var l := ls[index];
      if l.items.None? || |l.items.value| == 0 {
        continue;
      }
      if l.seperate && index > 0 {
        pieces := pieces + [Separator];
      }
      var labelText := if l.labelText != "" then Some(capitalize(Js.ReplaceAll(l.labelText, '-', ' '))) else None;
      pieces := pieces + [ListsetPiece(labelText, Js.MapSeq(l.items.value, ListEntryOf))];
    }
    assert ls[..|ls|] == ls;
    r := Ok(if pieces == [] then NoResult else Results(pieces));
  }

  /** Every separator is directly followed by a group. */
  predicate SeparatorsPrecedeSets(p: seq<Piece>) {
    forall i :: 0 <= i < |p| && p[i].Separator? ==> i + 1 < |p| && !p[i + 1].Separator?
  }

  /** One group per list with items, in order, each separator directly before a group. */
  lemma {:induction false} ResultPiecesCounted(ls: seq<Listset>, capitalize: string -> string)
    ensures SeparatorsPrecedeSets(ResultPieces(ls, capitalize))
    ensures CountSets(ResultPieces(ls, capitalize)) == |Js.Select(ls, ListsetShown)|
  {
    if ls != [] {
      var init := ls[..|ls| - 1];
      var last := ls[|ls| - 1];
      ResultPiecesCounted(init, capitalize);
      assert init + [last] == ls;
      Js.SelectSnoc(init, last, ListsetShown);
      var prev := ResultPieces(init, capitalize);
      if ListsetShown(last) {
        var sep := if last.seperate && |ls| - 1 > 0 then [Separator] else [];
        var group := ListsetPiece(ResultLabel(last.labelText, capitalize), Js.MapSeq(last.items.value, ListEntryOf));
        assert ResultPieces(ls, capitalize) == prev + (sep + [group]);
        AppendGroup(prev, sep, group);
      } else {
        assert ResultPieces(ls, capitalize) == prev;
      }
    }
  }

  /** For each group, in order, whether a separator directly precedes it. */
  function SeparatedGroups(p: seq<Piece>): seq<bool> {
    if p == [] then []
    else if p[|p| - 1].Separator? then SeparatedGroups(p[..|p| - 1])
    else SeparatedGroups(p[..|p| - 1]) + [|p| > 1 && p[|p| - 2].Separator?]
  }

  predicate ShownAt(e: (nat, Listset)) { ListsetShown(e.1) }

  /** The rule as the loop states it: a separator when asked for, unless the list is the first of all lists. */
  predicate SeparatorWanted(e: (nat, Listset)) { e.1.seperate && e.0 > 0 }

  /**
   * The groups come from the lists with items, in order, and a group has a
   * separator in front of it exactly when its list asks for one and is not
   * the first list, whether or not the lists before it were rendered.
   */
  lemma {:induction false} ResultSeparators(ls: seq<Listset>, capitalize: string -> string)
    ensures SeparatedGroups(ResultPieces(ls, capitalize)) == Js.MapSeq(Js.Select(Js.Indexed(ls), ShownAt), SeparatorWanted)
  {
    if ls != [] {
      var init := ls[..|ls| - 1];
      var last := ls[|ls| - 1];
      ResultSeparators(init, capitalize);
      ResultPiecesCounted(init, capitalize);
      assert init + [last] == ls;
      WantedSnoc(init, last);
      SeparatedStep(init, last, capitalize);
    }
  }

  /** One more list adds one flag, its own separator choice, exactly when it has items. */
  lemma SeparatedStep(init: seq<Listset>, last: Listset, capitalize: string -> string)
    requires SeparatorsPrecedeSets(ResultPieces(init, capitalize))
    ensures SeparatedGroups(ResultPieces(init + [last], capitalize))
         == SeparatedGroups(ResultPieces(init, capitalize)) + (if ListsetShown(last) then [last.seperate && |init| > 0] else [])
  {
    var ls := init + [last];
    assert ls[..|ls| - 1] == init;
    GroupOutSeparated(ResultPieces(init, capitalize), last, |init|, capitalize);
  }

  lemma GroupOutSeparated(prev: seq<Piece>, l: Listset, index: nat, capitalize: string -> string)
    requires SeparatorsPrecedeSets(prev)
    ensures SeparatedGroups(prev + GroupOut(l, index, capitalize))
         == SeparatedGroups(prev) + (if ListsetShown(l) then [l.seperate && index > 0] else [])
  {
    if ListsetShown(l) {
      var sep := if l.seperate && index > 0 then [Separator] else [];
      var group := ListsetPiece(ResultLabel(l.labelText, capitalize), Js.MapSeq(l.items.value, ListEntryOf));
      GroupSeparated(prev, sep, group);
    } else {
      assert prev + [] == prev;
    }
  }

  /** One more list adds its flag exactly when it has items. */
  lemma WantedSnoc(init: seq<Listset>, last: Listset)
    ensures Js.MapSeq(Js.Select(Js.Indexed(init + [last]), ShownAt), SeparatorWanted)
         == Js.MapSeq(Js.Select(Js.Indexed(init), ShownAt), SeparatorWanted) +
            (if ListsetShown(last) then [last.seperate && |init| > 0] else [])
  {
    Js.IndexedSnoc(init, last);
    Js.SelectMapSnoc<(nat, Listset), bool>(Js.Indexed(init), (|init|, last), ShownAt, SeparatorWanted);
  }

  /** A group appended after output that does not end in a separator is flagged by its own separator. */
  lemma GroupSeparated(prev: seq<Piece>, sep: seq<Piece>, group: Piece)
    requires SeparatorsPrecedeSets(prev)
    requires sep == [] || sep == [Separator]
    requires !group.Separator?
    ensures SeparatedGroups(prev + (sep + [group])) == SeparatedGroups(prev) + [sep != []]
  {
    var p := prev + (sep + [group]);
    assert p[..|p| - 1] == prev + sep;
    if sep != [] {
      assert (prev + sep)[..|prev + sep| - 1] == prev;
    } else {
      assert prev + sep == prev;
      if prev != [] {
        assert p[|p| - 2] == prev[|prev| - 1];
      }
    }
  }

  /** Where separators precede groups, a non-empty output ends with a group and so counts one. */
  lemma GroupLast(p: seq<Piece>)
    requires SeparatorsPrecedeSets(p) && p != []
    ensures CountSets(p) >= 1
  {
    assert !p[|p| - 1].Separator?;
  }

  /**
   * The results hold one group per list with items, in order, each
   * separator directly before a group, a separator before exactly the groups
   * whose list asks for one and is not the first list, and are empty
   * ('No result') exactly when no list has items.
   */
  lemma ResultPiecesShape(ls: seq<Listset>, capitalize: string -> string)
    ensures SeparatorsPrecedeSets(ResultPieces(ls, capitalize))
    ensures CountSets(ResultPieces(ls, capitalize)) == |Js.Select(ls, ListsetShown)|
    ensures ResultPieces(ls, capitalize) == [] <==> forall i :: 0 <= i < |ls| ==> !ListsetShown(ls[i])
    ensures SeparatedGroups(ResultPieces(ls, capitalize)) == Js.MapSeq(Js.Select(Js.Indexed(ls), ShownAt), SeparatorWanted)
  {
    ResultPiecesCounted(ls, capitalize);
    ResultSeparators(ls, capitalize);
    Js.SelectEmpty(ls, ListsetShown);
    var p := ResultPieces(ls, capitalize);
    if p != [] {
      GroupLast(p);
    }
  }

  /** Appending a group, with or without a separator in front, adds one set and keeps separators before groups. */
  lemma AppendGroup(prev: seq<Piece>, sep: seq<Piece>, group: Piece)
    requires SeparatorsPrecedeSets(prev)
    requires sep == [] || sep == [Separator]
    requires !group.Separator?
    ensures SeparatorsPrecedeSets(prev + (sep + [group]))
    ensures CountSets(prev + (sep + [group])) == CountSets(prev) + 1
  {
    CountSetsAppend(prev, sep + [group]);
    OneGroupCounted(sep, group);
    SeparatorsPrecedeAppend(prev, sep, group);
  }

  lemma SeparatorsPrecedeAppend(prev: seq<Piece>, sep: seq<Piece>, group: Piece)
    requires SeparatorsPrecedeSets(prev)
    requires sep == [] || sep == [Separator]
    requires !group.Separator?
    ensures SeparatorsPrecedeSets(prev + (sep + [group]))
  {
    var p := prev + (sep + [group]);
    forall i | 0 <= i < |p| && p[i].Separator?
      ensures i + 1 < |p| && !p[i + 1].Separator?
    {
      if i < |prev| {
        assert p[i] == prev[i];
        if i + 1 < |prev| {
          assert p[i + 1] == prev[i + 1];
        }
      } else {
        assert i == |prev| && sep != [];
        assert p[i + 1] == group;
      }
    }
  }

  lemma OneGroupCounted(sep: seq<Piece>, group: Piece)
    requires sep == [] || sep == [Separator]
    requires !group.Separator?
    ensures CountSets(sep + [group]) == 1
  {
    assert (sep + [group])[..|sep + [group]| - 1] == sep;
    if sep != [] {
      assert CountSets([Separator]) == CountSets([Separator][..0]) + 0;
      assert [Separator][..0] == [];
    } else {
      assert CountSets([]) == 0;
    }
  }

  /** The result is 'No result' exactly when no list has items. */
  lemma NoResultWhenNothingShown(es: Js.Entries<Listset>, capitalize: string -> string)
    ensures SearchSpec(Some(es), capitalize) == Ok(NoResult) <==> forall i :: 0 <= i < |es| ==> !ListsetShown(es[i].1)
  {
    ResultPiecesShape(Js.Values(es), capitalize);
  }

  /**
   * Because the separator rule uses the index, a separator can open the
   * results: here the first group has no items and the second asks for a
   * separator.
   */
  lemma SeparatorCanLead(item: ListItem, capitalize: string -> string)
    ensures var ls := [Listset("", false, Some([])), Listset("", true, Some([item]))];
      ResultPieces(ls, capitalize) == [Separator, ListsetPiece(None, [ListEntryOf(item)])]
  {
    var ls := [Listset("", false, Some([])), Listset("", true, Some([item]))];
    assert ls[..1] == [Listset("", false, Some([]))];
    assert ls[..1][..0] == [];
    assert !ListsetShown(ls[0]) && ListsetShown(ls[1]);
    assert ResultPieces(ls[..1], capitalize) == ResultPieces([], capitalize);
    assert Js.MapSeq([item], ListEntryOf) == [ListEntryOf(item)];
    assert ResultPieces(ls, capitalize) == ResultPieces(ls[..1], capitalize) + ([Separator] + [ListsetPiece(None, [ListEntryOf(item)])]);
  }

  datatype FinderBlock = FinderBlock(key: string, search: InputBlock, results: SearchBlock)

  /** The options of the search field. */
  const SearchOptions: InputOptions := InputOptions("search", "search", "", None, "", "Search view", false, false)

  /** `list` is None for `null` or `undefined`; an object is always truthy. */
  function FinderSpec(key: string, list: Option<Js.Entries<Listset>>, capitalize: string -> string): Result<FinderBlock, Error> {
    if key == "" || list.None? then Err(InvalidFinderOptions)
    else Ok(FinderBlock(key, CreateInput(SearchOptions).value, SearchSpec(list, capitalize).value))
  }

  /** `FinderPanel`: the search field above the results of `list`. */
  method FinderPanel(key: string, list: Option<Js.Entries<Listset>>, capitalize: string -> string)
    returns (r: Result<FinderBlock, Error>)
    ensures r == FinderSpec(key, list, capitalize)
  {
    if key == "" || list.None? {
      return Err(InvalidFinderOptions);
    }
    var search := CreateInput(SearchOptions);
    var results := SearchResult(list, capitalize);
    r := Ok(FinderBlock(key, search.value, results.value));
  }

  /** The finder's search field is `input-search-search`, with its placeholder and nothing else. */
  lemma FinderSearchField(key: string, list: Option<Js.Entries<Listset>>, capitalize: string -> string)
    requires key != "" && list.Some?
    ensures FinderSpec(key, list, capitalize).Ok?
    ensures FinderSpec(key, list, capitalize).value.search ==
            TextInput("search", "input-search-search", "search", [Attr("placeholder", "Search view")])
  {
    SearchInputRendered();
  }

  lemma SearchInputRendered()
    ensures CreateInput(SearchOptions) == Some(TextInput("search", "input-search-search", "search", [Attr("placeholder", "Search view")]))
  {
    SearchInputId();
    SearchAttrs();
  }

  lemma SearchInputId()
    ensures InputId("search", "search") == "input-search-search"
  {
    LowercaseWord("search");
    InputIdPlain("search", "search");
    SearchIdSpelled();
  }

  lemma SearchIdSpelled()
    ensures "input-" + "search" + "-" + "search" == "input-search-search"
  {
  }

  lemma SearchAttrs()
    ensures TextInputAttrs(SearchOptions) == [Attr("placeholder", "Search view")]
  {
    assert TextInputAttrs(SearchOptions) == [] + [] + [] + [] + [] + [Attr("placeholder", "Search view")];
  }
}
