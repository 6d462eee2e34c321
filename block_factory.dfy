/**
 * The UI-block builders of src/block.factory.ts: `createToolbar`,
 * `createPanel`, `createFloating` and `createInput` (`createListItem` is
 * `ViewTypes.CreateListItem`, written the same way in both factories).
 *
 * This file reads `VIEW_CONTROL_OPTIONS` as an array of toolbar sets; it is
 * the parameter `controls`. The markup is abstract, as in `Factory`.
 */
module BlockFactory {
  import opened Wrappers
  import opened ViewTypes
  import opened Sections
  import Js

  datatype Error =
    | InvalidToolbarArguments   // 'Invalid createToolbar Arguments'
    | UndefinedMainOptions      // 'Undefined main options'
    | InvalidPanelOptions       // 'Invalid createPanel options'
    | UndefinedTriggersList     // 'Undefined triggers list'

  // ================================================================ createInput

  /** The optional attributes of a text input, in template order. */
  function TextInputAttrs(o: InputOptions): seq<Attr> {
    (if o.labelText != "" then [Attr("title", o.labelText)] else []) +
    (if Truthy(o.value) then [Attr("value", ScalarText(o.value.value))] else []) +
    (if o.disabled then [Attr("disabled", "true")] else []) +
    (if o.pattern != "" then [Attr("pattern", o.pattern)] else []) +
    (if o.placeholder != "" then [Attr("placeholder", o.placeholder)]
     else if o.labelText != "" then [Attr("placeholder", o.labelText)] else [])
  }

  /**
   * `createInput`: a text input or a checkbox, anything else renders nothing.
   * The id is built from the label alone, and no input is autofocused.
   */
  function CreateInput(o: InputOptions): (r: Option<InputBlock>)
    ensures r.Some? <==> o.inputType == "text" || o.inputType == "checkbox"
    ensures r.Some? ==> r.value.id == InputId(o.inputType, o.labelText)
    ensures r.Some? && r.value.TextInput? ==> r.value.inputType == "text" && r.value.name == o.name &&
                                              forall a :: a in r.value.attrs ==> a.Attr? && a.name != "autofocus"
    ensures r.Some? && o.inputType == "checkbox" ==> r.value.Checkbox? && (r.value.checked <==> Truthy(o.value))
  {
    var id := InputId(o.inputType, o.labelText);
    if o.inputType == "text" then
      Some(TextInput(o.inputType, id, o.name, TextInputAttrs(o)))
    else if o.inputType == "checkbox" then
      Some(Checkbox(id, o.name, o.disabled, Truthy(o.value), o.labelText))
    else
      None
  }

  // ================================================================ createToolbar

  /** A toolbar set; `sub` is empty when it is absent or not an array. */
  datatype ToolbarSet = ToolbarSet(
    icon: string, labelText: string, title: string, event: Option<EventSpec>,
    disabled: bool, extra: bool, meta: bool, detached: bool, sub: seq<ToolbarSet>)

  /** A main or extra entry: attributes, icon, and the text of its label element (None when empty). */
  datatype BarItem = BarItem(attrs: seq<Attr>, icon: string, labelText: Option<string>)

  /** A sub-menu or control entry. */
  datatype SetItem = SetItem(attrs: seq<Attr>, icon: string)

  /** A sub block `options="sub"`: it extends the event's params. */
  datatype SubBlock = SubBlock(extendsParams: string, icon: string, caption: string, items: seq<SetItem>)

  /**
   * The toolbar: the extra toggle and extra block are rendered exactly when
   * `extra` is non-empty, the control block exactly when `controls` is.
   */
  datatype BarBlock = BarBlock(key: string, editing: bool, main: seq<BarItem>, extra: seq<BarItem>,
                               subs: seq<SubBlock>, controls: seq<SetItem>)

  predicate IsMain(s: ToolbarSet) { !s.extra }
  predicate IsExtra(s: ToolbarSet) { s.extra }
  predicate IsMeta(s: ToolbarSet) { s.meta }
  predicate IsDetached(s: ToolbarSet) { s.detached }

  /** Only a set with an event and a non-empty `sub` array pushes a sub block. */
  predicate HasSubBlock(s: ToolbarSet) { s.event.Some? && |s.sub| > 0 }

  function DisabledAttrs(s: ToolbarSet): seq<Attr> {
    if s.disabled then [DisabledClass] else []
  }

  function SetEventAttrs(s: ToolbarSet): seq<Attr> {
    if s.event.Some? then EventAttrs(s.event.value, s.event.value.attr) else []
  }

  function TitleAttrs(s: ToolbarSet): seq<Attr> {
    if s.title != "" then [Attr("title", s.title)] else []
  }

  /** `composeSubLi`. */
  function SetItemOf(s: ToolbarSet): SetItem {
    SetItem(DisabledAttrs(s) + SetEventAttrs(s) + TitleAttrs(s), s.icon)
  }

  function BarAttrs(s: ToolbarSet): seq<Attr> {
    DisabledAttrs(s) + SetEventAttrs(s) +
    (if s.meta then [Flag("meta")] else []) +
    (if s.labelText != "" then [Attr("class", "label")] else []) + TitleAttrs(s)
  }

  /** The entry `composeLi` renders for a set. */
  function BarItemOf(s: ToolbarSet): BarItem {
    BarItem(BarAttrs(s), s.icon, LabelOf(s.labelText))
  }

  /** The sub block `composeLi` pushes for a set with `HasSubBlock`. */
  function SubBlockOf(s: ToolbarSet): SubBlock {
    SubBlock(if s.event.Some? then s.event.value.params else "", s.icon,
             if s.labelText != "" then s.labelText else s.title, Js.MapSeq(s.sub, SetItemOf))
  }

  /** The sets laid out: the caller's, then the meta controls when editing. */
  function MenuSets(options: seq<ToolbarSet>, editing: bool, controls: seq<ToolbarSet>): seq<ToolbarSet> {
    var meta := Js.Select(controls, IsMeta);
    if editing && meta != [] then options + meta else options
  }

  /** `key` is None when it is not a string, `options` None when it is not an array. */
  function ToolbarSpec(key: Option<string>, options: Option<seq<ToolbarSet>>, editing: bool,
                       controls: seq<ToolbarSet>): Result<BarBlock, Error>
  {
    if key.None? || options.None? || options.value == [] then Err(InvalidToolbarArguments)
    else
      var sets := MenuSets(options.value, editing, controls);
      var main := Js.MapSeq(Js.Select(sets, IsMain), BarItemOf);
      if main == [] then Err(UndefinedMainOptions)
      else
        Ok(BarBlock(key.value, editing, main, Js.MapSeq(Js.Select(sets, IsExtra), BarItemOf),
                    Js.MapSeq(Js.Select(sets, HasSubBlock), SubBlockOf),
                    if editing then Js.MapSeq(Js.Select(controls, IsDetached), SetItemOf) else []))
  }

  /** `composeLi` for one set: its entry, and its sub block when it has an event and sub sets. */
  method ComposeLi(s: ToolbarSet) returns (li: BarItem, sub: Option<SubBlock>)
    ensures li == BarItemOf(s)
    ensures sub.Some? <==> HasSubBlock(s)
    ensures sub.Some? ==> sub.value == SubBlockOf(s)
    ensures s.disabled ==> li.attrs[0] == DisabledClass
  {
    var disabled: seq<Attr> := if s.disabled then [DisabledClass] else [];
    var trigger: seq<Attr> := [];
    sub := None;
    if s.event.Some? {
      var ev := s.event.value;
      if ev.eventType != "" && ev.attr != "" {
        trigger := trigger + [Attr(ev.eventType, ev.attr)];
      }
      if ev.params != "" {
        trigger := trigger + [Attr("params", ev.params)];
      }
      if |s.sub| > 0 {
        var caption := if s.labelText != "" then s.labelText else s.title;
        sub := Some(SubBlock(ev.params, s.icon, caption, Js.MapSeq(s.sub, SetItemOf)));
      }
    }
    assert trigger == SetEventAttrs(s);
    var meta: seq<Attr> := if s.meta then [Flag("meta")] else [];
    var labelClass: seq<Attr> := if s.labelText != "" then [Attr("class", "label")] else [];
    var title: seq<Attr> := if s.title != "" then [Attr("title", s.title)] else [];
    assert disabled == DisabledAttrs(s) && title == TitleAttrs(s);
    li := BarItem(disabled + trigger + meta + labelClass + title, s.icon, LabelOf(s.labelText));
  }

  /** The `forEach(composeLi)` pass over the sets. */
  method ComposeMenu(sets: seq<ToolbarSet>) returns (main: seq<BarItem>, extra: seq<BarItem>, subs: seq<SubBlock>)
    ensures main == Js.MapSeq(Js.Select(sets, IsMain), BarItemOf)
    ensures extra == Js.MapSeq(Js.Select(sets, IsExtra), BarItemOf)
    ensures subs == Js.MapSeq(Js.Select(sets, HasSubBlock), SubBlockOf)
  {
    main, extra, subs := [], [], [];
    for i := 0 to |sets|
      invariant main == Js.FilterMap(sets[..i], IsMain, BarItemOf)
      invariant extra == Js.FilterMap(sets[..i], IsExtra, BarItemOf)
      invariant subs == Js.FilterMap(sets[..i], HasSubBlock, SubBlockOf)
    {
      var s := sets[i];
      assert sets[..i + 1][..i] == sets[..i];
      var li, sub := ComposeLi(s);
      if sub.Some? {
        subs := subs + [sub.value];
      }
      if s.extra {
        extra := extra + [li];
      } else {
        main := main + [li];
      }
    }
    assert sets[..|sets|] == sets;
    Js.FilterMapIsMapSelect(sets, IsMain, BarItemOf);
    Js.FilterMapIsMapSelect(sets, IsExtra, BarItemOf);
    Js.FilterMapIsMapSelect(sets, HasSubBlock, SubBlockOf);
  }

  /** `createToolbar`. */
  method CreateToolbar(key: Option<string>, options: Option<seq<ToolbarSet>>, editing: bool, controls: seq<ToolbarSet>)
    returns (r: Result<BarBlock, Error>)
    ensures r == ToolbarSpec(key, options, editing, controls)
    ensures r == Err(InvalidToolbarArguments) <==> key.None? || options.None? || options.value == []
  {
    if key.None? || options.None? || |options.value| == 0 {
      return Err(InvalidToolbarArguments);
    }
    var sets := options.value;
    var metaOptions := Js.Select(controls, IsMeta);
    var detachedOptions := Js.Select(controls, IsDetached);
    if editing && |metaOptions| > 0 {
      sets := sets + metaOptions;
    }
    var main, extra, subs := ComposeMenu(sets);
    if |main| == 0 {
      return Err(UndefinedMainOptions);
    }
    var controlItems := if editing && |detachedOptions| > 0 then Js.MapSeq(detachedOptions, SetItemOf) else [];
    r := Ok(BarBlock(key.value, editing, main, extra, subs, controlItems));
  }

  // ---------------------------------------------------------------- toolbar properties

  lemma {:induction false} MainExtraSplit(sets: seq<ToolbarSet>)
    ensures |Js.Select(sets, IsMain)| + |Js.Select(sets, IsExtra)| == |sets|
  {
    if sets != [] {
      var init := sets[..|sets| - 1];
      var last := sets[|sets| - 1];
      MainExtraSplit(init);
      assert init + [last] == sets;
      Js.SelectSnoc(init, last, IsMain);
      Js.SelectSnoc(init, last, IsExtra);
    }
  }

  /**
   * Every set is rendered once, in the extra block when it has `extra` and
   * in the main block otherwise; 'Undefined main options' exactly when every
   * set is an extra one. Meta controls come after the caller's sets, and
   * only when editing.
   */
  lemma ToolbarLayout(key: string, options: seq<ToolbarSet>, editing: bool, controls: seq<ToolbarSet>)
    requires options != []
    ensures var sets := MenuSets(options, editing, controls);
      && (!editing ==> sets == options)
      && (editing ==> sets == options + Js.Select(controls, IsMeta))
      && (ToolbarSpec(Some(key), Some(options), editing, controls) == Err(UndefinedMainOptions) <==>
            forall i :: 0 <= i < |sets| ==> sets[i].extra)
      && (ToolbarSpec(Some(key), Some(options), editing, controls).Ok? ==>
            var r := ToolbarSpec(Some(key), Some(options), editing, controls).value;
            |r.main| + |r.extra| == |sets|)
  {
    var sets := MenuSets(options, editing, controls);
    if editing && Js.Select(controls, IsMeta) == [] {
      assert options + Js.Select(controls, IsMeta) == options;
    }
    Js.SelectEmpty(sets, IsMain);
    MainExtraSplit(sets);
  }

  /**
   * Sub blocks: one per set with an event and sub sets, in order, extending
   * the event's params; a set with sub sets but no event pushes none.
   */
  lemma ToolbarSubBlocks(key: string, options: seq<ToolbarSet>, editing: bool, controls: seq<ToolbarSet>)
    requires ToolbarSpec(Some(key), Some(options), editing, controls).Ok?
    ensures var r := ToolbarSpec(Some(key), Some(options), editing, controls).value;
      var sets := MenuSets(options, editing, controls);
      && |r.subs| == |Js.Select(sets, HasSubBlock)|
      && (forall b :: b in r.subs ==> exists s :: s in sets && s.event.Some? && |s.sub| > 0 &&
                                                  b.extendsParams == s.event.value.params && |b.items| == |s.sub|)
      && (forall i :: 0 <= i < |r.subs| ==>
            var s := Js.Select(sets, HasSubBlock)[i];
            s.event.Some? && r.subs[i].extendsParams == s.event.value.params && |r.subs[i].items| == |s.sub|)
  {
    var r := ToolbarSpec(Some(key), Some(options), editing, controls).value;
    var sets := MenuSets(options, editing, controls);
    var chosen := Js.Select(sets, HasSubBlock);
    forall i | 0 <= i < |r.subs|
      ensures chosen[i].event.Some? && r.subs[i].extendsParams == chosen[i].event.value.params && |r.subs[i].items| == |chosen[i].sub|
    {
      assert chosen[i] in chosen;
    }
    forall b | b in r.subs
      ensures exists s :: s in sets && s.event.Some? && |s.sub| > 0 &&
                          b.extendsParams == s.event.value.params && |b.items| == |s.sub|
    {
      var i :| 0 <= i < |r.subs| && r.subs[i] == b;
      assert chosen[i] in chosen;
    }
  }

  /**
   * The root carries the editing class exactly when editing, and the control
   * block lists the detached controls only when editing.
   */
  lemma ToolbarControls(key: string, options: seq<ToolbarSet>, editing: bool, controls: seq<ToolbarSet>)
    requires ToolbarSpec(Some(key), Some(options), editing, controls).Ok?
    ensures var r := ToolbarSpec(Some(key), Some(options), editing, controls).value;
      && r.editing == editing
      && (!editing ==> r.controls == [])
      && (r.controls != [] <==> editing && exists i :: 0 <= i < |controls| && controls[i].detached)
  {
    Js.SelectEmpty(controls, IsDetached);
  }

  // ================================================================ createPanel

  datatype PanelTab = PanelTab(name: string, active: bool, icon: string)
  datatype PanelBody = PanelBody(fieldsets: seq<Piece>, listsets: seq<Piece>)
  datatype PanelBlock = PanelBlock(key: string, caption: Caption, tabs: seq<PanelTab>, bodies: seq<PanelBody>)

  function BodyOf(s: PanelSection): PanelBody {
    PanelBody(if s.fieldsets.None? then [] else FieldsetPieces(s.fieldsets.value, CreateInput),
              if s.listsets.None? then [] else ListsetPieces(s.listsets.value))
  }

  function TabAt(es: Js.Entries<PanelSection>, active: Option<string>, index: nat): PanelTab
    requires index < |es|
  {
    PanelTab(es[index].0, active == Some(es[index].0) || index == 0, es[index].1.icon)
  }

  /** `options` is None when it is falsy. */
  function PanelSpec(key: string, caption: Caption, options: Option<Js.Entries<PanelSection>>,
                     active: Option<string>): Result<PanelBlock, Error>
  {
    if options.None? || options.value == [] then Err(InvalidPanelOptions)
    else
      var es := options.value;
      Ok(PanelBlock(key, caption, seq(|es|, i requires 0 <= i < |es| => TabAt(es, active, i)),
                    Js.MapSeq(Js.Values(es), BodyOf)))
  }

  /** `composeSection`: the tab of section `index` and its body. */
  method ComposeSection(es: Js.Entries<PanelSection>, active: Option<string>, index: nat)
    returns (tab: PanelTab, body: PanelBody)
    requires index < |es|
    ensures tab == TabAt(es, active, index)
    ensures body == BodyOf(es[index].1)
  {
    var (name, section) := es[index];
    tab := PanelTab(name, active == Some(name) || index == 0, section.icon);
    var fieldsetPieces := ComposeFieldsets(section.fieldsets, CreateInput);
    var listsetPieces := ComposeListsets(section.listsets);
    body := PanelBody(fieldsetPieces, listsetPieces);
  }

  /** `createPanel`: one tab and one body per section, in order. */
  method CreatePanel(key: string, caption: Caption, options: Option<Js.Entries<PanelSection>>, active: Option<string>)
    returns (r: Result<PanelBlock, Error>)
    ensures r == PanelSpec(key, caption, options, active)
  {
    if options.None? || |options.value| == 0 {
      return Err(InvalidPanelOptions);
    }
    var es := options.value;
    var tabs: seq<PanelTab> := [];
    var bodies: seq<PanelBody> := [];
    for i := 0 to |es|
      invariant |tabs| == i && forall j :: 0 <= j < i ==> tabs[j] == TabAt(es, active, j)
      invariant bodies == Js.MapSeq(Js.Values(es)[..i], BodyOf)
    {
      var tab, body := ComposeSection(es, active, i);
      assert Js.Values(es)[..i + 1] == Js.Values(es)[..i] + [es[i].1];
      Js.MapSnoc(Js.Values(es)[..i], es[i].1, BodyOf);
      tabs := tabs + [tab];
      bodies := bodies + [body];
    }
    assert Js.Values(es)[..|es|] == Js.Values(es);
    assert tabs == seq(|es|, i requires 0 <= i < |es| => TabAt(es, active, i));
    r := Ok(PanelBlock(key, caption, tabs, bodies));
  }

  /**
   * A missing or key-less options object is an error; otherwise there is one
   * tab per section, active exactly when it is the first or the one `active`
   * names.
   */
  lemma PanelTabs(key: string, caption: Caption, options: Option<Js.Entries<PanelSection>>, active: Option<string>)
    ensures PanelSpec(key, caption, options, active).Err? <==> options.None? || options.value == []
    ensures PanelSpec(key, caption, options, active).Ok? ==>
      var es := options.value;
      var tabs := PanelSpec(key, caption, options, active).value.tabs;
      |tabs| == |es| && tabs[0].active &&
      forall i :: 0 <= i < |es| ==> (tabs[i].active <==> i == 0 || active == Some(es[i].0)) && tabs[i].name == es[i].0
  {
  }

  // ================================================================ createFloating

  datatype FloatItem = AddAction(params: string) | PasteAction(params: string)

  /** The keyed wrapper, or with `update` the bare list. */
  datatype FloatingBlock = Keyed(key: string, items: seq<FloatItem>) | Bare(items: seq<FloatItem>)

  predicate KnownTrigger(t: string) { t == "addpoint" || t == "paste" }

  function FloatItemOf(viewType: string): string -> FloatItem {
    (t: string) => if t == "addpoint" then AddAction(viewType) else PasteAction(viewType)
  }

  function FloatingSpec(key: string, viewType: string, triggers: Option<seq<string>>, update: bool): Result<FloatingBlock, Error> {
    if triggers.None? || triggers.value == [] then Err(UndefinedTriggersList)
    else
      var items := Js.MapSeq(Js.Select(triggers.value, KnownTrigger), FloatItemOf(viewType));
      Ok(if update then Bare(items) else Keyed(key, items))
  }

  /** `createFloating`. */
  method CreateFloating(key: string, viewType: string, triggers: Option<seq<string>>, update: bool)
    returns (r: Result<FloatingBlock, Error>)
    ensures r == FloatingSpec(key, viewType, triggers, update)
  {
    if triggers.None? || |triggers.value| == 0 {
      return Err(UndefinedTriggersList);
    }
    var ts := triggers.value;
    var list: seq<FloatItem> := [];
    for i := 0 to |ts|
      invariant list == Js.MapSeq(Js.Select(ts[..i], KnownTrigger), FloatItemOf(viewType))
    {
      assert ts[..i + 1] == ts[..i] + [ts[i]];
      Js.SelectSnoc(ts[..i], ts[i], KnownTrigger);
      Js.MapSnoc(Js.Select(ts[..i], KnownTrigger), ts[i], FloatItemOf(viewType));
      if ts[i] == "addpoint" {
        list := list + [AddAction(viewType)];
      } else if ts[i] == "paste" {
        list := list + [PasteAction(viewType)];
      }
    }
    assert ts[..|ts|] == ts;
    r := Ok(if update then Bare(list) else Keyed(key, list));
  }

  /**
   * With `update` the list comes without its keyed wrapper; both forms hold
   * the same items, one per known trigger, in order.
   */
  lemma FloatingForms(key: string, viewType: string, ts: seq<string>)
    requires ts != []
    ensures var bare := FloatingSpec(key, viewType, Some(ts), true);
      var keyed := FloatingSpec(key, viewType, Some(ts), false);
      && bare.Ok? && bare.value.Bare? && keyed.Ok? && keyed == Ok(Keyed(key, bare.value.items))
      && (bare.value.items == [] <==> forall i :: 0 <= i < |ts| ==> !KnownTrigger(ts[i]))
  {
    Js.SelectEmpty(ts, KnownTrigger);
  }
}
