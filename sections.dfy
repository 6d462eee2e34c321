/**
 * The body of one panel section: the fieldset loop and the listset loop of
 * `composeSection`, which both factories write the same way
 * (src/modules/factory.ts:247-277, src/block.factory.ts:173-203). Missing or
 * empty sets are skipped; a rendered set with `seperate` is followed by a
 * separator.
 */
module Sections {
  import opened Wrappers
  import opened ViewTypes
  import Js

  datatype Piece =
    | FieldsetPiece(labelText: Option<string>, inputs: seq<InputBlock>)
    | ListsetPiece(labelText: Option<string>, items: seq<ListEntry>)
    | Separator

  /** `list.map(f).join('')` where `f` may return undefined: undefined renders as nothing. */
  function Present(xs: seq<Option<InputBlock>>): (r: seq<InputBlock>)
    ensures |r| <= |xs|
    ensures forall b :: b in r <==> Some(b) in xs
  {
    if xs == [] then []
    else
      assert xs == xs[..|xs| - 1] + [xs[|xs| - 1]];
      Present(xs[..|xs| - 1]) + (if xs[|xs| - 1].Some? then [xs[|xs| - 1].value] else [])
  }

  /** A label element is rendered only for a non-empty label. */
  function LabelOf(s: string): Option<string> {
    if s != "" then Some(s) else None
  }

  predicate FieldsetShown(f: Fieldset) {
    f.fields.Some? && f.fields.value != []
  }

  predicate ListsetShown(l: Listset) {
    l.items.Some? && l.items.value != []
  }

  function FieldsetOut(f: Fieldset, render: InputOptions -> Option<InputBlock>): seq<Piece>
    requires FieldsetShown(f)
  {
    [FieldsetPiece(LabelOf(f.labelText), Present(Js.MapSeq(f.fields.value, render)))] + (if f.seperate then [Separator] else [])
  }

  function ListsetOut(l: Listset): seq<Piece>
    requires ListsetShown(l)
  {
    [ListsetPiece(LabelOf(l.labelText), Js.MapSeq(l.items.value, ListEntryOf))] + (if l.seperate then [Separator] else [])
  }

  /** What the fieldset loop has produced after the sets `fs`. */
  function FieldsetPieces(fs: seq<Fieldset>, render: InputOptions -> Option<InputBlock>): seq<Piece> {
    if fs == [] then []
    else
      var last := fs[|fs| - 1];
      FieldsetPieces(fs[..|fs| - 1], render) + (if FieldsetShown(last) then FieldsetOut(last, render) else [])
  }

  /** What the listset loop has produced after the sets `ls`. */
  function ListsetPieces(ls: seq<Listset>): seq<Piece> {
    if ls == [] then []
    else
      var last := ls[|ls| - 1];
      ListsetPieces(ls[..|ls| - 1]) + (if ListsetShown(last) then ListsetOut(last) else [])
  }

  /** `fieldsets?.map(…)`, accumulating into `fieldsetHTML`. */
  method ComposeFieldsets(fieldsets: Option<seq<Fieldset>>, render: InputOptions -> Option<InputBlock>)
    returns (pieces: seq<Piece>)
    ensures pieces == if fieldsets.None? then [] else FieldsetPieces(fieldsets.value, render)
  {
    pieces := [];
    if fieldsets.None? {
      return;
    }
    var fs := fieldsets.value;
    for i := 0 to |fs|
      invariant pieces == FieldsetPieces(fs[..i], render)
    {
      assert fs[..i + 1][..i] == fs[..i];
      var f := fs[i];
      if f.fields.None? || |f.fields.value| == 0 {
        continue;
      }
      var inputs := Present(Js.MapSeq(f.fields.value, render));
      pieces := pieces + [FieldsetPiece(LabelOf(f.labelText), inputs)];
      if f.seperate {
        pieces := pieces + [Separator];
      }
    }
    assert fs[..|fs|] == fs;
  }

  /** `listsets?.map(…)`, accumulating into `listsetHTML`. */
  method ComposeListsets(listsets: Option<seq<Listset>>) returns (pieces: seq<Piece>)
    ensures pieces == if listsets.None? then [] else ListsetPieces(listsets.value)
  {
    pieces := [];
    if listsets.None? {
      return;
    }
    var ls := listsets.value;
    for i := 0 to |ls|
      invariant pieces == ListsetPieces(ls[..i])
    {
      assert ls[..i + 1][..i] == ls[..i];
      var l := ls[i];
      if l.items.None? || |l.items.value| == 0 {
        continue;
      }
      pieces := pieces + [ListsetPiece(LabelOf(l.labelText), Js.MapSeq(l.items.value, ListEntryOf))];
      if l.seperate {
        pieces := pieces + [Separator];
      }
    }
    assert ls[..|ls|] == ls;
  }

  // ---------------------------------------------------------------- properties

  /** No separator opens the block and every separator directly follows a rendered set. */
  predicate SeparatorsFollowSets(p: seq<Piece>) {
    forall i :: 0 <= i < |p| && p[i].Separator? ==> i > 0 && !p[i - 1].Separator?
  }

  function CountSets(p: seq<Piece>): nat {
    if p == [] then 0 else CountSets(p[..|p| - 1]) + (if p[|p| - 1].Separator? then 0 else 1)
  }

  lemma CountSetsAppend(p: seq<Piece>, q: seq<Piece>)
    ensures CountSets(p + q) == CountSets(p) + CountSets(q)
    decreases |q|
  {
    if q != [] {
      assert (p + q)[..|p + q| - 1] == p + q[..|q| - 1];
      assert (p + q)[|p + q| - 1] == q[|q| - 1];
      CountSetsAppend(p, q[..|q| - 1]);
    } else {
      assert p + q == p;
    }
  }

  lemma OneSetCounted(out: seq<Piece>)
    requires 1 <= |out| <= 2 && !out[0].Separator?
    requires |out| == 2 ==> out[1].Separator?
    ensures CountSets(out) == 1
  {
    assert [out[0]][..0] == [];
    if |out| == 2 {
      assert out[..1] == [out[0]];
    }
  }

  lemma SeparatorsAppend(p: seq<Piece>, q: seq<Piece>)
    requires SeparatorsFollowSets(p) && SeparatorsFollowSets(q)
    requires q != [] ==> !q[0].Separator?
    ensures SeparatorsFollowSets(p + q)
  {
    forall i | 0 <= i < |p + q| && (p + q)[i].Separator?
      ensures i > 0 && !(p + q)[i - 1].Separator?
    {
      if i >= |p| {
        assert q[i - |p|].Separator?;
      }
    }
  }

  /** For each rendered set, in order, whether a separator directly follows it. */
  function SeparatedSets(p: seq<Piece>): seq<bool> {
    if p == [] then []
    else if p[0].Separator? then SeparatedSets(p[1..])
    else [|p| > 1 && p[1].Separator?] + SeparatedSets(p[1..])
  }

  lemma SeparatedSetsCons(x: Piece, r: seq<Piece>)
    ensures SeparatedSets([x] + r) == if x.Separator? then SeparatedSets(r) else [r != [] && r[0].Separator?] + SeparatedSets(r)
  {
    assert ([x] + r)[1..] == r;
    if r != [] {
      assert ([x] + r)[1] == r[0];
    }
  }

  lemma {:induction false} SeparatedSetsAppend(p: seq<Piece>, q: seq<Piece>)
    requires q != [] ==> !q[0].Separator?
    ensures SeparatedSets(p + q) == SeparatedSets(p) + SeparatedSets(q)
    decreases |p|
  {
    if p == [] {
      assert p + q == q;
    } else {
      var x, t := p[0], p[1..];
      assert p == [x] + t;
      assert p + q == [x] + (t + q);
      SeparatedSetsAppend(t, q);
      SeparatedSetsCons(x, t);
      SeparatedSetsCons(x, t + q);
      if x.Separator? {
        calc {
          SeparatedSets(p + q);
          SeparatedSets(t + q);
          SeparatedSets(t) + SeparatedSets(q);
          SeparatedSets(p) + SeparatedSets(q);
        }
      } else {
        var flag := t != [] && t[0].Separator?;
        if t == [] {
          assert t + q == q;
        } else {
          assert (t + q)[0] == t[0];
        }
        calc {
          SeparatedSets(p + q);
          [flag] + SeparatedSets(t + q);
          [flag] + (SeparatedSets(t) + SeparatedSets(q));
          ([flag] + SeparatedSets(t)) + SeparatedSets(q);
          SeparatedSets(p) + SeparatedSets(q);
        }
      }
    }
  }

  /** One rendered set contributes one flag: its own separator choice. */
  lemma OneSetSeparated(x: Piece, sep: bool)
    requires !x.Separator?
    ensures SeparatedSets([x] + (if sep then [Separator] else [])) == [sep]
  {
    if sep {
      assert ([x] + [Separator])[1..] == [Separator];
      assert [Separator][1..] == [];
    } else {
      assert [x][1..] == [];
    }
  }

  function FieldsetSeperate(f: Fieldset): bool { f.seperate }

  function ListsetSeperate(l: Listset): bool { l.seperate }

  /**
   * Fieldsets: one piece per set with a non-empty field array, in order,
   * each followed by a separator exactly when it has `seperate`.
   */
  lemma {:induction false} FieldsetPiecesShape(fs: seq<Fieldset>, render: InputOptions -> Option<InputBlock>)
    ensures SeparatorsFollowSets(FieldsetPieces(fs, render))
    ensures CountSets(FieldsetPieces(fs, render)) == |Js.Select(fs, FieldsetShown)|
    ensures SeparatedSets(FieldsetPieces(fs, render)) == Js.MapSeq(Js.Select(fs, FieldsetShown), FieldsetSeperate)
  {
    if fs != [] {
      var init := fs[..|fs| - 1];
      var last := fs[|fs| - 1];
      FieldsetPiecesShape(init, render);
      Js.SelectSnoc(init, last, FieldsetShown);
      assert init + [last] == fs;
      if FieldsetShown(last) {
        var out := FieldsetOut(last, render);
        SeparatorsAppend(FieldsetPieces(init, render), out);
        CountSetsAppend(FieldsetPieces(init, render), out);
        OneSetCounted(out);
        SeparatedSetsAppend(FieldsetPieces(init, render), out);
        OneSetSeparated(out[0], last.seperate);
      } else {
        assert FieldsetPieces(fs, render) == FieldsetPieces(init, render);
      }
      Js.SelectMapSnoc(init, last, FieldsetShown, FieldsetSeperate);
    }
  }

  /** Listsets obey the same rule. */
  lemma {:induction false} ListsetPiecesShape(ls: seq<Listset>)
    ensures SeparatorsFollowSets(ListsetPieces(ls))
    ensures CountSets(ListsetPieces(ls)) == |Js.Select(ls, ListsetShown)|
    ensures SeparatedSets(ListsetPieces(ls)) == Js.MapSeq(Js.Select(ls, ListsetShown), ListsetSeperate)
  {
    if ls != [] {
      var init := ls[..|ls| - 1];
      var last := ls[|ls| - 1];
      ListsetPiecesShape(init);
      Js.SelectSnoc(init, last, ListsetShown);
      assert init + [last] == ls;
      if ListsetShown(last) {
        var out := ListsetOut(last);
        SeparatorsAppend(ListsetPieces(init), out);
        CountSetsAppend(ListsetPieces(init), out);
        OneSetCounted(out);
        SeparatedSetsAppend(ListsetPieces(init), out);
        OneSetSeparated(out[0], last.seperate);
      } else {
        assert ListsetPieces(ls) == ListsetPieces(init);
      }
      Js.SelectMapSnoc(init, last, ListsetShown, ListsetSeperate);
    }
  }
}
