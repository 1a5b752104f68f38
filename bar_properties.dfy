/** Properties of the bar trace's serialisation: the keys it writes, what the two
    constructors serialise to, how changing one attribute changes the serialised object
    (the field walk lemmas behind UpdateToJson), and the full rename table for a trace with
    every attribute set. The setter-by-setter consequences are in BarSetters. */
module BarProperties {
  import opened Wrappers
  import Json
  import C = Common
  import opened BarTrace

  /** Two traces that agree on attribute `f` serialise it alike. */
  lemma SameAtSlot<X, Y>(b: Bar<X, Y>, c: Bar<X, Y>, f: Field, enc: Codec<X, Y>)
    requires b.SameAt(c, f)
    ensures b.Has(f) == c.Has(f) && b.Slot(f, enc) == c.Slot(f, enc)
  {
  }

  /** The keys of the serialised trace are exactly the wire keys of its set attributes. */
  lemma ToJsonKeys<X, Y>(b: Bar<X, Y>, enc: Codec<X, Y>)
    ensures b.ToJson(enc).Keys == set f: Field | b.Has(f) :: WireKey(f)
  {
    var doc := b.ToJson(enc);
    var keys := set f: Field | b.Has(f) :: WireKey(f);
    forall k | k in doc
      ensures k in keys
    {
      var f: Field :| WireKey(f) == k;
      assert b.Has(f);
    }
  }

  /** `Bar::default()` serialises to `{"type": "bar"}`. */
  lemma DefaultToJson<X, Y>(enc: Codec<X, Y>)
    ensures Bar<X, Y>.Default().ToJson(enc) == map["type" := Json.Str("bar")]
  {
    var b := Bar<X, Y>.Default();
    var doc := b.ToJson(enc);
    assert b.Has(Field.Type) && WireKey(Field.Type) == "type";
    forall k | k in doc
      ensures k == "type"
    {
      var f: Field :| WireKey(f) == k;
      assert f == Field.Type;
    }
  }

  /** `Bar::new(x, y)` serialises to the type tag and the two data arrays. */
  lemma NewToJson<X, Y>(x: seq<X>, y: seq<Y>, enc: Codec<X, Y>)
    ensures Bar.New(x, y).ToJson(enc) == map[
      "type" := Json.Str("bar"),
      "x" := Json.Array(Json.Elements(x, enc.x)),
      "y" := Json.Array(Json.Elements(y, enc.y))]
  {
    var b0 := Bar<X, Y>.Default();
    var b1 := b0.(x := Some(x));
    var b2 := b1.(y := Some(y));
    assert b2 == Bar.New(x, y);
    assert b0.OnlyChanges(b1, Field.X) && b1.Has(Field.X);
    assert b1.OnlyChanges(b2, Field.Y) && b2.Has(Field.Y);
    DefaultToJson<X, Y>(enc);
    UpdateToJson(b0, b1, Field.X, enc);
    UpdateToJson(b1, b2, Field.Y, enc);
  }

  /** Two encodings that agree on the first `upTo` fields give the same object. */
  lemma {:induction false} EmitAgrees(upTo: nat, s1: Field -> Option<Json.Value>, s2: Field -> Option<Json.Value>, key: Field -> string)
    requires upTo <= FieldCount
    requires forall g: Field :: g as int < upTo ==> s1(g) == s2(g)
    ensures Emit(upTo, s1, key) == Emit(upTo, s2, key)
  {
    if upTo > 0 {
      EmitAgrees(upTo - 1, s1, s2, key);
    }
  }

  /** Giving field `f` a new encoding changes the object built from the first `upTo` fields
      at the key of `f` only, provided `f` is among them and no other field shares its key. */
  lemma {:induction false} EmitUpdate(upTo: nat, s1: Field -> Option<Json.Value>, s2: Field -> Option<Json.Value>, key: Field -> string, f: Field)
    requires f as int < upTo <= FieldCount
    requires forall g: Field :: g != f ==> key(g) != key(f)
    requires forall g: Field :: g != f ==> s1(g) == s2(g)
    requires s2(f).Some?
    ensures Emit(upTo, s2, key) == Emit(upTo, s1, key)[key(f) := s2(f).value]
  {
    var g := (upTo - 1) as Field;
    var k, v := key(f), s2(f).value;
    var before1, before2 := Emit(upTo - 1, s1, key), Emit(upTo - 1, s2, key);
    if g == f {
      EmitAgrees(upTo - 1, s1, s2, key);
      if s1(f).Some? {
        UpdateTwice(before1, k, s1(f).value, v);
      }
    } else {
      EmitUpdate(upTo - 1, s1, s2, key, f);
      if s1(g).Some? {
        UpdatesCommute(before1, k, v, key(g), s1(g).value);
      }
    }
  }

  lemma UpdateTwice<K, V>(m: map<K, V>, k: K, v1: V, v2: V)
    ensures m[k := v1][k := v2] == m[k := v2]
  {
  }

  lemma UpdatesCommute<K, V>(m: map<K, V>, k1: K, v1: V, k2: K, v2: V)
    requires k1 != k2
    ensures m[k1 := v1][k2 := v2] == m[k2 := v2][k1 := v1]
  {
  }

  /** Changing one attribute to a set value changes the serialised object at that
      attribute's wire key and nowhere else. */
  lemma UpdateToJson<X, Y>(b: Bar<X, Y>, r: Bar<X, Y>, f: Field, enc: Codec<X, Y>)
    requires b.OnlyChanges(r, f) && r.Has(f)
    ensures r.ToJson(enc) == b.ToJson(enc)[WireKey(f) := r.Slot(f, enc).value]
  {
    forall g: Field | g != f
      ensures b.Slot(g, enc) == r.Slot(g, enc)
    {
      SameAtSlot(b, r, g, enc);
    }
    WireKeysDistinct();
    EmitUpdate(FieldCount, g => b.Slot(g, enc), g => r.Slot(g, enc), WireKey, f);
  }

  /** A trace with every attribute set serialises every attribute, each under its wire key
      from the rename table. */
  lemma AllSetToJson<X, Y>(b: Bar<X, Y>, enc: Codec<X, Y>)
    requires forall f: Field :: b.Has(f)
    ensures b.ToJson(enc) == map[
      "type" := b.Slot(Field.Type, enc).value,
      "x" := b.Slot(Field.X, enc).value,
      "y" := b.Slot(Field.Y, enc).value,
      "name" := b.Slot(Field.Name, enc).value,
      "visible" := b.Slot(Field.Visible, enc).value,
      "showlegend" := b.Slot(Field.ShowLegend, enc).value,
      "legendgroup" := b.Slot(Field.LegendGroup, enc).value,
      "opacity" := b.Slot(Field.Opacity, enc).value,
      "ids" := b.Slot(Field.Ids, enc).value,
      "width" := b.Slot(Field.Width, enc).value,
      "offset" := b.Slot(Field.Offset, enc).value,
      "text" := b.Slot(Field.Text, enc).value,
      "textposition" := b.Slot(Field.TextPosition, enc).value,
      "texttemplate" := b.Slot(Field.TextTemplate, enc).value,
      "hovertext" := b.Slot(Field.HoverText, enc).value,
      "hoverinfo" := b.Slot(Field.HoverInfo, enc).value,
      "hovertemplate" := b.Slot(Field.HoverTemplate, enc).value,
      "xaxis" := b.Slot(Field.XAxis, enc).value,
      "yaxis" := b.Slot(Field.YAxis, enc).value,
      "orientation" := b.Slot(Field.Orientation, enc).value,
      "alignmentgroup" := b.Slot(Field.AlignmentGroup, enc).value,
      "offsetgroup" := b.Slot(Field.OffsetGroup, enc).value,
      "marker" := b.Slot(Field.Marker, enc).value,
      "textangle" := b.Slot(Field.TextAngle, enc).value,
      "textfont" := b.Slot(Field.TextFont, enc).value,
      "error_x" := b.Slot(Field.ErrorX, enc).value,
      "error_y" := b.Slot(Field.ErrorY, enc).value,
      "cliponaxis" := b.Slot(Field.ClipOnAxis, enc).value,
      "constraintext" := b.Slot(Field.ConstrainText, enc).value,
      "hoverlabel" := b.Slot(Field.HoverLabel, enc).value,
      "insidetextanchor" := b.Slot(Field.InsideTextAnchor, enc).value,
      "insidetextfont" := b.Slot(Field.InsideTextFont, enc).value,
      "outsidetextfont" := b.Slot(Field.OutsideTextFont, enc).value,
      "xcalendar" := b.Slot(Field.XCalendar, enc).value,
      "ycalendar" := b.Slot(Field.YCalendar, enc).value]
  {
    var slot := f => b.Slot(f, enc);
    assert forall f: Field :: slot(f).Some?;
    EmitAll(slot, WireKey);
    RenameTablePart1();
    RenameTablePart2();
    RenameTablePart3();
    RenameTablePart4();
    RenameTablePart5();
  }

  /** When every field has an encoding, the walk writes all of them, in declaration order. */
  lemma EmitAll(slot: Field -> Option<Json.Value>, key: Field -> string)
    requires forall f: Field :: slot(f).Some?
    ensures Emit(FieldCount, slot, key) == map[
      key(Field.Type) := slot(Field.Type).value,
      key(Field.X) := slot(Field.X).value,
      key(Field.Y) := slot(Field.Y).value,
      key(Field.Name) := slot(Field.Name).value,
      key(Field.Visible) := slot(Field.Visible).value,
      key(Field.ShowLegend) := slot(Field.ShowLegend).value,
      key(Field.LegendGroup) := slot(Field.LegendGroup).value,
      key(Field.Opacity) := slot(Field.Opacity).value,
      key(Field.Ids) := slot(Field.Ids).value,
      key(Field.Width) := slot(Field.Width).value,
      key(Field.Offset) := slot(Field.Offset).value,
      key(Field.Text) := slot(Field.Text).value,
      key(Field.TextPosition) := slot(Field.TextPosition).value,
      key(Field.TextTemplate) := slot(Field.TextTemplate).value,
      key(Field.HoverText) := slot(Field.HoverText).value,
      key(Field.HoverInfo) := slot(Field.HoverInfo).value,
      key(Field.HoverTemplate) := slot(Field.HoverTemplate).value,
      key(Field.XAxis) := slot(Field.XAxis).value,
      key(Field.YAxis) := slot(Field.YAxis).value,
      key(Field.Orientation) := slot(Field.Orientation).value,
      key(Field.AlignmentGroup) := slot(Field.AlignmentGroup).value,
      key(Field.OffsetGroup) := slot(Field.OffsetGroup).value,
      key(Field.Marker) := slot(Field.Marker).value,
      key(Field.TextAngle) := slot(Field.TextAngle).value,
      key(Field.TextFont) := slot(Field.TextFont).value,
      key(Field.ErrorX) := slot(Field.ErrorX).value,
      key(Field.ErrorY) := slot(Field.ErrorY).value,
      key(Field.ClipOnAxis) := slot(Field.ClipOnAxis).value,
      key(Field.ConstrainText) := slot(Field.ConstrainText).value,
      key(Field.HoverLabel) := slot(Field.HoverLabel).value,
      key(Field.InsideTextAnchor) := slot(Field.InsideTextAnchor).value,
      key(Field.InsideTextFont) := slot(Field.InsideTextFont).value,
      key(Field.OutsideTextFont) := slot(Field.OutsideTextFont).value,
      key(Field.XCalendar) := slot(Field.XCalendar).value,
      key(Field.YCalendar) := slot(Field.YCalendar).value]
  {
    EmitFirstThird(slot, key);
    EmitSecondThird(slot, key);
    EmitLastThird(slot, key);
  }

  // The walk over a fully encoded trace, a third of the fields at a time.

  lemma EmitFirstThird(slot: Field -> Option<Json.Value>, key: Field -> string)
    requires forall f: Field :: slot(f).Some?
    ensures Emit(12, slot, key) == map[]
      [key(Field.Type) := slot(Field.Type).value]
      [key(Field.X) := slot(Field.X).value]
      [key(Field.Y) := slot(Field.Y).value]
      [key(Field.Name) := slot(Field.Name).value]
      [key(Field.Visible) := slot(Field.Visible).value]
      [key(Field.ShowLegend) := slot(Field.ShowLegend).value]
      [key(Field.LegendGroup) := slot(Field.LegendGroup).value]
      [key(Field.Opacity) := slot(Field.Opacity).value]
      [key(Field.Ids) := slot(Field.Ids).value]
      [key(Field.Width) := slot(Field.Width).value]
      [key(Field.Offset) := slot(Field.Offset).value]
      [key(Field.Text) := slot(Field.Text).value]
  {
  }

  lemma EmitSecondThird(slot: Field -> Option<Json.Value>, key: Field -> string)
    requires forall f: Field :: slot(f).Some?
    ensures Emit(24, slot, key) == Emit(12, slot, key)
      [key(Field.TextPosition) := slot(Field.TextPosition).value]
      [key(Field.TextTemplate) := slot(Field.TextTemplate).value]
      [key(Field.HoverText) := slot(Field.HoverText).value]
      [key(Field.HoverInfo) := slot(Field.HoverInfo).value]
      [key(Field.HoverTemplate) := slot(Field.HoverTemplate).value]
      [key(Field.XAxis) := slot(Field.XAxis).value]
      [key(Field.YAxis) := slot(Field.YAxis).value]
      [key(Field.Orientation) := slot(Field.Orientation).value]
      [key(Field.AlignmentGroup) := slot(Field.AlignmentGroup).value]
      [key(Field.OffsetGroup) := slot(Field.OffsetGroup).value]
      [key(Field.Marker) := slot(Field.Marker).value]
      [key(Field.TextAngle) := slot(Field.TextAngle).value]
  {
  }

  lemma EmitLastThird(slot: Field -> Option<Json.Value>, key: Field -> string)
    requires forall f: Field :: slot(f).Some?
    ensures Emit(35, slot, key) == Emit(24, slot, key)
      [key(Field.TextFont) := slot(Field.TextFont).value]
      [key(Field.ErrorX) := slot(Field.ErrorX).value]
      [key(Field.ErrorY) := slot(Field.ErrorY).value]
      [key(Field.ClipOnAxis) := slot(Field.ClipOnAxis).value]
      [key(Field.ConstrainText) := slot(Field.ConstrainText).value]
      [key(Field.HoverLabel) := slot(Field.HoverLabel).value]
      [key(Field.InsideTextAnchor) := slot(Field.InsideTextAnchor).value]
      [key(Field.InsideTextFont) := slot(Field.InsideTextFont).value]
      [key(Field.OutsideTextFont) := slot(Field.OutsideTextFont).value]
      [key(Field.XCalendar) := slot(Field.XCalendar).value]
      [key(Field.YCalendar) := slot(Field.YCalendar).value]
  {
  }

  // Helpers for AllSetToJson: the rename table evaluated at each field, in declaration
  // order, in three parts so that each part is checked on its own. They state nothing
  // beyond WireKey itself.

  /** From `type` to `legendgroup`. */
  lemma RenameTablePart1()
    ensures WireKey(Field.Type) == "type"
    ensures WireKey(Field.X) == "x"
    ensures WireKey(Field.Y) == "y"
    ensures WireKey(Field.Name) == "name"
    ensures WireKey(Field.Visible) == "visible"
    ensures WireKey(Field.ShowLegend) == "showlegend"
    ensures WireKey(Field.LegendGroup) == "legendgroup"
  {
  }

  /** From `opacity` to `texttemplate`. */
  lemma RenameTablePart2()
    ensures WireKey(Field.Opacity) == "opacity"
    ensures WireKey(Field.Ids) == "ids"
    ensures WireKey(Field.Width) == "width"
    ensures WireKey(Field.Offset) == "offset"
    ensures WireKey(Field.Text) == "text"
    ensures WireKey(Field.TextPosition) == "textposition"
    ensures WireKey(Field.TextTemplate) == "texttemplate"
  {
  }

  /** From `hovertext` to `alignmentgroup`. */
  lemma RenameTablePart3()
    ensures WireKey(Field.HoverText) == "hovertext"
    ensures WireKey(Field.HoverInfo) == "hoverinfo"
    ensures WireKey(Field.HoverTemplate) == "hovertemplate"
    ensures WireKey(Field.XAxis) == "xaxis"
    ensures WireKey(Field.YAxis) == "yaxis"
    ensures WireKey(Field.Orientation) == "orientation"
    ensures WireKey(Field.AlignmentGroup) == "alignmentgroup"
  {
  }

  /** From `offsetgroup` to `cliponaxis`. */
  lemma RenameTablePart4()
    ensures WireKey(Field.OffsetGroup) == "offsetgroup"
    ensures WireKey(Field.Marker) == "marker"
    ensures WireKey(Field.TextAngle) == "textangle"
    ensures WireKey(Field.TextFont) == "textfont"
    ensures WireKey(Field.ErrorX) == "error_x"
    ensures WireKey(Field.ErrorY) == "error_y"
    ensures WireKey(Field.ClipOnAxis) == "cliponaxis"
  {
  }

  /** From `constraintext` to `ycalendar`. */
  lemma RenameTablePart5()
    ensures WireKey(Field.ConstrainText) == "constraintext"
    ensures WireKey(Field.HoverLabel) == "hoverlabel"
    ensures WireKey(Field.InsideTextAnchor) == "insidetextanchor"
    ensures WireKey(Field.InsideTextFont) == "insidetextfont"
    ensures WireKey(Field.OutsideTextFont) == "outsidetextfont"
    ensures WireKey(Field.XCalendar) == "xcalendar"
    ensures WireKey(Field.YCalendar) == "ycalendar"
  {
  }
}
