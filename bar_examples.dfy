/** The serialisation examples that the bar trace's own documentation and tests give,
    stated for every encoding of the types from the `common` module. */
module BarExamples {
  import opened Wrappers
  import Json
  import C = Common
  import opened BarTrace
  import opened BarProperties
  import opened BarSetters

  lemma ElementsOfOne<T>(a: T, enc: T -> Json.Value)
    ensures Json.Elements([a], enc) == [enc(a)]
  {
    var items := Json.Elements([a], enc);
    assert |items| == 1 && items[0] == enc(a);
  }

  lemma ElementsOfTwo<T>(a: T, b: T, enc: T -> Json.Value)
    ensures Json.Elements([a, b], enc) == [enc(a), enc(b)]
  {
    var items := Json.Elements([a, b], enc);
    assert |items| == 2 && items[0] == enc(a) && items[1] == enc(b);
  }

  /** The documented example: `Bar::new(x, y).show_legend(true).opacity(0.5)` serialises to
      the type tag, the two data arrays, `showlegend` and `opacity`. */
  lemma DocumentedExample<X, Y>(x: seq<X>, y: seq<Y>, opacity: C.F64, enc: Codec<X, Y>)
    ensures Bar.New(x, y).ShowLegend(true).Opacity(opacity).ToJson(enc) == map[
      "type" := Json.Str("bar"),
      "x" := Json.Array(Json.Elements(x, enc.x)),
      "y" := Json.Array(Json.Elements(y, enc.y)),
      "showlegend" := Json.Bool(true),
      "opacity" := enc.float(opacity)]
  {
    var b0 := Bar.New(x, y);
    var b1 := b0.ShowLegend(true);
    var b2 := b1.Opacity(opacity);
    NewToJson(x, y, enc);
    UpdateToJson(b0, b1, Field.ShowLegend, enc);
    UpdateToJson(b1, b2, Field.Opacity, enc);
  }

  /** The values of the types from the `common` module that the serialisation test passes to
      the setters. Their own encodings are not part of this model, so the test is stated for
      any such values. */
  datatype TestValues = TestValues(
    constrain: C.ConstrainText, errorX: C.ErrorData, errorY: C.ErrorData, hoverInfo: C.HoverInfo,
    hoverLabel: C.Label, anchor: C.TextAnchor, font: C.Font, marker: C.Marker, opacity: C.F64,
    orientation: C.Orientation, textAngle: C.F64, position: C.TextPosition, visible: C.Visible,
    xCalendar: C.Calendar, yCalendar: C.Calendar)

  /** The builder chain of the serialisation test. It calls every setter once, and sets each
      `Dim` attribute first to a scalar and then to an array. */
  function TestChain(v: TestValues): Bar<int, int>
  {
    Bar.New([1, 2], [3, 4])
      .AlignmentGroup("alignment_group")
      .ClipOnAxis(true)
      .ConstrainText(v.constrain)
      .ErrorX(v.errorX)
      .ErrorY(v.errorY)
      .HoverInfo(v.hoverInfo)
      .HoverLabel(v.hoverLabel)
      .HoverTemplate("tmpl")
      .HoverTemplateArray(["tmpl1", "tmpl2"])
      .HoverText("hover_text")
      .HoverTextArray(["hover_text"])
      .Ids(["1"])
      .InsideTextAnchor(v.anchor)
      .InsideTextFont(v.font)
      .LegendGroup("legend-group")
      .Marker(v.marker)
      .Name("Bar")
      .Offset(5)
      .OffsetArray([5, 5])
      .OffsetGroup("offset_group")
      .Opacity(v.opacity)
      .Orientation(v.orientation)
      .OutsideTextFont(v.font)
      .ShowLegend(false)
      .Text("text")
      .TextAngle(v.textAngle)
      .TextArray(["text"])
      .TextFont(v.font)
      .TextPosition(v.position)
      .TextPositionArray([v.position])
      .TextTemplate("text_template")
      .TextTemplateArray(["text_template"])
      .Visible(v.visible)
      .Width(999)
      .XAxis("xaxis")
      .XCalendar(v.xCalendar)
      .YAxis("yaxis")
      .YCalendar(v.yCalendar)
  }

  /** The trace the test chain should build, attribute by attribute: every attribute set,
      and each `Dim` attribute in its array form. */
  function TestTrace(v: TestValues): Bar<int, int>
  {
    Bar(C.PlotType.Bar, Some([1, 2]), Some([3, 4]), Some("Bar"), Some(v.visible), Some(false),
        Some("legend-group"), Some(v.opacity), Some(["1"]), Some(999), Some(C.Vector([5, 5])),
        Some(C.Vector(["text"])), Some(C.Vector([v.position])), Some(C.Vector(["text_template"])),
        Some(C.Vector(["hover_text"])), Some(v.hoverInfo), Some(C.Vector(["tmpl1", "tmpl2"])),
        Some("xaxis"), Some("yaxis"), Some(v.orientation), Some("alignment_group"),
        Some("offset_group"), Some(v.marker), Some(v.textAngle), Some(v.font), Some(v.errorX),
        Some(v.errorY), Some(true), Some(v.constrain), Some(v.hoverLabel), Some(v.anchor),
        Some(v.font), Some(v.font), Some(v.xCalendar), Some(v.yCalendar))
  }

  /** The object the serialisation test expects, with each `common` value written by its
      encoder. */
  function TestExpected(v: TestValues, enc: Codec<int, int>): map<string, Json.Value>
  {
    map[
      "type" := Json.Str("bar"),
      "x" := Json.Array([enc.x(1), enc.x(2)]),
      "y" := Json.Array([enc.y(3), enc.y(4)]),
      "name" := Json.Str("Bar"),
      "visible" := enc.visible(v.visible),
      "showlegend" := Json.Bool(false),
      "legendgroup" := Json.Str("legend-group"),
      "opacity" := enc.float(v.opacity),
      "ids" := Json.Array([Json.Str("1")]),
      "width" := Json.Number(999),
      "offset" := Json.Array([Json.Number(5), Json.Number(5)]),
      "text" := Json.Array([Json.Str("text")]),
      "textposition" := Json.Array([enc.textPosition(v.position)]),
      "texttemplate" := Json.Array([Json.Str("text_template")]),
      "hovertext" := Json.Array([Json.Str("hover_text")]),
      "hoverinfo" := enc.hoverInfo(v.hoverInfo),
      "hovertemplate" := Json.Array([Json.Str("tmpl1"), Json.Str("tmpl2")]),
      "xaxis" := Json.Str("xaxis"),
      "yaxis" := Json.Str("yaxis"),
      "orientation" := enc.orientation(v.orientation),
      "alignmentgroup" := Json.Str("alignment_group"),
      "offsetgroup" := Json.Str("offset_group"),
      "marker" := enc.marker(v.marker),
      "textangle" := enc.float(v.textAngle),
      "textfont" := enc.font(v.font),
      "error_x" := enc.errorData(v.errorX),
      "error_y" := enc.errorData(v.errorY),
      "cliponaxis" := Json.Bool(true),
      "constraintext" := enc.constrainText(v.constrain),
      "hoverlabel" := enc.hoverLabel(v.hoverLabel),
      "insidetextanchor" := enc.textAnchor(v.anchor),
      "insidetextfont" := enc.font(v.font),
      "outsidetextfont" := enc.font(v.font),
      "xcalendar" := enc.calendar(v.xCalendar),
      "ycalendar" := enc.calendar(v.yCalendar)]
  }

  /** The test chain builds the test trace. In particular, for each `Dim` attribute the
      array call made after the scalar one wins. */
  lemma TestChainBuilds(v: TestValues)
    ensures TestChain(v) == TestTrace(v)
  {
  }

  /** The test trace serialises to the object the test expects. */
  lemma TestTraceToJson(v: TestValues, enc: Codec<int, int>)
    ensures TestTrace(v).ToJson(enc) == TestExpected(v, enc)
  {
    TestTraceAllSet(v);
    AllSetToJson(TestTrace(v), enc);
    TestTraceSlots1(v, enc);
    TestTraceSlots2(v, enc);
    TestTraceSlots3(v, enc);
    TestTraceSlots4(v, enc);
    TestTraceSlots5(v, enc);
    TestTraceSlots6(v, enc);
    TestTraceSlots7(v, enc);
  }

  /** The serialisation test (`test_serialize_bar`): the full builder chain serialises to the
      expected object. */
  lemma SerializeBarExample(v: TestValues, enc: Codec<int, int>)
    ensures TestChain(v).ToJson(enc) == TestExpected(v, enc)
  {
    TestChainBuilds(v);
    TestTraceToJson(v, enc);
  }

  lemma TestTraceAllSet(v: TestValues)
    ensures forall f: Field :: TestTrace(v).Has(f)
  {
  }

  // The encodings of the attributes of the test trace, in declaration order.

  lemma TestTraceSlots1(v: TestValues, enc: Codec<int, int>)
    ensures var t := TestTrace(v);
      && t.Slot(Field.Type, enc) == Some(Json.Str("bar"))
      && t.Slot(Field.X, enc) == Some(Json.Array([enc.x(1), enc.x(2)]))
      && t.Slot(Field.Y, enc) == Some(Json.Array([enc.y(3), enc.y(4)]))
      && t.Slot(Field.Name, enc) == Some(Json.Str("Bar"))
      && t.Slot(Field.Visible, enc) == Some(enc.visible(v.visible))
  {
    ElementsOfTwo(1, 2, enc.x);
    ElementsOfTwo(3, 4, enc.y);
  }

  lemma TestTraceSlots2(v: TestValues, enc: Codec<int, int>)
    ensures var t := TestTrace(v);
      && t.Slot(Field.ShowLegend, enc) == Some(Json.Bool(false))
      && t.Slot(Field.LegendGroup, enc) == Some(Json.Str("legend-group"))
      && t.Slot(Field.Opacity, enc) == Some(enc.float(v.opacity))
      && t.Slot(Field.Ids, enc) == Some(Json.Array([Json.Str("1")]))
      && t.Slot(Field.Width, enc) == Some(Json.Number(999))
  {
    ElementsOfOne("1", Json.StrOf);
  }

  lemma TestTraceSlots3(v: TestValues, enc: Codec<int, int>)
    ensures var t := TestTrace(v);
      && t.Slot(Field.Offset, enc) == Some(Json.Array([Json.Number(5), Json.Number(5)]))
      && t.Slot(Field.Text, enc) == Some(Json.Array([Json.Str("text")]))
      && t.Slot(Field.TextPosition, enc) == Some(Json.Array([enc.textPosition(v.position)]))
      && t.Slot(Field.TextTemplate, enc) == Some(Json.Array([Json.Str("text_template")]))
      && t.Slot(Field.HoverText, enc) == Some(Json.Array([Json.Str("hover_text")]))
  {
    ElementsOfTwo(5 as C.Usize, 5 as C.Usize, C.NumberOf);
    ElementsOfOne("text", Json.StrOf);
    ElementsOfOne(v.position, enc.textPosition);
    ElementsOfOne("text_template", Json.StrOf);
    ElementsOfOne("hover_text", Json.StrOf);
  }

  lemma TestTraceSlots4(v: TestValues, enc: Codec<int, int>)
    ensures var t := TestTrace(v);
      && t.Slot(Field.HoverInfo, enc) == Some(enc.hoverInfo(v.hoverInfo))
      && t.Slot(Field.HoverTemplate, enc) == Some(Json.Array([Json.Str("tmpl1"), Json.Str("tmpl2")]))
      && t.Slot(Field.XAxis, enc) == Some(Json.Str("xaxis"))
      && t.Slot(Field.YAxis, enc) == Some(Json.Str("yaxis"))
      && t.Slot(Field.Orientation, enc) == Some(enc.orientation(v.orientation))
  {
    ElementsOfTwo("tmpl1", "tmpl2", Json.StrOf);
  }

  lemma TestTraceSlots5(v: TestValues, enc: Codec<int, int>)
    ensures var t := TestTrace(v);
      && t.Slot(Field.AlignmentGroup, enc) == Some(Json.Str("alignment_group"))
      && t.Slot(Field.OffsetGroup, enc) == Some(Json.Str("offset_group"))
      && t.Slot(Field.Marker, enc) == Some(enc.marker(v.marker))
      && t.Slot(Field.TextAngle, enc) == Some(enc.float(v.textAngle))
      && t.Slot(Field.TextFont, enc) == Some(enc.font(v.font))
  {
  }

  lemma TestTraceSlots6(v: TestValues, enc: Codec<int, int>)
    ensures var t := TestTrace(v);
      && t.Slot(Field.ErrorX, enc) == Some(enc.errorData(v.errorX))
      && t.Slot(Field.ErrorY, enc) == Some(enc.errorData(v.errorY))
      && t.Slot(Field.ClipOnAxis, enc) == Some(Json.Bool(true))
      && t.Slot(Field.ConstrainText, enc) == Some(enc.constrainText(v.constrain))
      && t.Slot(Field.HoverLabel, enc) == Some(enc.hoverLabel(v.hoverLabel))
  {
  }

  lemma TestTraceSlots7(v: TestValues, enc: Codec<int, int>)
    ensures var t := TestTrace(v);
      && t.Slot(Field.InsideTextAnchor, enc) == Some(enc.textAnchor(v.anchor))
      && t.Slot(Field.InsideTextFont, enc) == Some(enc.font(v.font))
      && t.Slot(Field.OutsideTextFont, enc) == Some(enc.font(v.font))
      && t.Slot(Field.XCalendar, enc) == Some(enc.calendar(v.xCalendar))
      && t.Slot(Field.YCalendar, enc) == Some(enc.calendar(v.yCalendar))
  {
  }
}
