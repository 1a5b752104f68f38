/** What each builder setter of the bar trace does to the serialised object, and how
    successive setter calls combine. Every setter writes the encoding of its argument under
    its own wire key and leaves every other key, the type tag included, as it was. */
module BarSetters {
  import opened Wrappers
  import Json
  import C = Common
  import opened BarTrace
  import opened BarProperties

  // Attributes that hold one value of a fixed type.

  /** The setters of plain string attributes write a JSON string. */
  lemma StringSettersToJson<X, Y>(b: Bar<X, Y>, s: string, enc: Codec<X, Y>)
    ensures b.Name(s).ToJson(enc) == b.ToJson(enc)["name" := Json.Str(s)]
    ensures b.LegendGroup(s).ToJson(enc) == b.ToJson(enc)["legendgroup" := Json.Str(s)]
    ensures b.XAxis(s).ToJson(enc) == b.ToJson(enc)["xaxis" := Json.Str(s)]
    ensures b.YAxis(s).ToJson(enc) == b.ToJson(enc)["yaxis" := Json.Str(s)]
    ensures b.AlignmentGroup(s).ToJson(enc) == b.ToJson(enc)["alignmentgroup" := Json.Str(s)]
    ensures b.OffsetGroup(s).ToJson(enc) == b.ToJson(enc)["offsetgroup" := Json.Str(s)]
  {
    UpdateToJson(b, b.Name(s), Field.Name, enc);
    UpdateToJson(b, b.LegendGroup(s), Field.LegendGroup, enc);
    UpdateToJson(b, b.XAxis(s), Field.XAxis, enc);
    UpdateToJson(b, b.YAxis(s), Field.YAxis, enc);
    UpdateToJson(b, b.AlignmentGroup(s), Field.AlignmentGroup, enc);
    UpdateToJson(b, b.OffsetGroup(s), Field.OffsetGroup, enc);
  }

  /** The boolean, integer and floating-point setters. */
  lemma NumericSettersToJson<X, Y>(b: Bar<X, Y>, flag: bool, n: C.Usize, h: C.F64, enc: Codec<X, Y>)
    ensures b.ShowLegend(flag).ToJson(enc) == b.ToJson(enc)["showlegend" := Json.Bool(flag)]
    ensures b.ClipOnAxis(flag).ToJson(enc) == b.ToJson(enc)["cliponaxis" := Json.Bool(flag)]
    ensures b.Width(n).ToJson(enc) == b.ToJson(enc)["width" := Json.Number(n as int)]
    ensures b.Opacity(h).ToJson(enc) == b.ToJson(enc)["opacity" := enc.float(h)]
    ensures b.TextAngle(h).ToJson(enc) == b.ToJson(enc)["textangle" := enc.float(h)]
  {
    UpdateToJson(b, b.ShowLegend(flag), Field.ShowLegend, enc);
    UpdateToJson(b, b.ClipOnAxis(flag), Field.ClipOnAxis, enc);
    UpdateToJson(b, b.Width(n), Field.Width, enc);
    UpdateToJson(b, b.Opacity(h), Field.Opacity, enc);
    UpdateToJson(b, b.TextAngle(h), Field.TextAngle, enc);
  }

  /** `ids` writes an array of strings. */
  lemma IdsToJson<X, Y>(b: Bar<X, Y>, ids: seq<string>, enc: Codec<X, Y>)
    ensures b.Ids(ids).ToJson(enc) == b.ToJson(enc)["ids" := Json.Array(Json.Elements(ids, Json.StrOf))]
  {
    UpdateToJson(b, b.Ids(ids), Field.Ids, enc);
  }

  /** The setters of enumerated attributes from the `common` module write their argument
      with that type's own encoder. */
  lemma EnumSettersToJson<X, Y>(
    b: Bar<X, Y>, visible: C.Visible, hoverInfo: C.HoverInfo, orientation: C.Orientation,
    constrain: C.ConstrainText, anchor: C.TextAnchor, enc: Codec<X, Y>)
    ensures b.Visible(visible).ToJson(enc) == b.ToJson(enc)["visible" := enc.visible(visible)]
    ensures b.HoverInfo(hoverInfo).ToJson(enc) == b.ToJson(enc)["hoverinfo" := enc.hoverInfo(hoverInfo)]
    ensures b.Orientation(orientation).ToJson(enc) == b.ToJson(enc)["orientation" := enc.orientation(orientation)]
    ensures b.ConstrainText(constrain).ToJson(enc) == b.ToJson(enc)["constraintext" := enc.constrainText(constrain)]
    ensures b.InsideTextAnchor(anchor).ToJson(enc) == b.ToJson(enc)["insidetextanchor" := enc.textAnchor(anchor)]
  {
    UpdateToJson(b, b.Visible(visible), Field.Visible, enc);
    UpdateToJson(b, b.HoverInfo(hoverInfo), Field.HoverInfo, enc);
    UpdateToJson(b, b.Orientation(orientation), Field.Orientation, enc);
    UpdateToJson(b, b.ConstrainText(constrain), Field.ConstrainText, enc);
    UpdateToJson(b, b.InsideTextAnchor(anchor), Field.InsideTextAnchor, enc);
  }

  /** The two calendar setters share an encoder but not a key. */
  lemma CalendarSettersToJson<X, Y>(b: Bar<X, Y>, xCalendar: C.Calendar, yCalendar: C.Calendar, enc: Codec<X, Y>)
    ensures b.XCalendar(xCalendar).ToJson(enc) == b.ToJson(enc)["xcalendar" := enc.calendar(xCalendar)]
    ensures b.YCalendar(yCalendar).ToJson(enc) == b.ToJson(enc)["ycalendar" := enc.calendar(yCalendar)]
  {
    UpdateToJson(b, b.XCalendar(xCalendar), Field.XCalendar, enc);
    UpdateToJson(b, b.YCalendar(yCalendar), Field.YCalendar, enc);
  }

  /** The setters of nested sub-objects from the `common` module write their argument with
      that type's own encoder; the three font setters share an encoder but not a key. */
  lemma NestedSettersToJson<X, Y>(
    b: Bar<X, Y>, marker: C.Marker, font: C.Font, errorX: C.ErrorData, errorY: C.ErrorData,
    hoverLabel: C.Label, enc: Codec<X, Y>)
    ensures b.Marker(marker).ToJson(enc) == b.ToJson(enc)["marker" := enc.marker(marker)]
    ensures b.TextFont(font).ToJson(enc) == b.ToJson(enc)["textfont" := enc.font(font)]
    ensures b.InsideTextFont(font).ToJson(enc) == b.ToJson(enc)["insidetextfont" := enc.font(font)]
    ensures b.OutsideTextFont(font).ToJson(enc) == b.ToJson(enc)["outsidetextfont" := enc.font(font)]
    ensures b.ErrorX(errorX).ToJson(enc) == b.ToJson(enc)["error_x" := enc.errorData(errorX)]
    ensures b.ErrorY(errorY).ToJson(enc) == b.ToJson(enc)["error_y" := enc.errorData(errorY)]
    ensures b.HoverLabel(hoverLabel).ToJson(enc) == b.ToJson(enc)["hoverlabel" := enc.hoverLabel(hoverLabel)]
  {
    UpdateToJson(b, b.Marker(marker), Field.Marker, enc);
    UpdateToJson(b, b.TextFont(font), Field.TextFont, enc);
    UpdateToJson(b, b.InsideTextFont(font), Field.InsideTextFont, enc);
    UpdateToJson(b, b.OutsideTextFont(font), Field.OutsideTextFont, enc);
    UpdateToJson(b, b.ErrorX(errorX), Field.ErrorX, enc);
    UpdateToJson(b, b.ErrorY(errorY), Field.ErrorY, enc);
    UpdateToJson(b, b.HoverLabel(hoverLabel), Field.HoverLabel, enc);
  }

  // Calling a setter of a single-valued attribute twice keeps only the second value. With
  // equal values the second call changes nothing, so each such setter is idempotent.

  lemma StringSettersLastWins<X, Y>(b: Bar<X, Y>, s1: string, s2: string, ids1: seq<string>, ids2: seq<string>)
    ensures b.Name(s1).Name(s2) == b.Name(s2)
    ensures b.LegendGroup(s1).LegendGroup(s2) == b.LegendGroup(s2)
    ensures b.XAxis(s1).XAxis(s2) == b.XAxis(s2)
    ensures b.YAxis(s1).YAxis(s2) == b.YAxis(s2)
    ensures b.AlignmentGroup(s1).AlignmentGroup(s2) == b.AlignmentGroup(s2)
    ensures b.OffsetGroup(s1).OffsetGroup(s2) == b.OffsetGroup(s2)
    ensures b.Ids(ids1).Ids(ids2) == b.Ids(ids2)
  {
  }

  lemma NumericSettersLastWins<X, Y>(b: Bar<X, Y>, flag1: bool, flag2: bool, n1: C.Usize, n2: C.Usize, h1: C.F64, h2: C.F64)
    ensures b.ShowLegend(flag1).ShowLegend(flag2) == b.ShowLegend(flag2)
    ensures b.ClipOnAxis(flag1).ClipOnAxis(flag2) == b.ClipOnAxis(flag2)
    ensures b.Width(n1).Width(n2) == b.Width(n2)
    ensures b.Opacity(h1).Opacity(h2) == b.Opacity(h2)
    ensures b.TextAngle(h1).TextAngle(h2) == b.TextAngle(h2)
  {
  }

  lemma EnumSettersLastWins<X, Y>(
    b: Bar<X, Y>, visible1: C.Visible, visible2: C.Visible, hoverInfo1: C.HoverInfo, hoverInfo2: C.HoverInfo,
    orientation1: C.Orientation, orientation2: C.Orientation, constrain1: C.ConstrainText,
    constrain2: C.ConstrainText, anchor1: C.TextAnchor, anchor2: C.TextAnchor, calendar1: C.Calendar,
    calendar2: C.Calendar)
    ensures b.Visible(visible1).Visible(visible2) == b.Visible(visible2)
    ensures b.HoverInfo(hoverInfo1).HoverInfo(hoverInfo2) == b.HoverInfo(hoverInfo2)
    ensures b.Orientation(orientation1).Orientation(orientation2) == b.Orientation(orientation2)
    ensures b.ConstrainText(constrain1).ConstrainText(constrain2) == b.ConstrainText(constrain2)
    ensures b.InsideTextAnchor(anchor1).InsideTextAnchor(anchor2) == b.InsideTextAnchor(anchor2)
    ensures b.XCalendar(calendar1).XCalendar(calendar2) == b.XCalendar(calendar2)
    ensures b.YCalendar(calendar1).YCalendar(calendar2) == b.YCalendar(calendar2)
  {
  }

  lemma NestedSettersLastWins<X, Y>(
    b: Bar<X, Y>, marker1: C.Marker, marker2: C.Marker, font1: C.Font, font2: C.Font,
    error1: C.ErrorData, error2: C.ErrorData, label1: C.Label, label2: C.Label)
    ensures b.Marker(marker1).Marker(marker2) == b.Marker(marker2)
    ensures b.TextFont(font1).TextFont(font2) == b.TextFont(font2)
    ensures b.InsideTextFont(font1).InsideTextFont(font2) == b.InsideTextFont(font2)
    ensures b.OutsideTextFont(font1).OutsideTextFont(font2) == b.OutsideTextFont(font2)
    ensures b.ErrorX(error1).ErrorX(error2) == b.ErrorX(error2)
    ensures b.ErrorY(error1).ErrorY(error2) == b.ErrorY(error2)
    ensures b.HoverLabel(label1).HoverLabel(label2) == b.HoverLabel(label2)
  {
  }

  // Attributes that hold either one value or an array (`Dim`): the plain setter and its
  // `_array` partner write the same attribute under the same key, so whichever of the two
  // is called last decides what is serialised.

  lemma OffsetSettersToJson<X, Y>(b: Bar<X, Y>, n: C.Usize, ns: seq<C.Usize>, enc: Codec<X, Y>)
    ensures b.Offset(n).ToJson(enc) == b.ToJson(enc)["offset" := Json.Number(n as int)]
    ensures b.OffsetArray(ns).ToJson(enc) == b.ToJson(enc)["offset" := Json.Array(Json.Elements(ns, C.NumberOf))]
    ensures b.Offset(n).OffsetArray(ns) == b.OffsetArray(ns)
    ensures b.OffsetArray(ns).Offset(n) == b.Offset(n)
  {
    UpdateToJson(b, b.Offset(n), Field.Offset, enc);
    UpdateToJson(b, b.OffsetArray(ns), Field.Offset, enc);
  }

  lemma TextSettersToJson<X, Y>(b: Bar<X, Y>, s: string, ss: seq<string>, enc: Codec<X, Y>)
    ensures b.Text(s).ToJson(enc) == b.ToJson(enc)["text" := Json.Str(s)]
    ensures b.TextArray(ss).ToJson(enc) == b.ToJson(enc)["text" := Json.Array(Json.Elements(ss, Json.StrOf))]
    ensures b.Text(s).TextArray(ss) == b.TextArray(ss)
    ensures b.TextArray(ss).Text(s) == b.Text(s)
  {
    UpdateToJson(b, b.Text(s), Field.Text, enc);
    UpdateToJson(b, b.TextArray(ss), Field.Text, enc);
  }

  lemma TextPositionSettersToJson<X, Y>(b: Bar<X, Y>, p: C.TextPosition, ps: seq<C.TextPosition>, enc: Codec<X, Y>)
    ensures b.TextPosition(p).ToJson(enc) == b.ToJson(enc)["textposition" := enc.textPosition(p)]
    ensures b.TextPositionArray(ps).ToJson(enc)
         == b.ToJson(enc)["textposition" := Json.Array(Json.Elements(ps, enc.textPosition))]
    ensures b.TextPosition(p).TextPositionArray(ps) == b.TextPositionArray(ps)
    ensures b.TextPositionArray(ps).TextPosition(p) == b.TextPosition(p)
  {
    UpdateToJson(b, b.TextPosition(p), Field.TextPosition, enc);
    UpdateToJson(b, b.TextPositionArray(ps), Field.TextPosition, enc);
  }

  lemma TextTemplateSettersToJson<X, Y>(b: Bar<X, Y>, s: string, ss: seq<string>, enc: Codec<X, Y>)
    ensures b.TextTemplate(s).ToJson(enc) == b.ToJson(enc)["texttemplate" := Json.Str(s)]
    ensures b.TextTemplateArray(ss).ToJson(enc)
         == b.ToJson(enc)["texttemplate" := Json.Array(Json.Elements(ss, Json.StrOf))]
    ensures b.TextTemplate(s).TextTemplateArray(ss) == b.TextTemplateArray(ss)
    ensures b.TextTemplateArray(ss).TextTemplate(s) == b.TextTemplate(s)
  {
    UpdateToJson(b, b.TextTemplate(s), Field.TextTemplate, enc);
    UpdateToJson(b, b.TextTemplateArray(ss), Field.TextTemplate, enc);
  }

  lemma HoverTextSettersToJson<X, Y>(b: Bar<X, Y>, s: string, ss: seq<string>, enc: Codec<X, Y>)
    ensures b.HoverText(s).ToJson(enc) == b.ToJson(enc)["hovertext" := Json.Str(s)]
    ensures b.HoverTextArray(ss).ToJson(enc)
         == b.ToJson(enc)["hovertext" := Json.Array(Json.Elements(ss, Json.StrOf))]
    ensures b.HoverText(s).HoverTextArray(ss) == b.HoverTextArray(ss)
    ensures b.HoverTextArray(ss).HoverText(s) == b.HoverText(s)
  {
    UpdateToJson(b, b.HoverText(s), Field.HoverText, enc);
    UpdateToJson(b, b.HoverTextArray(ss), Field.HoverText, enc);
  }

  lemma HoverTemplateSettersToJson<X, Y>(b: Bar<X, Y>, s: string, ss: seq<string>, enc: Codec<X, Y>)
    ensures b.HoverTemplate(s).ToJson(enc) == b.ToJson(enc)["hovertemplate" := Json.Str(s)]
    ensures b.HoverTemplateArray(ss).ToJson(enc)
         == b.ToJson(enc)["hovertemplate" := Json.Array(Json.Elements(ss, Json.StrOf))]
    ensures b.HoverTemplate(s).HoverTemplateArray(ss) == b.HoverTemplateArray(ss)
    ensures b.HoverTemplateArray(ss).HoverTemplate(s) == b.HoverTemplate(s)
  {
    UpdateToJson(b, b.HoverTemplate(s), Field.HoverTemplate, enc);
    UpdateToJson(b, b.HoverTemplateArray(ss), Field.HoverTemplate, enc);
  }

  /** `offset(5).offset_array([5, 5])` serialises the array, not the scalar. */
  lemma OffsetArrayAfterScalar<X, Y>(b: Bar<X, Y>, enc: Codec<X, Y>)
    ensures b.Offset(5).OffsetArray([5, 5]).ToJson(enc)
         == b.ToJson(enc)["offset" := Json.Array([Json.Number(5), Json.Number(5)])]
  {
    var ns: seq<C.Usize> := [5, 5];
    var encoded := Json.Elements(ns, C.NumberOf);
    assert encoded == [Json.Number(5), Json.Number(5)] by {
      assert |encoded| == 2 && encoded[0] == C.NumberOf(5) && encoded[1] == C.NumberOf(5);
    }
    OffsetSettersToJson(b, 5, ns, enc);
  }
}
