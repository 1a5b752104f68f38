/** The bar trace: a record of optional attributes with a fixed type tag, updated through
    a fluent builder and serialised sparsely into a JSON object. */
module BarTrace {
  import opened Wrappers
  import Json
  import C = Common

  /** The attributes of a bar trace, one per field of the record, the type tag included,
      numbered in declaration order: the order in which the derived serialiser visits them.
      Fields are numbers rather than the constructors of an enumeration so that the walk
      over the record (`Emit`) can count through them: field `n` is the `n`-th visited. The
      tables over fields (`WireKey`, `Bar.Has`, `Bar.SameAt`, `Bar.Slot`) therefore test the
      fields in turn, and their final `else` is the last field, `YCalendar`. */
  newtype Field = i: int | 0 <= i < 35 {
    static const Type: Field := 0
    static const X: Field := 1
    static const Y: Field := 2
    static const Name: Field := 3
    static const Visible: Field := 4
    static const ShowLegend: Field := 5
    static const LegendGroup: Field := 6
    static const Opacity: Field := 7
    static const Ids: Field := 8
    static const Width: Field := 9
    static const Offset: Field := 10
    static const Text: Field := 11
    static const TextPosition: Field := 12
    static const TextTemplate: Field := 13
    static const HoverText: Field := 14
    static const HoverInfo: Field := 15
    static const HoverTemplate: Field := 16
    static const XAxis: Field := 17
    static const YAxis: Field := 18
    static const Orientation: Field := 19
    static const AlignmentGroup: Field := 20
    static const OffsetGroup: Field := 21
    static const Marker: Field := 22
    static const TextAngle: Field := 23
    static const TextFont: Field := 24
    static const ErrorX: Field := 25
    static const ErrorY: Field := 26
    static const ClipOnAxis: Field := 27
    static const ConstrainText: Field := 28
    static const HoverLabel: Field := 29
    static const InsideTextAnchor: Field := 30
    static const InsideTextFont: Field := 31
    static const OutsideTextFont: Field := 32
    static const XCalendar: Field := 33
    static const YCalendar: Field := 34
  }

  /** The number of fields of the record. */
  const FieldCount: nat := 35

  /** The rename table: the JSON key each attribute is written under. Attributes without
      a rename keep their own field name. */
  function WireKey(f: Field): (k: string)
    ensures FieldOf(k) == Some(f)
  {
    if f == Field.Type then "type"
    else if f == Field.X then "x"
    else if f == Field.Y then "y"
    else if f == Field.Name then "name"
    else if f == Field.Visible then "visible"
    else if f == Field.ShowLegend then "showlegend"
    else if f == Field.LegendGroup then "legendgroup"
    else if f == Field.Opacity then "opacity"
    else if f == Field.Ids then "ids"
    else if f == Field.Width then "width"
    else if f == Field.Offset then "offset"
    else if f == Field.Text then "text"
    else if f == Field.TextPosition then "textposition"
    else if f == Field.TextTemplate then "texttemplate"
    else if f == Field.HoverText then "hovertext"
    else if f == Field.HoverInfo then "hoverinfo"
    else if f == Field.HoverTemplate then "hovertemplate"
    else if f == Field.XAxis then "xaxis"
    else if f == Field.YAxis then "yaxis"
    else if f == Field.Orientation then "orientation"
    else if f == Field.AlignmentGroup then "alignmentgroup"
    else if f == Field.OffsetGroup then "offsetgroup"
    else if f == Field.Marker then "marker"
    else if f == Field.TextAngle then "textangle"
    else if f == Field.TextFont then "textfont"
    else if f == Field.ErrorX then "error_x"
    else if f == Field.ErrorY then "error_y"
    else if f == Field.ClipOnAxis then "cliponaxis"
    else if f == Field.ConstrainText then "constraintext"
    else if f == Field.HoverLabel then "hoverlabel"
    else if f == Field.InsideTextAnchor then "insidetextanchor"
    else if f == Field.InsideTextFont then "insidetextfont"
    else if f == Field.OutsideTextFont then "outsidetextfont"
    else if f == Field.XCalendar then "xcalendar"
    else "ycalendar"
  }

  /** The attribute written under `key`, if any: the inverse of the rename table. */
  function FieldOf(key: string): Option<Field>
  {
    match key
    case "type" => Some(Field.Type)
    case "x" => Some(Field.X)
    case "y" => Some(Field.Y)
    case "name" => Some(Field.Name)
    case "visible" => Some(Field.Visible)
    case "showlegend" => Some(Field.ShowLegend)
    case "legendgroup" => Some(Field.LegendGroup)
    case "opacity" => Some(Field.Opacity)
    case "ids" => Some(Field.Ids)
    case "width" => Some(Field.Width)
    case "offset" => Some(Field.Offset)
    case "text" => Some(Field.Text)
    case "textposition" => Some(Field.TextPosition)
    case "texttemplate" => Some(Field.TextTemplate)
    case "hovertext" => Some(Field.HoverText)
    case "hoverinfo" => Some(Field.HoverInfo)
    case "hovertemplate" => Some(Field.HoverTemplate)
    case "xaxis" => Some(Field.XAxis)
    case "yaxis" => Some(Field.YAxis)
    case "orientation" => Some(Field.Orientation)
    case "alignmentgroup" => Some(Field.AlignmentGroup)
    case "offsetgroup" => Some(Field.OffsetGroup)
    case "marker" => Some(Field.Marker)
    case "textangle" => Some(Field.TextAngle)
    case "textfont" => Some(Field.TextFont)
    case "error_x" => Some(Field.ErrorX)
    case "error_y" => Some(Field.ErrorY)
    case "cliponaxis" => Some(Field.ClipOnAxis)
    case "constraintext" => Some(Field.ConstrainText)
    case "hoverlabel" => Some(Field.HoverLabel)
    case "insidetextanchor" => Some(Field.InsideTextAnchor)
    case "insidetextfont" => Some(Field.InsideTextFont)
    case "outsidetextfont" => Some(Field.OutsideTextFont)
    case "xcalendar" => Some(Field.XCalendar)
    case "ycalendar" => Some(Field.YCalendar)
    case _ => None
  }

  /** No two attributes share a wire key, so serialisation never merges two attributes. */
  lemma WireKeysDistinct()
    ensures Injective(WireKey)
  {
  }

  /** `key` gives distinct fields distinct keys. */
  ghost predicate Injective(key: Field -> string)
  {
    forall f: Field, g: Field :: key(f) == key(g) ==> f == g
  }

  /** The object the derived serialiser has built once it has written the first `upTo`
      fields in declaration order: an entry under `key(f)` for every such field `f` whose
      encoding `slot` gives, nothing for the others. The serialiser passes the rename table
      as `key`. */
  function Emit(upTo: nat, slot: Field -> Option<Json.Value>, key: Field -> string): (written: map<string, Json.Value>)
    requires upTo <= FieldCount
    ensures |written| <= upTo
  {
    if upTo == 0 then map[]
    else
      var f := (upTo - 1) as Field;
      var written := Emit(upTo - 1, slot, key);
      if slot(f).Some? then written[key(f) := slot(f).value] else written
  }

  /** With distinct keys, the first `upTo` fields written give exactly an entry for each of
      them that has an encoding, under its own key and with its own encoding. */
  lemma {:induction false} EmitEntries(upTo: nat, slot: Field -> Option<Json.Value>, key: Field -> string)
    requires upTo <= FieldCount && Injective(key)
    ensures forall f: Field :: key(f) in Emit(upTo, slot, key) <==> f as int < upTo && slot(f).Some?
    ensures forall k :: k in Emit(upTo, slot, key) ==> exists f: Field :: key(f) == k
    ensures forall f: Field :: f as int < upTo && slot(f).Some? ==> Emit(upTo, slot, key)[key(f)] == slot(f).value
  {
    if upTo > 0 {
      EmitEntries(upTo - 1, slot, key);
    }
  }

  /** The encoders for the element types of `x` and `y` and for the types of the crate's
      `common` module, whose own encodings are not part of this model. */
  datatype Codec<!X, !Y> = Codec(
    x: X -> Json.Value,
    y: Y -> Json.Value,
    float: C.F64 -> Json.Value,
    visible: C.Visible -> Json.Value,
    hoverInfo: C.HoverInfo -> Json.Value,
    textPosition: C.TextPosition -> Json.Value,
    orientation: C.Orientation -> Json.Value,
    marker: C.Marker -> Json.Value,
    font: C.Font -> Json.Value,
    errorData: C.ErrorData -> Json.Value,
    hoverLabel: C.Label -> Json.Value,
    constrainText: C.ConstrainText -> Json.Value,
    textAnchor: C.TextAnchor -> Json.Value,
    calendar: C.Calendar -> Json.Value)

  /** The encoding of an optional attribute: nothing when it is absent. */
  function Encode<T>(o: Option<T>, enc: T -> Json.Value): (v: Option<Json.Value>)
    ensures v.Some? <==> o.Some?
  {
    match o
    case None => None
    case Some(t) => Some(enc(t))
  }

  /** The JSON array holding the elements of `xs`. */
  function ArrayOf<T>(enc: T -> Json.Value): seq<T> -> Json.Value
  {
    xs => Json.Array(Json.Elements(xs, enc))
  }

  /** A bar trace. `kind` is the type tag, fixed to the bar variant by every constructor;
      every other field is absent until set. */
  datatype Bar<X, Y> = Bar(
    kind: C.PlotType,
    x: Option<seq<X>>,
    y: Option<seq<Y>>,
    name: Option<string>,
    visible: Option<C.Visible>,
    showLegend: Option<bool>,
    legendGroup: Option<string>,
    opacity: Option<C.F64>,
    ids: Option<seq<string>>,
    width: Option<C.Usize>,
    offset: Option<C.Dim<C.Usize>>,
    text: Option<C.Dim<string>>,
    textPosition: Option<C.Dim<C.TextPosition>>,
    textTemplate: Option<C.Dim<string>>,
    hoverText: Option<C.Dim<string>>,
    hoverInfo: Option<C.HoverInfo>,
    hoverTemplate: Option<C.Dim<string>>,
    xAxis: Option<string>,
    yAxis: Option<string>,
    orientation: Option<C.Orientation>,
    alignmentGroup: Option<string>,
    offsetGroup: Option<string>,
    marker: Option<C.Marker>,
    textAngle: Option<C.F64>,
    textFont: Option<C.Font>,
    errorX: Option<C.ErrorData>,
    errorY: Option<C.ErrorData>,
    clipOnAxis: Option<bool>,
    constrainText: Option<C.ConstrainText>,
    hoverLabel: Option<C.Label>,
    insideTextAnchor: Option<C.TextAnchor>,
    insideTextFont: Option<C.Font>,
    outsideTextFont: Option<C.Font>,
    xCalendar: Option<C.Calendar>,
    yCalendar: Option<C.Calendar>)
  {
    /** Attribute `f` is set, and so written by the serialiser. The type tag is not an
        `Option` and is always written. */
    function Has(f: Field): (present: bool)
      ensures f == Field.Type ==> present
    {
      if f == Field.Type then true
      else if f == Field.X then x.Some?
      else if f == Field.Y then y.Some?
      else if f == Field.Name then name.Some?
      else if f == Field.Visible then visible.Some?
      else if f == Field.ShowLegend then showLegend.Some?
      else if f == Field.LegendGroup then legendGroup.Some?
      else if f == Field.Opacity then opacity.Some?
      else if f == Field.Ids then ids.Some?
      else if f == Field.Width then width.Some?
      else if f == Field.Offset then offset.Some?
      else if f == Field.Text then text.Some?
      else if f == Field.TextPosition then textPosition.Some?
      else if f == Field.TextTemplate then textTemplate.Some?
      else if f == Field.HoverText then hoverText.Some?
      else if f == Field.HoverInfo then hoverInfo.Some?
      else if f == Field.HoverTemplate then hoverTemplate.Some?
      else if f == Field.XAxis then xAxis.Some?
      else if f == Field.YAxis then yAxis.Some?
      else if f == Field.Orientation then orientation.Some?
      else if f == Field.AlignmentGroup then alignmentGroup.Some?
      else if f == Field.OffsetGroup then offsetGroup.Some?
      else if f == Field.Marker then marker.Some?
      else if f == Field.TextAngle then textAngle.Some?
      else if f == Field.TextFont then textFont.Some?
      else if f == Field.ErrorX then errorX.Some?
      else if f == Field.ErrorY then errorY.Some?
      else if f == Field.ClipOnAxis then clipOnAxis.Some?
      else if f == Field.ConstrainText then constrainText.Some?
      else if f == Field.HoverLabel then hoverLabel.Some?
      else if f == Field.InsideTextAnchor then insideTextAnchor.Some?
      else if f == Field.InsideTextFont then insideTextFont.Some?
      else if f == Field.OutsideTextFont then outsideTextFont.Some?
      else if f == Field.XCalendar then xCalendar.Some?
      else yCalendar.Some?
    }

    /** `this` and `other` hold the same value for attribute `f`. */
    ghost predicate SameAt(other: Bar<X, Y>, f: Field)
    {
      if f == Field.Type then kind == other.kind
      else if f == Field.X then x == other.x
      else if f == Field.Y then y == other.y
      else if f == Field.Name then name == other.name
      else if f == Field.Visible then visible == other.visible
      else if f == Field.ShowLegend then showLegend == other.showLegend
      else if f == Field.LegendGroup then legendGroup == other.legendGroup
      else if f == Field.Opacity then opacity == other.opacity
      else if f == Field.Ids then ids == other.ids
      else if f == Field.Width then width == other.width
      else if f == Field.Offset then offset == other.offset
      else if f == Field.Text then text == other.text
      else if f == Field.TextPosition then textPosition == other.textPosition
      else if f == Field.TextTemplate then textTemplate == other.textTemplate
      else if f == Field.HoverText then hoverText == other.hoverText
      else if f == Field.HoverInfo then hoverInfo == other.hoverInfo
      else if f == Field.HoverTemplate then hoverTemplate == other.hoverTemplate
      else if f == Field.XAxis then xAxis == other.xAxis
      else if f == Field.YAxis then yAxis == other.yAxis
      else if f == Field.Orientation then orientation == other.orientation
      else if f == Field.AlignmentGroup then alignmentGroup == other.alignmentGroup
      else if f == Field.OffsetGroup then offsetGroup == other.offsetGroup
      else if f == Field.Marker then marker == other.marker
      else if f == Field.TextAngle then textAngle == other.textAngle
      else if f == Field.TextFont then textFont == other.textFont
      else if f == Field.ErrorX then errorX == other.errorX
      else if f == Field.ErrorY then errorY == other.errorY
      else if f == Field.ClipOnAxis then clipOnAxis == other.clipOnAxis
      else if f == Field.ConstrainText then constrainText == other.constrainText
      else if f == Field.HoverLabel then hoverLabel == other.hoverLabel
      else if f == Field.InsideTextAnchor then insideTextAnchor == other.insideTextAnchor
      else if f == Field.InsideTextFont then insideTextFont == other.insideTextFont
      else if f == Field.OutsideTextFont then outsideTextFont == other.outsideTextFont
      else if f == Field.XCalendar then xCalendar == other.xCalendar
      else yCalendar == other.yCalendar
    }

    /** `other` agrees with `this` on every attribute except possibly `f`. */
    ghost predicate OnlyChanges(other: Bar<X, Y>, f: Field)
    {
      forall g: Field :: g != f ==> SameAt(other, g)
    }

    /** The JSON value written for attribute `f`, or None when `f` is absent. */
    function Slot(f: Field, enc: Codec<X, Y>): (v: Option<Json.Value>)
      ensures v.Some? <==> Has(f)
    {
      if f == Field.Type then Some(Json.Str(C.TypeName(kind)))
      else if f == Field.X then Encode(x, ArrayOf(enc.x))
      else if f == Field.Y then Encode(y, ArrayOf(enc.y))
      else if f == Field.Name then Encode(name, Json.StrOf)
      else if f == Field.Visible then Encode(visible, enc.visible)
      else if f == Field.ShowLegend then Encode(showLegend, BoolOf)
      else if f == Field.LegendGroup then Encode(legendGroup, Json.StrOf)
      else if f == Field.Opacity then Encode(opacity, enc.float)
      else if f == Field.Ids then Encode(ids, ArrayOf(Json.StrOf))
      else if f == Field.Width then Encode(width, C.NumberOf)
      else if f == Field.Offset then Encode(offset, DimOf(C.NumberOf))
      else if f == Field.Text then Encode(text, DimOf(Json.StrOf))
      else if f == Field.TextPosition then Encode(textPosition, DimOf(enc.textPosition))
      else if f == Field.TextTemplate then Encode(textTemplate, DimOf(Json.StrOf))
      else if f == Field.HoverText then Encode(hoverText, DimOf(Json.StrOf))
      else if f == Field.HoverInfo then Encode(hoverInfo, enc.hoverInfo)
      else if f == Field.HoverTemplate then Encode(hoverTemplate, DimOf(Json.StrOf))
      else if f == Field.XAxis then Encode(xAxis, Json.StrOf)
      else if f == Field.YAxis then Encode(yAxis, Json.StrOf)
      else if f == Field.Orientation then Encode(orientation, enc.orientation)
      else if f == Field.AlignmentGroup then Encode(alignmentGroup, Json.StrOf)
      else if f == Field.OffsetGroup then Encode(offsetGroup, Json.StrOf)
      else if f == Field.Marker then Encode(marker, enc.marker)
      else if f == Field.TextAngle then Encode(textAngle, enc.float)
      else if f == Field.TextFont then Encode(textFont, enc.font)
      else if f == Field.ErrorX then Encode(errorX, enc.errorData)
      else if f == Field.ErrorY then Encode(errorY, enc.errorData)
      else if f == Field.ClipOnAxis then Encode(clipOnAxis, BoolOf)
      else if f == Field.ConstrainText then Encode(constrainText, enc.constrainText)
      else if f == Field.HoverLabel then Encode(hoverLabel, enc.hoverLabel)
      else if f == Field.InsideTextAnchor then Encode(insideTextAnchor, enc.textAnchor)
      else if f == Field.InsideTextFont then Encode(insideTextFont, enc.font)
      else if f == Field.OutsideTextFont then Encode(outsideTextFont, enc.font)
      else if f == Field.XCalendar then Encode(xCalendar, enc.calendar)
      else Encode(yCalendar, enc.calendar)
    }

    /** The serialised trace (`to_json`): exactly the set attributes, the type tag always
        among them, each under its wire key. */
    function ToJson(enc: Codec<X, Y>): (doc: map<string, Json.Value>)
      ensures forall f: Field :: WireKey(f) in doc <==> Has(f)
      ensures forall k :: k in doc ==> exists f: Field :: WireKey(f) == k
      ensures forall f: Field :: Has(f) ==> doc[WireKey(f)] == Slot(f, enc).value
    {
      WireKeysDistinct();
      EmitEntries(FieldCount, f => Slot(f, enc), WireKey);
      Emit(FieldCount, f => Slot(f, enc), WireKey)
    }

    /** `Bar::default()`: the bar type tag and nothing else. */
    static function Default(): (b: Bar<X, Y>)
      ensures b.kind == C.PlotType.Bar
      ensures forall f: Field :: f != Field.Type ==> !b.Has(f)
    {
      Bar(C.PlotType.Bar, None, None, None, None, None, None, None, None, None, None, None,
          None, None, None, None, None, None, None, None, None, None, None, None, None, None,
          None, None, None, None, None, None, None, None, None)
    }

    /** `Bar::new(x, y)`: the data sequences set, every other attribute as in `default()`. */
    static function New(x: seq<X>, y: seq<Y>): (b: Bar<X, Y>)
      ensures b.x == Some(x) && b.y == Some(y)
      ensures forall f: Field :: f != Field.X && f != Field.Y ==> b.SameAt(Default(), f)
    {
      Default().(x := Some(x), y := Some(y))
    }

    // The builder setters. Each replaces one attribute with the given value and keeps
    // every other attribute, the type tag included.

    function AlignmentGroup(alignmentGroup: string): (r: Bar<X, Y>)
      ensures r.alignmentGroup == Some(alignmentGroup) && OnlyChanges(r, Field.AlignmentGroup)
    {
      this.(alignmentGroup := Some(alignmentGroup))
    }

    function ClipOnAxis(clipOnAxis: bool): (r: Bar<X, Y>)
      ensures r.clipOnAxis == Some(clipOnAxis) && OnlyChanges(r, Field.ClipOnAxis)
    {
      this.(clipOnAxis := Some(clipOnAxis))
    }

    function ConstrainText(constrainText: C.ConstrainText): (r: Bar<X, Y>)
      ensures r.constrainText == Some(constrainText) && OnlyChanges(r, Field.ConstrainText)
    {
      this.(constrainText := Some(constrainText))
    }

    function ErrorX(errorX: C.ErrorData): (r: Bar<X, Y>)
      ensures r.errorX == Some(errorX) && OnlyChanges(r, Field.ErrorX)
    {
      this.(errorX := Some(errorX))
    }

    function ErrorY(errorY: C.ErrorData): (r: Bar<X, Y>)
      ensures r.errorY == Some(errorY) && OnlyChanges(r, Field.ErrorY)
    {
      this.(errorY := Some(errorY))
    }

    function HoverInfo(hoverInfo: C.HoverInfo): (r: Bar<X, Y>)
      ensures r.hoverInfo == Some(hoverInfo) && OnlyChanges(r, Field.HoverInfo)
    {
      this.(hoverInfo := Some(hoverInfo))
    }

    function HoverLabel(hoverLabel: C.Label): (r: Bar<X, Y>)
      ensures r.hoverLabel == Some(hoverLabel) && OnlyChanges(r, Field.HoverLabel)
    {
      this.(hoverLabel := Some(hoverLabel))
    }

    function HoverTemplate(hoverTemplate: string): (r: Bar<X, Y>)
      ensures r.hoverTemplate == Some(C.Scalar(hoverTemplate)) && OnlyChanges(r, Field.HoverTemplate)
    {
      this.(hoverTemplate := Some(C.Scalar(hoverTemplate)))
    }

    function HoverTemplateArray(hoverTemplate: seq<string>): (r: Bar<X, Y>)
      ensures r.hoverTemplate == Some(C.Vector(hoverTemplate)) && OnlyChanges(r, Field.HoverTemplate)
    {
      this.(hoverTemplate := Some(C.Vector(hoverTemplate)))
    }

    function HoverText(hoverText: string): (r: Bar<X, Y>)
      ensures r.hoverText == Some(C.Scalar(hoverText)) && OnlyChanges(r, Field.HoverText)
    {
      this.(hoverText := Some(C.Scalar(hoverText)))
    }

    function HoverTextArray(hoverText: seq<string>): (r: Bar<X, Y>)
      ensures r.hoverText == Some(C.Vector(hoverText)) && OnlyChanges(r, Field.HoverText)
    {
      this.(hoverText := Some(C.Vector(hoverText)))
    }

    function Ids(ids: seq<string>): (r: Bar<X, Y>)
      ensures r.ids == Some(ids) && OnlyChanges(r, Field.Ids)
    {
      this.(ids := Some(ids))
    }

    function InsideTextAnchor(insideTextAnchor: C.TextAnchor): (r: Bar<X, Y>)
      ensures r.insideTextAnchor == Some(insideTextAnchor) && OnlyChanges(r, Field.InsideTextAnchor)
    {
      this.(insideTextAnchor := Some(insideTextAnchor))
    }

    function InsideTextFont(insideTextFont: C.Font): (r: Bar<X, Y>)
      ensures r.insideTextFont == Some(insideTextFont) && OnlyChanges(r, Field.InsideTextFont)
    {
      this.(insideTextFont := Some(insideTextFont))
    }

    function LegendGroup(legendGroup: string): (r: Bar<X, Y>)
      ensures r.legendGroup == Some(legendGroup) && OnlyChanges(r, Field.LegendGroup)
    {
      this.(legendGroup := Some(legendGroup))
    }

    function Marker(marker: C.Marker): (r: Bar<X, Y>)
      ensures r.marker == Some(marker) && OnlyChanges(r, Field.Marker)
    {
      this.(marker := Some(marker))
    }

    function Name(name: string): (r: Bar<X, Y>)
      ensures r.name == Some(name) && OnlyChanges(r, Field.Name)
    {
      this.(name := Some(name))
    }

    function ShowLegend(showLegend: bool): (r: Bar<X, Y>)
      ensures r.showLegend == Some(showLegend) && OnlyChanges(r, Field.ShowLegend)
    {
      this.(showLegend := Some(showLegend))
    }

    function Text(text: string): (r: Bar<X, Y>)
      ensures r.text == Some(C.Scalar(text)) && OnlyChanges(r, Field.Text)
    {
      this.(text := Some(C.Scalar(text)))
    }

    function TextArray(text: seq<string>): (r: Bar<X, Y>)
      ensures r.text == Some(C.Vector(text)) && OnlyChanges(r, Field.Text)
    {
      this.(text := Some(C.Vector(text)))
    }

    function TextAngle(textAngle: C.F64): (r: Bar<X, Y>)
      ensures r.textAngle == Some(textAngle) && OnlyChanges(r, Field.TextAngle)
    {
      this.(textAngle := Some(textAngle))
    }

    function TextPosition(textPosition: C.TextPosition): (r: Bar<X, Y>)
      ensures r.textPosition == Some(C.Scalar(textPosition)) && OnlyChanges(r, Field.TextPosition)
    {
      this.(textPosition := Some(C.Scalar(textPosition)))
    }

    function TextPositionArray(textPosition: seq<C.TextPosition>): (r: Bar<X, Y>)
      ensures r.textPosition == Some(C.Vector(textPosition)) && OnlyChanges(r, Field.TextPosition)
    {
      this.(textPosition := Some(C.Vector(textPosition)))
    }

    function TextTemplate(textTemplate: string): (r: Bar<X, Y>)
      ensures r.textTemplate == Some(C.Scalar(textTemplate)) && OnlyChanges(r, Field.TextTemplate)
    {
      this.(textTemplate := Some(C.Scalar(textTemplate)))
    }

    function TextTemplateArray(textTemplate: seq<string>): (r: Bar<X, Y>)
      ensures r.textTemplate == Some(C.Vector(textTemplate)) && OnlyChanges(r, Field.TextTemplate)
    {
      this.(textTemplate := Some(C.Vector(textTemplate)))
    }

    function Offset(offset: C.Usize): (r: Bar<X, Y>)
      ensures r.offset == Some(C.Scalar(offset)) && OnlyChanges(r, Field.Offset)
    {
      this.(offset := Some(C.Scalar(offset)))
    }

    function OffsetArray(offset: seq<C.Usize>): (r: Bar<X, Y>)
      ensures r.offset == Some(C.Vector(offset)) && OnlyChanges(r, Field.Offset)
    {
      this.(offset := Some(C.Vector(offset)))
    }

    function OffsetGroup(offsetGroup: string): (r: Bar<X, Y>)
      ensures r.offsetGroup == Some(offsetGroup) && OnlyChanges(r, Field.OffsetGroup)
    {
      this.(offsetGroup := Some(offsetGroup))
    }

    function Opacity(opacity: C.F64): (r: Bar<X, Y>)
      ensures r.opacity == Some(opacity) && OnlyChanges(r, Field.Opacity)
    {
      this.(opacity := Some(opacity))
    }

    function Orientation(orientation: C.Orientation): (r: Bar<X, Y>)
      ensures r.orientation == Some(orientation) && OnlyChanges(r, Field.Orientation)
    {
      this.(orientation := Some(orientation))
    }

    function OutsideTextFont(outsideTextFont: C.Font): (r: Bar<X, Y>)
      ensures r.outsideTextFont == Some(outsideTextFont) && OnlyChanges(r, Field.OutsideTextFont)
    {
      this.(outsideTextFont := Some(outsideTextFont))
    }

    function TextFont(textFont: C.Font): (r: Bar<X, Y>)
      ensures r.textFont == Some(textFont) && OnlyChanges(r, Field.TextFont)
    {
      this.(textFont := Some(textFont))
    }

    function Visible(visible: C.Visible): (r: Bar<X, Y>)
      ensures r.visible == Some(visible) && OnlyChanges(r, Field.Visible)
    {
      this.(visible := Some(visible))
    }

    function Width(width: C.Usize): (r: Bar<X, Y>)
      ensures r.width == Some(width) && OnlyChanges(r, Field.Width)
    {
      this.(width := Some(width))
    }

    function XAxis(axis: string): (r: Bar<X, Y>)
      ensures r.xAxis == Some(axis) && OnlyChanges(r, Field.XAxis)
    {
      this.(xAxis := Some(axis))
    }

    function XCalendar(xCalendar: C.Calendar): (r: Bar<X, Y>)
      ensures r.xCalendar == Some(xCalendar) && OnlyChanges(r, Field.XCalendar)
    {
      this.(xCalendar := Some(xCalendar))
    }

    function YAxis(axis: string): (r: Bar<X, Y>)
      ensures r.yAxis == Some(axis) && OnlyChanges(r, Field.YAxis)
    {
      this.(yAxis := Some(axis))
    }

    function YCalendar(yCalendar: C.Calendar): (r: Bar<X, Y>)
      ensures r.yCalendar == Some(yCalendar) && OnlyChanges(r, Field.YCalendar)
    {
      this.(yCalendar := Some(yCalendar))
    }
  }

  /** A `bool` is written as a JSON boolean. */
  function BoolOf(b: bool): Json.Value
  {
    Json.Bool(b)
  }

  /** The encoder of a `Dim` attribute whose element encoder is `enc`. */
  function DimOf<T>(enc: T -> Json.Value): C.Dim<T> -> Json.Value
  {
    d => C.EncodeDim(d, enc)
  }
}
