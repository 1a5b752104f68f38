/** The types the bar trace takes from the crate's `common` module. Their definitions are
    not part of this model: each is an abstract type here, and its JSON encoding is supplied
    to the serialiser as a parameter (see BarTrace.Codec). */
module Common {
  import opened Wrappers
  import Json

  /** A 64-bit IEEE float (`f64`), carried through unchanged. */
  type F64

  type Visible
  type HoverInfo
  type TextPosition
  type Orientation
  type Marker
  type Font
  type ErrorData
  type Label
  type ConstrainText
  type TextAnchor
  type Calendar

  /** Rust's `usize` on a 64-bit target. */
  newtype Usize = n: int | 0 <= n < 0x1_0000_0000_0000_0000

  /** The trace-type discriminant. Only the variant used by the bar trace is modelled. */
  datatype PlotType = Bar

  /** The wire name of a trace type, written under the key "type". The name identifies the
      trace type. */
  function TypeName(t: PlotType): (name: string)
    ensures PlotTypeOf(name) == Some(t)
  {
    match t
    case Bar => "bar"
  }

  /** The trace type a wire name stands for, if any: the inverse of `TypeName`. */
  function PlotTypeOf(name: string): Option<PlotType>
  {
    if name == "bar" then Some(Bar) else None
  }

  /** An attribute given either once for the whole trace or once per data point. */
  datatype Dim<T> = Scalar(value: T) | Vector(values: seq<T>)

  /** A `Dim` is written untagged: a scalar as the bare value, a vector as an array. */
  function EncodeDim<T>(d: Dim<T>, enc: T -> Json.Value): (v: Json.Value)
    ensures d.Scalar? ==> v == enc(d.value)
    ensures d.Vector? ==> v.Array? && |v.items| == |d.values|
    ensures d.Vector? ==> forall i :: 0 <= i < |d.values| ==> v.items[i] == enc(d.values[i])
  {
    match d
    case Scalar(v) => enc(v)
    case Vector(vs) => Json.Array(Json.Elements(vs, enc))
  }

  /** A `usize` is written as a JSON number. */
  function NumberOf(n: Usize): Json.Value
  {
    Json.Number(n as int)
  }
}
