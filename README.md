# Bar trace of plotly (Rust) in Dafny

This project models the bar trace of the `plotly` crate (`plotly/src/traces/bar.rs`). A bar
trace is a record with a fixed type tag (`"type": "bar"`) and 34 optional attributes. It is
built with `Bar::default()` or `Bar::new(x, y)` and then refined by a fluent builder: each
setter takes the trace by value, replaces one attribute with `Some(value)` and hands the trace
back. The derived serialiser writes the trace as a JSON object. Absent attributes are skipped.
Every present attribute is written under its wire key, which is the field name or its
`#[serde(rename = …)]`.

The model has these modules:

- `Wrappers`: `Option`, the optional value that every attribute holds.
- `Json`: JSON values, of five kinds: booleans, integers, strings, arrays and objects.
  It has no `null` and no fractional numbers (see "## Left out"). An object is a
  `map<string, Json.Value>`, so key order does not matter, as when two `serde_json::Value`
  objects are compared.
- `Common`: the types the trace takes from the crate's `common` module.
  - The enums and sub-objects are abstract types.
  - `Dim` is a scalar or an array of values, and `EncodeDim` is its untagged encoding.
  - `PlotType` holds only `Bar`.
  - `Usize` is the 64-bit `usize`.
- `BarTrace`: the record and its operations.
  - `Field` is the list of the 35 record fields in declaration order.
  - `WireKey` is the rename table and `FieldOf` is its inverse.
  - `Bar` is the record, with `Default`, `New`, the 38 setters and `ToJson`.
  - `ToJson` is defined as the derived serialiser's walk over the fields (`Emit`).
- `BarProperties`: what serialisation produces.
  - the set of keys;
  - the two constructors;
  - the effect of changing one attribute (`UpdateToJson`);
  - the complete object for a trace with every attribute set.
- `BarSetters`: for every setter, the exact change it makes to the serialised object, and
  the last-writer-wins behaviour of successive calls.
- `BarExamples`: the documented example and the serialisation test `test_serialize_bar`, as lemmas. The other unit test, `test_default_bar`, is `BarProperties.DefaultToJson`.

The encodings of the `common` types are not part of this model: `plotly/src/common/mod.rs`
is not part of this model. They reach the serialiser through a `Codec` record of encoder
functions. Every serialisation result therefore holds for every choice of those encodings.

## Model

| member | source | states |
|---|---|---|
| BarTrace.WireKeysDistinct | plotly/src/traces/bar.rs:42-97 | no two fields share a wire key, so serialisation never writes two attributes under one key |
| BarTrace.WireKey | plotly/src/traces/bar.rs:42-97 | the rename table: each field's wire key is its `#[serde(rename)]` or else its own name, and the reverse table `FieldOf` maps every wire key back to its field |
| BarTrace.Emit | plotly/src/traces/bar.rs:35-98 | the derived serialiser's walk over the fields in declaration order, writing at most one entry per visited field (what it writes exactly is `EmitEntries`) |
| BarTrace.EmitEntries | plotly/src/traces/bar.rs:35-98 | the serialiser's walk over the fields, with distinct keys, writes exactly one entry per present field, under that field's key and holding that field's encoding, and nothing else |
| BarTrace.Bar.Has | plotly/src/traces/bar.rs:35-97 | an attribute is present when its `Option` is `Some` (`skip_serializing_none`); the type tag, which is not an `Option`, is always present |
| BarTrace.Bar.Slot | plotly/src/traces/bar.rs:35-97 | an attribute has an encoding exactly when it is present (`skip_serializing_none`); the type tag is always present |
| Common.TypeName | plotly/src/traces/bar.rs:42 | the `type` tag's wire name, which identifies the trace type: reading it back with `PlotTypeOf` gives the bar variant, the `"bar"` the tests expect at lines 373 and 421 |
| Common.EncodeDim | plotly/src/traces/bar.rs:54-65 | a `Dim` attribute is written untagged: a scalar as its own encoding, a vector as an array of the same length holding each element's encoding, as the test expects at lines 423 and 433 |
| BarTrace.Bar.ToJson | plotly/src/traces/bar.rs:35-98 | serialisation (`to_json` at lines 358-360) writes a key exactly for each present attribute, writes only wire keys, and writes each attribute's encoding under its own key |
| BarTrace.Bar.Default | plotly/src/traces/bar.rs:100-143 | `default()` has the `bar` type tag and no other attribute |
| BarTrace.Bar.New | plotly/src/traces/bar.rs:151-157 | `new(x, y)` sets `x` and `y` and agrees with `default()` on every other field |
| BarTrace.Bar.AlignmentGroup | plotly/src/traces/bar.rs:159-162 | sets `alignment_group` to its argument and leaves every other attribute, the type tag included, unchanged |
| BarTrace.Bar.ClipOnAxis | plotly/src/traces/bar.rs:164-167 | sets `clip_on_axis` to its argument and leaves every other attribute, the type tag included, unchanged |
| BarTrace.Bar.ConstrainText | plotly/src/traces/bar.rs:169-172 | sets `constrain_text` to its argument and leaves every other attribute, the type tag included, unchanged |
| BarTrace.Bar.ErrorX | plotly/src/traces/bar.rs:174-177 | sets `error_x` to its argument and leaves every other attribute, the type tag included, unchanged |
| BarTrace.Bar.ErrorY | plotly/src/traces/bar.rs:179-182 | sets `error_y` to its argument and leaves every other attribute, the type tag included, unchanged |
| BarTrace.Bar.HoverInfo | plotly/src/traces/bar.rs:184-187 | sets `hover_info` to its argument and leaves every other attribute, the type tag included, unchanged |
| BarTrace.Bar.HoverLabel | plotly/src/traces/bar.rs:189-192 | sets `hover_label` to its argument and leaves every other attribute, the type tag included, unchanged |
| BarTrace.Bar.HoverTemplate | plotly/src/traces/bar.rs:194-197 | sets `hover_template` to the scalar form of its argument and leaves every other attribute, the type tag included, unchanged |
| BarTrace.Bar.HoverTemplateArray | plotly/src/traces/bar.rs:199-203 | sets `hover_template` to the array form of its argument (the attribute its scalar setter also writes) and leaves every other attribute, the type tag included, unchanged |
| BarTrace.Bar.HoverText | plotly/src/traces/bar.rs:205-208 | sets `hover_text` to the scalar form of its argument and leaves every other attribute, the type tag included, unchanged |
| BarTrace.Bar.HoverTextArray | plotly/src/traces/bar.rs:210-214 | sets `hover_text` to the array form of its argument (the attribute its scalar setter also writes) and leaves every other attribute, the type tag included, unchanged |
| BarTrace.Bar.Ids | plotly/src/traces/bar.rs:216-220 | sets `ids` to its argument and leaves every other attribute, the type tag included, unchanged |
| BarTrace.Bar.InsideTextAnchor | plotly/src/traces/bar.rs:222-225 | sets `inside_text_anchor` to its argument and leaves every other attribute, the type tag included, unchanged |
| BarTrace.Bar.InsideTextFont | plotly/src/traces/bar.rs:227-230 | sets `inside_text_font` to its argument and leaves every other attribute, the type tag included, unchanged |
| BarTrace.Bar.LegendGroup | plotly/src/traces/bar.rs:232-235 | sets `legend_group` to its argument and leaves every other attribute, the type tag included, unchanged |
| BarTrace.Bar.Marker | plotly/src/traces/bar.rs:237-240 | sets `marker` to its argument and leaves every other attribute, the type tag included, unchanged |
| BarTrace.Bar.Name | plotly/src/traces/bar.rs:242-245 | sets `name` to its argument and leaves every other attribute, the type tag included, unchanged |
| BarTrace.Bar.ShowLegend | plotly/src/traces/bar.rs:246-249 | sets `show_legend` to its argument and leaves every other attribute, the type tag included, unchanged |
| BarTrace.Bar.Text | plotly/src/traces/bar.rs:251-254 | sets `text` to the scalar form of its argument and leaves every other attribute, the type tag included, unchanged |
| BarTrace.Bar.TextArray | plotly/src/traces/bar.rs:256-260 | sets `text` to the array form of its argument (the attribute its scalar setter also writes) and leaves every other attribute, the type tag included, unchanged |
| BarTrace.Bar.TextAngle | plotly/src/traces/bar.rs:262-265 | sets `text_angle` to its argument and leaves every other attribute, the type tag included, unchanged |
| BarTrace.Bar.TextPosition | plotly/src/traces/bar.rs:267-270 | sets `text_position` to the scalar form of its argument and leaves every other attribute, the type tag included, unchanged |
| BarTrace.Bar.TextPositionArray | plotly/src/traces/bar.rs:272-275 | sets `text_position` to the array form of its argument (the attribute its scalar setter also writes) and leaves every other attribute, the type tag included, unchanged |
| BarTrace.Bar.TextTemplate | plotly/src/traces/bar.rs:277-280 | sets `text_template` to the scalar form of its argument and leaves every other attribute, the type tag included, unchanged |
| BarTrace.Bar.TextTemplateArray | plotly/src/traces/bar.rs:282-286 | sets `text_template` to the array form of its argument (the attribute its scalar setter also writes) and leaves every other attribute, the type tag included, unchanged |
| BarTrace.Bar.Offset | plotly/src/traces/bar.rs:288-291 | sets `offset` to the scalar form of its argument and leaves every other attribute, the type tag included, unchanged |
| BarTrace.Bar.OffsetArray | plotly/src/traces/bar.rs:293-296 | sets `offset` to the array form of its argument (the attribute its scalar setter also writes) and leaves every other attribute, the type tag included, unchanged |
| BarTrace.Bar.OffsetGroup | plotly/src/traces/bar.rs:298-301 | sets `offset_group` to its argument and leaves every other attribute, the type tag included, unchanged |
| BarTrace.Bar.Opacity | plotly/src/traces/bar.rs:303-306 | sets `opacity` to its argument and leaves every other attribute, the type tag included, unchanged |
| BarTrace.Bar.Orientation | plotly/src/traces/bar.rs:308-311 | sets `orientation` to its argument and leaves every other attribute, the type tag included, unchanged |
| BarTrace.Bar.OutsideTextFont | plotly/src/traces/bar.rs:313-316 | sets `outside_text_font` to its argument and leaves every other attribute, the type tag included, unchanged |
| BarTrace.Bar.TextFont | plotly/src/traces/bar.rs:318-321 | sets `text_font` to its argument and leaves every other attribute, the type tag included, unchanged |
| BarTrace.Bar.Visible | plotly/src/traces/bar.rs:323-326 | sets `visible` to its argument and leaves every other attribute, the type tag included, unchanged |
| BarTrace.Bar.Width | plotly/src/traces/bar.rs:328-331 | sets `width` to its argument and leaves every other attribute, the type tag included, unchanged |
| BarTrace.Bar.XAxis | plotly/src/traces/bar.rs:333-336 | sets `x_axis` to its argument and leaves every other attribute, the type tag included, unchanged |
| BarTrace.Bar.XCalendar | plotly/src/traces/bar.rs:338-341 | sets `x_calendar` to its argument and leaves every other attribute, the type tag included, unchanged |
| BarTrace.Bar.YAxis | plotly/src/traces/bar.rs:342-345 | sets `y_axis` to its argument and leaves every other attribute, the type tag included, unchanged |
| BarTrace.Bar.YCalendar | plotly/src/traces/bar.rs:347-350 | sets `y_calendar` to its argument and leaves every other attribute, the type tag included, unchanged |
| BarProperties.ToJsonKeys | plotly/src/traces/bar.rs:35-98 | the keys of the serialised object are exactly the wire keys of the present attributes |
| BarProperties.DefaultToJson | plotly/src/traces/bar.rs:370-376 | `Bar::default()` serialises to `{"type": "bar"}` |
| BarProperties.NewToJson | plotly/src/traces/bar.rs:151-157 | `Bar::new(x, y)` serialises to the type tag and the arrays `x` and `y`, nothing else |
| BarProperties.EmitAgrees | plotly/src/traces/bar.rs:35-98 | the serialiser's walk depends only on the encodings of the fields it has visited |
| BarProperties.EmitUpdate | plotly/src/traces/bar.rs:35-98 | giving one visited field a present value changes the walk's object at that field's key only, whatever the field held before |
| BarProperties.UpdateToJson | plotly/src/traces/bar.rs:35-98 | when two traces differ only in one attribute, and that attribute is present in the second, their serialisations differ only at its wire key, which holds the new encoding |
| BarProperties.AllSetToJson | plotly/src/traces/bar.rs:42-97 | a trace with every attribute present serialises to an object with all 35 keys of the rename table, each holding its attribute's encoding |
| BarProperties.EmitAll | plotly/src/traces/bar.rs:35-98 | with every field present, the walk writes all 35 fields in declaration order |
| BarSetters.StringSettersToJson | plotly/src/traces/bar.rs:159-162 | `alignment_group` (and `name`, `legend_group`, `x_axis`, `y_axis` and `offset_group` at lines 242-245, 232-235, 333-336, 342-345 and 298-301) adds or replaces exactly one JSON string under its wire key |
| BarSetters.NumericSettersToJson | plotly/src/traces/bar.rs:246-249 | `show_legend` and `clip_on_axis` write a JSON boolean; `width` writes a number; `opacity` and `text_angle` write their float. Each changes only its own key |
| BarSetters.IdsToJson | plotly/src/traces/bar.rs:216-220 | `ids` writes its strings as a JSON array under `ids` and changes nothing else |
| BarSetters.EnumSettersToJson | plotly/src/traces/bar.rs:323-326 | `visible` (and `hover_info`, `orientation`, `constrain_text` and `inside_text_anchor`) writes its argument's encoding under its own key only |
| BarSetters.CalendarSettersToJson | plotly/src/traces/bar.rs:338-350 | `x_calendar` and `y_calendar` share an encoding but write it under different keys |
| BarSetters.NestedSettersToJson | plotly/src/traces/bar.rs:237-240 | `marker` (and the three font setters, `error_x`, `error_y` and `hover_label`) writes the sub-object's encoding under its own key only |
| BarSetters.StringSettersLastWins | plotly/src/traces/bar.rs:242-245 | a second call of a string setter, or of `ids`, overrides the first; with equal values the setter is idempotent |
| BarSetters.NumericSettersLastWins | plotly/src/traces/bar.rs:328-331 | a second call of `show_legend`, `clip_on_axis`, `width`, `opacity` or `text_angle` overrides the first |
| BarSetters.EnumSettersLastWins | plotly/src/traces/bar.rs:308-311 | a second call of an enum or calendar setter overrides the first |
| BarSetters.NestedSettersLastWins | plotly/src/traces/bar.rs:318-321 | a second call of a sub-object setter overrides the first |
| BarSetters.OffsetSettersToJson | plotly/src/traces/bar.rs:288-296 | `offset` writes a bare number and `offset_array` an array under the same key `offset`; whichever of the two is called last wins |
| BarSetters.TextSettersToJson | plotly/src/traces/bar.rs:251-260 | `text` and `text_array` share the slot `text`, scalar or array; the last call wins |
| BarSetters.TextPositionSettersToJson | plotly/src/traces/bar.rs:267-275 | `text_position` and `text_position_array` share the slot `textposition`; the last call wins |
| BarSetters.TextTemplateSettersToJson | plotly/src/traces/bar.rs:277-286 | `text_template` and `text_template_array` share the slot `texttemplate`; the last call wins |
| BarSetters.HoverTextSettersToJson | plotly/src/traces/bar.rs:205-214 | `hover_text` and `hover_text_array` share the slot `hovertext`; the last call wins |
| BarSetters.HoverTemplateSettersToJson | plotly/src/traces/bar.rs:194-203 | `hover_template` and `hover_template_array` share the slot `hovertemplate`; the last call wins |
| BarSetters.OffsetArrayAfterScalar | plotly/src/traces/bar.rs:398-399 | `offset(5).offset_array(vec![5, 5])` serialises `offset` as `[5, 5]` |
| BarExamples.DocumentedExample | plotly/src/traces/bar.rs:17-33 | `Bar::new(x, y).show_legend(true).opacity(0.5)` serialises to exactly the type tag, `x`, `y`, `showlegend: true` and `opacity` |
| BarExamples.TestChainBuilds | plotly/src/traces/bar.rs:380-418 | the test's builder chain of all 38 setters builds a trace with every attribute present, each `Dim` attribute holding the array given last |
| BarExamples.TestTraceToJson | plotly/src/traces/bar.rs:419-456 | that trace serialises to the 35-key object the test expects |
| BarExamples.SerializeBarExample | plotly/src/traces/bar.rs:378-459 | `test_serialize_bar`: the full builder chain serialises to the expected object |

## Left out

- Text output: `to_json` returns a JSON string. The model returns the JSON value (`serde_json::to_value`), so key order and whitespace are not modelled.
- `common` types: the enums and sub-objects (`Visible`, `HoverInfo`, `Marker`, `Font`, `ErrorData`, `Label`, …) are abstract. Their encodings are parameters, so the test's concrete strings (`"all"`, `"legendonly"`, `{"type": "constant"}`, `{}`, …) are not checked; any encoding is allowed for them.
- `f64`: an abstract `F64` with an abstract encoder. No arithmetic is done on it.
- JSON values: `Json.Value` has no `null` and no non-integer number, unlike `serde_json::Value`. So the concrete encodings of `opacity` and `text_angle` (0.5 and 0.05 in the examples) cannot be written, and neither can serde_json's `null` for a present non-finite float (`Some(f64::NAN)` or an infinity is written as `"opacity": null`). Floats reach the object only through the abstract `F64` encoder.
- `Dim`: its untagged encoding (scalar bare, vector as array) is written out here, because the `common` module is not part of this model. It agrees with what the test expects.
- `PlotType`: only its `Bar` variant is modelled.
- Ownership and borrowing are not modelled: `Box<Self>` returns, `&str` to `String` conversions and string-vector conversions are all the identity. The `Serialize + Clone` bounds on `X` and `Y` become an encoder for each.
- `Trace`: the trait implementation is not modelled. `to_json` is `Bar.ToJson`.
- `usize`: values are the range of a 64-bit target. Nothing in the trace computes with them.
