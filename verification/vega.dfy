/**
 * The chart tool `generate_vega_spec`: a pure builder of a fixed-shape
 * Vega-Lite v5 specification.
 */
module Vega {
  import opened Wrappers
  import opened Json

  /** The `$schema` URL every specification carries. */
  const SchemaUrl := "https://vega.github.io/schema/vega-lite/v5.json"

  /** The mark used when the caller gives none. */
  const DefaultMark := Str("bar")

  /**
   * Builds the specification. Every argument is echoed unchanged (Python does not
   * check the declared `str` types), `colorField` is accepted and ignored, and both
   * axes are encoded as "quantitative" unless the mark is the string "text".
   */
  function GenerateVegaSpec(question: Value, dataUrl: Value, markType: Value,
                            xField: Value, yField: Value, colorField: Value): (spec: Value)
    ensures spec.Obj? && spec.fields.Keys == {"$schema", "description", "data", "mark", "encoding"}
  {
    Obj(map[
      "$schema" := Str(SchemaUrl),
      "description" := question,
      "data" := Obj(map["url" := dataUrl]),
      "mark" := markType,
      "encoding" := Obj(map[
        "x" := Obj(map["field" := xField, "type" := if markType != Str("text") then Str("quantitative") else Str("ordinal")]),
        "y" := Obj(map["field" := yField, "type" := if markType != Str("text") then Str("quantitative") else Str("ordinal")])
      ])
    ])
  }

  /** Both axes are "ordinal" exactly when the mark is "text", and "quantitative" for every other mark. */
  lemma AxisTypeFollowsMark(question: Value, dataUrl: Value, markType: Value,
                            xField: Value, yField: Value, colorField: Value)
    ensures var spec := GenerateVegaSpec(question, dataUrl, markType, xField, yField, colorField);
      && (At(spec, ["encoding", "x", "type"]) == Some(Str("ordinal")) <==> markType == Str("text"))
      && (At(spec, ["encoding", "y", "type"]) == Some(Str("ordinal")) <==> markType == Str("text"))
      && (At(spec, ["encoding", "x", "type"]) == Some(Str("quantitative")) <==> markType != Str("text"))
      && (At(spec, ["encoding", "y", "type"]) == Some(Str("quantitative")) <==> markType != Str("text"))
  {
    var spec := GenerateVegaSpec(question, dataUrl, markType, xField, yField, colorField);
    var encoding := spec.fields["encoding"];
    assert At(spec, ["encoding", "x", "type"]) == At(encoding, ["x", "type"]);
    assert At(spec, ["encoding", "y", "type"]) == At(encoding, ["y", "type"]);
    assert At(encoding, ["x", "type"]) == At(encoding.fields["x"], ["type"]);
    assert At(encoding, ["y", "type"]) == At(encoding.fields["y"], ["type"]);
  }

  /**
   * The specification carries the question as its description, the data URL, the mark,
   * and the two axis fields, each exactly as given; the encoding has an x and a y axis and no other channel.
   */
  lemma SpecEchoesInputs(question: Value, dataUrl: Value, markType: Value,
                         xField: Value, yField: Value, colorField: Value)
    ensures var spec := GenerateVegaSpec(question, dataUrl, markType, xField, yField, colorField);
      && At(spec, ["$schema"]) == Some(Str(SchemaUrl))
      && At(spec, ["description"]) == Some(question)
      && At(spec, ["data", "url"]) == Some(dataUrl)
      && At(spec, ["mark"]) == Some(markType)
      && At(spec, ["encoding", "x", "field"]) == Some(xField)
      && At(spec, ["encoding", "y", "field"]) == Some(yField)
      && spec.fields["encoding"].Obj? && spec.fields["encoding"].fields.Keys == {"x", "y"}
  {
    var spec := GenerateVegaSpec(question, dataUrl, markType, xField, yField, colorField);
    var encoding := spec.fields["encoding"];
    assert At(spec, ["data", "url"]) == At(spec.fields["data"], ["url"]);
    assert At(spec, ["encoding", "x", "field"]) == At(encoding, ["x", "field"]);
    assert At(spec, ["encoding", "y", "field"]) == At(encoding, ["y", "field"]);
    assert At(encoding, ["x", "field"]) == At(encoding.fields["x"], ["field"]);
    assert At(encoding, ["y", "field"]) == At(encoding.fields["y"], ["field"]);
  }

  /** The colour field never influences the specification. */
  lemma ColorFieldIgnored(question: Value, dataUrl: Value, markType: Value,
                          xField: Value, yField: Value, color1: Value, color2: Value)
    ensures GenerateVegaSpec(question, dataUrl, markType, xField, yField, color1)
         == GenerateVegaSpec(question, dataUrl, markType, xField, yField, color2)
  {
  }
}
