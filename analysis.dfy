/** The shape of the image analyser's answer (geminiService.ts). The remote
    call itself is not modelled; what is modelled is the JSON value it is
    asked to return and how that value becomes the dialog's result. */
module Analysis {
  import opened Types

  /** What the dialog stores after a successful analysis. */
  datatype AnalysisResult = AnalysisResult(foodName: string, nutrients: NutrientInfo)

  /** A parsed JSON value, as far as the response needs it. */
  datatype Json = JNumber(n: real) | JString(s: string) | JObject(fields: map<string, Json>)

  /** The response schema: one flat object with exactly the six required
      properties, the name a string and the five quantities numbers. The
      schema is read as closed: an answer with any further property does
      not conform. */
  predicate ConformsToSchema(j: Json): (b: bool)
    ensures b ==> j.JObject? && |j.fields| == 6
  {
    j.JObject? &&
    j.fields.Keys == {"foodName", "calories", "protein", "fat", "carbs", "weight"} &&
    j.fields["foodName"].JString? &&
    j.fields["calories"].JNumber? && j.fields["protein"].JNumber? &&
    j.fields["fat"].JNumber? && j.fields["carbs"].JNumber? &&
    j.fields["weight"].JNumber?
  }

  /** As written, the parsed value is used as `{ foodName, nutrients }`, and
      the dialog and the session read `result.nutrients.<field>`: this is
      what that read finds (None: the property is undefined). */
  function NutrientsAsWritten(j: Json): (r: Option<NutrientInfo>)
    ensures r.Some? ==> j.JObject? && "nutrients" in j.fields && j.fields["nutrients"].JObject?
  {
    if j.JObject? && "nutrients" in j.fields then
      var n := j.fields["nutrients"];
      if n.JObject? && "calories" in n.fields && n.fields["calories"].JNumber?
         && "protein" in n.fields && n.fields["protein"].JNumber?
         && "fat" in n.fields && n.fields["fat"].JNumber?
         && "carbs" in n.fields && n.fields["carbs"].JNumber?
         && "weight" in n.fields && n.fields["weight"].JNumber?
      then Some(NutrientInfo(n.fields["calories"].n, n.fields["protein"].n, n.fields["fat"].n,
                             n.fields["carbs"].n, n.fields["weight"].n))
      else None
    else None
  }

  /** The nested shape the callers expect: the name beside a `nutrients`
      object holding the five quantities. */
  function NestedJson(r: AnalysisResult): Json
  {
    JObject(map[
      "foodName" := JString(r.foodName),
      "nutrients" := JObject(map[
        "calories" := JNumber(r.nutrients.calories),
        "protein" := JNumber(r.nutrients.protein),
        "fat" := JNumber(r.nutrients.fat),
        "carbs" := JNumber(r.nutrients.carbs),
        "weight" := JNumber(r.nutrients.weight)])])
  }

  /** The reads as written do work on the nested shape, which the schema
      does not ask for: such an answer does not conform. */
  lemma NestedAnswerIsRead(r: AnalysisResult)
    ensures NutrientsAsWritten(NestedJson(r)) == Some(r.nutrients)
    ensures !ConformsToSchema(NestedJson(r))
  {
  }

  /** Every answer that follows the schema lacks the `nutrients` property
      the callers read, so the nested read is undefined. */
  lemma SchemaResponseHasNoNutrients(j: Json)
    requires ConformsToSchema(j)
    ensures NutrientsAsWritten(j) == None
  {
  }

  /** The schema's flat encoding of a result. */
  function ToJson(r: AnalysisResult): (j: Json)
    ensures ConformsToSchema(j)
  {
    JObject(map[
      "foodName" := JString(r.foodName),
      "calories" := JNumber(r.nutrients.calories),
      "protein" := JNumber(r.nutrients.protein),
      "fat" := JNumber(r.nutrients.fat),
      "carbs" := JNumber(r.nutrients.carbs),
      "weight" := JNumber(r.nutrients.weight)])
  }

  /** Corrected reading of the answer: the five flat quantities are nested
      under `nutrients`; an answer outside the schema is an analysis failure. */
  function FromJson(j: Json): (r: Option<AnalysisResult>)
    ensures r.Some? <==> ConformsToSchema(j)
  {
    if ConformsToSchema(j) then
      Some(AnalysisResult(j.fields["foodName"].s,
        NutrientInfo(j.fields["calories"].n, j.fields["protein"].n, j.fields["fat"].n,
                     j.fields["carbs"].n, j.fields["weight"].n)))
    else None
  }

  /** Reading back a result's encoding gives that result. */
  lemma FromJsonToJson(r: AnalysisResult)
    ensures FromJson(ToJson(r)) == Some(r)
  {
  }

  /** Every schema answer is the encoding of the result read from it: no
      property of the answer is lost. */
  lemma ToJsonFromJson(j: Json)
    requires ConformsToSchema(j)
    ensures FromJson(j).Some? && ToJson(FromJson(j).value) == j
  {
  }

  /** A worked answer: grilled chicken breast, 250 kcal, 40 g protein,
      8 g fat, 2 g carbs, 150 g. As written the nested read finds nothing;
      the corrected reading gives the intended result. */
  lemma ChickenBreastExample()
    ensures var j := ToJson(AnalysisResult("烤鸡胸肉", NutrientInfo(250.0, 40.0, 8.0, 2.0, 150.0)));
            ConformsToSchema(j) && NutrientsAsWritten(j) == None &&
            FromJson(j) == Some(AnalysisResult("烤鸡胸肉", NutrientInfo(250.0, 40.0, 8.0, 2.0, 150.0)))
  {
  }
}
