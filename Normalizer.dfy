/**
 `_normalize_maas`: maps an upstream record, a JSON object, to the service's own
 schema. Numeric fields go through `to_float`; every other field is copied by
 key lookup; the output always carries the source tag.
 */
module Normalizer {
  import opened Optional
  import opened Json

  /** The constant `source` tag of every normalised record. */
  const SourceTag: string := "curiosity_rems_maas"

  /**
   Python's `float(s)` on a string, left abstract: `Some(x)` when the text
   parses as the number `x`, `None` when `float` raises.
   */
  type FloatParser = string -> Option<real>

  /** Output key and upstream key of every field copied unchanged. */
  const CopiedFields: seq<(string, string)> := [
    ("sol", "sol"),
    ("earth_date", "terrestrial_date"),
    ("season", "season"),
    ("pressure_qual", "pressure_string"),
    ("sunrise_local", "sunrise"),
    ("sunset_local", "sunset"),
    ("uv_index", "local_uv_irradiance_index"),
    ("atmo_opacity", "atmo_opacity")
  ]

  /** Output key (inside `temperature_c`) and upstream key of every temperature. */
  const TemperatureFields: seq<(string, string)> := [
    ("min", "min_temp"),
    ("max", "max_temp"),
    ("min_gts", "min_gts_temp"),
    ("max_gts", "max_gts_temp")
  ]

  /** The keys of a normalised record. */
  const OutputKeys: set<string> := {
    "source", "sol", "earth_date", "season", "temperature_c", "pressure_pa",
    "pressure_qual", "sunrise_local", "sunset_local", "uv_index", "atmo_opacity"
  }

  const TemperatureKeys: set<string> := {"min", "max", "min_gts", "max_gts"}

  /**
   The nested `to_float`: `float(x)`, with every exception turned into None.
   Numbers convert to themselves, booleans to 1.0 / 0.0, strings as the parser
   says; null, lists and objects make `float` raise.
   */
  function ToFloat(x: Json, parse: FloatParser): Option<real> {
    match x
    case JNum(n) => Some(n)
    case JBool(b) => Some(if b then 1.0 else 0.0)
    case JStr(s) => parse(s)
    case _ => None
  }

  /** A parsed number as it appears in the output: null for None. */
  function NumberOrNull(v: Option<real>): Json {
    match v
    case Some(x) => JNum(x)
    case None => JNull
  }

  /** The value of a numeric output field drawn from upstream key `key`. */
  function Numeric(d: map<string, Json>, key: string, parse: FloatParser): Json {
    NumberOrNull(ToFloat(Get(d, key), parse))
  }

  /** The four temperatures of a record, each a JSON value. */
  datatype Temperatures = Temperatures(min: Json, max: Json, minGts: Json, maxGts: Json)

  /** The fields of a normalised record other than the constant source tag. */
  datatype Weather = Weather(
    sol: Json, earthDate: Json, season: Json, temperature: Temperatures, pressurePa: Json,
    pressureQual: Json, sunriseLocal: Json, sunsetLocal: Json, uvIndex: Json, atmoOpacity: Json)

  /**
   The dictionary the handlers return for a record, source tag included. Its
   ensures spell the literal out key by key; they are there so that `Normalize`
   can be checked without unfolding the eleven-key literal.
   */
  function ToJson(w: Weather): (r: Json)
    ensures r.JObj? && r.fields.Keys == OutputKeys
    ensures r.fields["source"] == JStr(SourceTag)
    ensures r.fields["sol"] == w.sol && r.fields["earth_date"] == w.earthDate
    ensures r.fields["season"] == w.season && r.fields["pressure_pa"] == w.pressurePa
    ensures r.fields["pressure_qual"] == w.pressureQual && r.fields["sunrise_local"] == w.sunriseLocal
    ensures r.fields["sunset_local"] == w.sunsetLocal && r.fields["uv_index"] == w.uvIndex
    ensures r.fields["atmo_opacity"] == w.atmoOpacity
    ensures r.fields["temperature_c"].JObj? && r.fields["temperature_c"].fields.Keys == TemperatureKeys
    ensures var t := r.fields["temperature_c"].fields;
            t["min"] == w.temperature.min && t["max"] == w.temperature.max
            && t["min_gts"] == w.temperature.minGts && t["max_gts"] == w.temperature.maxGts
  {
    JObj(map[
      "source" := JStr(SourceTag),
      "sol" := w.sol,
      "earth_date" := w.earthDate,
      "season" := w.season,
      "temperature_c" := JObj(map[
        "min" := w.temperature.min,
        "max" := w.temperature.max,
        "min_gts" := w.temperature.minGts,
        "max_gts" := w.temperature.maxGts
      ]),
      "pressure_pa" := w.pressurePa,
      "pressure_qual" := w.pressureQual,
      "sunrise_local" := w.sunriseLocal,
      "sunset_local" := w.sunsetLocal,
      "uv_index" := w.uvIndex,
      "atmo_opacity" := w.atmoOpacity
    ])
  }

  /** The dictionary keeps every field of the record: distinct records give distinct dictionaries. */
  lemma ToJsonInjective(w: Weather, w': Weather)
    ensures ToJson(w) == ToJson(w') <==> w == w'
  {
  }

  /**
   `_normalize_maas(d)`: total (it never fails), always tagged with the source,
   every copied field is `d.get` of its upstream key and every numeric field is
   `to_float` of its upstream key, null when missing or unparsable.
   */
  function Normalize(d: map<string, Json>, parse: FloatParser): (r: Json)
    ensures r.JObj? && r.fields.Keys == OutputKeys
    ensures r.fields["source"] == JStr(SourceTag)
    ensures forall i :: 0 <= i < |CopiedFields| ==>
              CopiedFields[i].0 in r.fields && r.fields[CopiedFields[i].0] == Get(d, CopiedFields[i].1)
    ensures r.fields["pressure_pa"] == Numeric(d, "pressure", parse)
    ensures r.fields["temperature_c"].JObj?
    ensures r.fields["temperature_c"].fields.Keys == TemperatureKeys
    ensures forall i :: 0 <= i < |TemperatureFields| ==>
              var t := r.fields["temperature_c"].fields;
              TemperatureFields[i].0 in t && t[TemperatureFields[i].0] == Numeric(d, TemperatureFields[i].1, parse)
  {
    ToJson(Weather(
      sol := Get(d, "sol"),
      earthDate := Get(d, "terrestrial_date"),
      season := Get(d, "season"),
      temperature := Temperatures(
        min := Numeric(d, "min_temp", parse),
        max := Numeric(d, "max_temp", parse),
        minGts := Numeric(d, "min_gts_temp", parse),
        maxGts := Numeric(d, "max_gts_temp", parse)),
      pressurePa := Numeric(d, "pressure", parse),
      pressureQual := Get(d, "pressure_string"),
      sunriseLocal := Get(d, "sunrise"),
      sunsetLocal := Get(d, "sunset"),
      uvIndex := Get(d, "local_uv_irradiance_index"),
      atmoOpacity := Get(d, "atmo_opacity")))
  }

  /** The upstream keys `_normalize_maas` reads. */
  const SourceKeys: set<string> := {
    "sol", "terrestrial_date", "season", "min_temp", "max_temp", "min_gts_temp", "max_gts_temp",
    "pressure", "pressure_string", "sunrise", "sunset", "local_uv_irradiance_index", "atmo_opacity"
  }

  /** Upstream fields other than the thirteen it reads do not affect the normalised record. */
  lemma NormalizeReadsOnlySourceKeys(d1: map<string, Json>, d2: map<string, Json>, parse: FloatParser)
    requires forall k :: k in SourceKeys ==> Get(d1, k) == Get(d2, k)
    ensures Normalize(d1, parse) == Normalize(d2, parse)
  {
  }

  /** Every numeric field of a normalised record is a number or null, never a copied string. */
  lemma NormalizeNumericFieldsAreNumbers(d: map<string, Json>, parse: FloatParser)
    ensures var r := Normalize(d, parse);
            && (r.fields["pressure_pa"].JNum? || r.fields["pressure_pa"].JNull?)
            && forall k :: k in TemperatureKeys ==>
                 r.fields["temperature_c"].fields[k].JNum? || r.fields["temperature_c"].fields[k].JNull?
  {
  }

  /** A normalised record is a non-empty dictionary, so Python treats it as true. */
  lemma NormalizeIsTruthy(d: map<string, Json>, parse: FloatParser)
    ensures Truthy(Normalize(d, parse))
  {
  }

  /**
   The coercion example: `{"min_temp": "-70.5", "max_temp": "abc"}`, with a
   parser that reads the first and rejects the second, gives min -70.5, max null,
   and null for every numeric field whose key is missing.
   */
  lemma CoercionExample(parse: FloatParser)
    requires parse("-70.5") == Some(-70.5) && parse("abc") == None
    ensures var t := Normalize(map["min_temp" := JStr("-70.5"), "max_temp" := JStr("abc")], parse)
                       .fields["temperature_c"].fields;
            t["min"] == JNum(-70.5) && t["max"] == JNull && t["min_gts"] == JNull && t["max_gts"] == JNull
  {
  }
}
