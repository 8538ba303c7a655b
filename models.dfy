/**
 Charger model identifiers (evnex/models.py): `ParseModel` splits an id such as "E2C-28VO"
 or "X7-T2SW" on its first '-', reads fixed character positions of the part after it and
 looks each one up in a constant table, keeping the raw key when the table has no entry.
 */
module Models {
  import opened Wrappers

  /** `EvnexModelInfo`; the last three fields are only filled in for the X series. */
  datatype ModelInfo = ModelInfo(
    name: string,
    connector: string,
    cableLength: string,
    colour: string,
    power: string := "N/A",
    powerSensor: string := "N/A",
    configuration: string := "N/A")

  /** The IndexError raised when the part after the '-' is too short for the fixed positions. */
  datatype ParseError = IndexOutOfRange

  const Unknown: ModelInfo := ModelInfo("Unknown", "Unknown", "Unknown", "Unknown")

  const ConnectorMapE2: map<string, string> := map["1" := "Type 1", "2" := "Type 2"]
  const NameMapE2: map<string, string> := map["E2" := "E2 Plus", "E2C" := "E2 Core"]
  const CableMapE2: map<string, string> := map["5" := "5 metres", "8" := "8 metres"]
  const ColourMapE2: map<string, string> :=
    map["SN" := "Snow", "ST" := "Stone", "SA" := "Sand", "VO" := "Volcanic"]
  const PowerMapX: map<string, string> := map["7" := "7 kW", "22" := "22 kW"]
  const PsMapX: map<string, string> := map["T" := "External PS", "P" := "Onboard PS"]
  const ConnectorMapX: map<string, string> := map["1" := "Type 1", "2" := "Type 2"]
  const ConfigMapX: map<string, string> := map["S" := "Socket", "T" := "5m Tether"]
  const ColourMapX: map<string, string> := map["W" := "White", "G" := "Grey"]

  /** `table.get(key, key)`: the entry for `key`, or `key` itself. */
  function Get(table: map<string, string>, key: string): string
  {
    if key in table then table[key] else key
  }

  predicate StartsWith(s: string, prefix: string)
  {
    |prefix| <= |s| && s[..|prefix|] == prefix
  }

  /** `s.split("-", 1)` when it yields two parts: the text before the first '-' and all after it. */
  function SplitFirst(s: string): (r: Option<(string, string)>)
    ensures r.None? <==> '-' !in s
    ensures r.Some? ==> s == r.value.0 + "-" + r.value.1 && '-' !in r.value.0
  {
    if s == [] then None
    else if s[0] == '-' then Some(([], s[1..]))
    else match SplitFirst(s[1..])
      case None => None
      case Some((before, after)) => Some(([s[0]] + before, after))
  }

  /** Splitting a joined id gives back its parts, however many '-' the second part holds. */
  lemma {:induction false} SplitFirstOfJoin(before: string, after: string)
    requires '-' !in before
    ensures SplitFirst(before + "-" + after) == Some((before, after))
  {
    var s := before + "-" + after;
    if before != [] {
      assert s[1..] == before[1..] + "-" + after;
      SplitFirstOfJoin(before[1..], after);
      assert [s[0]] + before[1..] == before;
    } else {
      assert s[1..] == after;
    }
  }

  /** `parse_model`. An E2 id whose part after the '-' is shorter than 2, or an X id whose
      part is shorter than 4, raises IndexError in the source. */
  function ParseModel(modelId: string): (r: Result<ModelInfo, ParseError>)
    ensures r.Failure? <==>
      SplitFirst(modelId).Some? &&
      ((StartsWith(modelId, "E2") && |SplitFirst(modelId).value.1| < 2) ||
       (StartsWith(modelId, "X") && |SplitFirst(modelId).value.1| < 4))
    ensures r.Success? && StartsWith(modelId, "E2") ==>
      r.value.power == "N/A" && r.value.powerSensor == "N/A" && r.value.configuration == "N/A"
    ensures r.Success? && r.value != Unknown && StartsWith(modelId, "X") ==> r.value.cableLength == "N/A"
  {
    if StartsWith(modelId, "E2") then
      match SplitFirst(modelId)
      case None => Success(Unknown)
      case Some((prefix, spec)) =>
        if |spec| < 2 then Failure(IndexOutOfRange)
        else
          Success(ModelInfo(
            Get(NameMapE2, prefix),
            Get(ConnectorMapE2, spec[0..1]),
            Get(CableMapE2, spec[1..2]),
            Get(ColourMapE2, spec[|spec| - 2..])))
    else if StartsWith(modelId, "X") then
      match SplitFirst(modelId)
      case None => Success(Unknown)
      case Some((series, spec)) =>
        if |spec| < 4 then Failure(IndexOutOfRange)
        else
          var powerKey := if series == [] then [] else series[1..];
          Success(ModelInfo(
            name := "X" + powerKey,
            connector := Get(ConnectorMapX, spec[1..2]),
            cableLength := "N/A",
            colour := Get(ColourMapX, spec[3..4]),
            power := Get(PowerMapX, powerKey),
            powerSensor := Get(PsMapX, spec[0..1]),
            configuration := Get(ConfigMapX, spec[2..3])))
    else
      Success(Unknown)
  }

  /** An id of neither series parses to the all-Unknown record. */
  lemma ParseUnknownSeries(modelId: string)
    requires !StartsWith(modelId, "E2") && !StartsWith(modelId, "X")
    ensures ParseModel(modelId) == Success(Unknown)
    ensures Unknown.power == Unknown.powerSensor == Unknown.configuration == "N/A"
  {
  }

  /** An id without any '-' parses to the all-Unknown record, whatever its series. */
  lemma ParseWithoutDash(modelId: string)
    requires '-' !in modelId
    ensures ParseModel(modelId) == Success(Unknown)
  {
  }

  /** The E2 branch, stated over the two parts of the id: the name is looked up from the part
      before the first '-', the connector and cable from the first two characters after it
      and the colour from the last two, each lookup falling back to its raw key. */
  lemma ParseE2(prefix: string, spec: string)
    requires StartsWith(prefix, "E2") && '-' !in prefix && |spec| >= 2
    ensures ParseModel(prefix + "-" + spec) == Success(ModelInfo(
      Get(NameMapE2, prefix),
      Get(ConnectorMapE2, [spec[0]]),
      Get(CableMapE2, [spec[1]]),
      Get(ColourMapE2, spec[|spec| - 2..])))
  {
    var id := prefix + "-" + spec;
    assert id[..2] == prefix[..2];
    SplitFirstOfJoin(prefix, spec);
    assert spec[0..1] == [spec[0]] && spec[1..2] == [spec[1]];
  }

  /** The X branch over the id's two parts: the name is the series, the power rating the
      series without its leading 'X', and the four characters after the '-' give the power
      sensor, connector, configuration and colour. */
  lemma ParseX(series: string, spec: string)
    requires StartsWith(series, "X") && '-' !in series && |spec| >= 4
    ensures ParseModel(series + "-" + spec) == Success(ModelInfo(
      name := series,
      connector := Get(ConnectorMapX, [spec[1]]),
      cableLength := "N/A",
      colour := Get(ColourMapX, [spec[3]]),
      power := Get(PowerMapX, series[1..]),
      powerSensor := Get(PsMapX, [spec[0]]),
      configuration := Get(ConfigMapX, [spec[2]])))
  {
    var id := series + "-" + spec;
    assert id[..1] == series[..1];
    assert id[0] == 'X';
    assert !StartsWith(id, "E2");
    SplitFirstOfJoin(series, spec);
    assert "X" + series[1..] == series;
    assert spec[0..1] == [spec[0]] && spec[1..2] == [spec[1]];
    assert spec[2..3] == [spec[2]] && spec[3..4] == [spec[3]];
  }

  /** The one error: a part after the '-' too short for the positions its series reads. */
  lemma ParseShortSpec(prefix: string, spec: string)
    requires '-' !in prefix
    requires (StartsWith(prefix, "E2") && |spec| < 2) || (StartsWith(prefix, "X") && |spec| < 4)
    ensures ParseModel(prefix + "-" + spec) == Failure(IndexOutOfRange)
  {
    var id := prefix + "-" + spec;
    assert id[..|prefix|] == prefix;
    assert StartsWith(prefix, "E2") ==> id[..2] == prefix[..2];
    assert StartsWith(prefix, "X") ==> id[..1] == prefix[..1];
    SplitFirstOfJoin(prefix, spec);
  }

  lemma ParseE2CoreExample()
    ensures ParseModel("E2C-28VO") == Success(ModelInfo("E2 Core", "Type 2", "8 metres", "Volcanic"))
  {
    assert "E2C-28VO" == "E2C" + "-" + "28VO";
    ParseE2("E2C", "28VO");
  }

  /** Later '-' characters stay in the part after the first one: here the cable key is "2"
      (no table entry, kept raw) and the colour is read from the last two characters. */
  lemma ParseE2LaterDashExample()
    ensures ParseModel("E2-12-SN") == Success(ModelInfo("E2 Plus", "Type 1", "2", "Snow"))
  {
    assert "E2-12-SN" == "E2" + "-" + "12-SN";
    ParseE2("E2", "12-SN");
  }

  lemma ParseXExample()
    ensures ParseModel("X7-T2SW") == Success(ModelInfo(
      "X7", "Type 2", "N/A", "White", "7 kW", "External PS", "Socket"))
  {
    assert "X7-T2SW" == "X7" + "-" + "T2SW";
    ParseX("X7", "T2SW");
  }
}
