/**
  The one externally contracted shape of the service, `AnalysisReport`:
  four top-level sections (`soft_skills`, `integrity`,
  `quantitative_scores`, `summary`), each a dictionary. Parsed model output
  is a JSON value; building the report from it (`AnalysisReport(**analysis)`)
  succeeds only when the value is an object carrying all four sections as
  objects, keeps those four and drops every other key.
*/
module Report {
  import opened Wrappers

  /** A parsed JSON value. Numbers are kept as their literal text. */
  datatype Json =
    | JNull
    | JBool(b: bool)
    | JNumber(literal: string)
    | JString(s: string)
    | JArray(items: seq<Json>)
    | JObject(fields: map<string, Json>)

  /** The declared sections of the report, in declaration order. */
  const SectionNames: seq<string> := ["soft_skills", "integrity", "quantitative_scores", "summary"]

  datatype AnalysisReport = AnalysisReport(
    softSkills: map<string, Json>,
    integrity: map<string, Json>,
    quantitativeScores: map<string, Json>,
    summary: map<string, Json>)

  /** Why a parsed value is not a report. */
  datatype SchemaError =
    | NotAMapping                          // the value is not an object, so it cannot be unpacked into keyword arguments
    | InvalidSections(sections: seq<string>) // the sections that are missing or are not objects

  /** `name` is present in `fields` and holds an object. */
  predicate IsDictSection(fields: map<string, Json>, name: string) {
    name in fields && fields[name].JObject?
  }

  /** An object that carries every section as an object. */
  predicate IsReportShaped(j: Json) {
    j.JObject? && forall name | name in SectionNames :: IsDictSection(j.fields, name)
  }

  /** The entries of `fields` whose keys are section names. */
  function SectionsOf(fields: map<string, Json>): map<string, Json> {
    map k | k in fields && k in SectionNames :: fields[k]
  }

  /** The sections among `names` that `fields` lacks or holds as a non-object, in order. */
  function BadSections(names: seq<string>, fields: map<string, Json>): (bad: seq<string>)
    ensures forall name :: name in bad <==> name in names && !IsDictSection(fields, name)
    ensures |bad| <= |names|
  {
    if names == [] then []
    else
      var rest := BadSections(names[1..], fields);
      assert forall name :: name in names <==> name == names[0] || name in names[1..];
      if IsDictSection(fields, names[0]) then rest else [names[0]] + rest
  }

  /** The report as the JSON object the service returns. */
  function ReportToJson(r: AnalysisReport): (j: Json)
    ensures IsReportShaped(j) && j.fields.Keys == set name | name in SectionNames
  {
    JObject(map[
      "soft_skills" := JObject(r.softSkills),
      "integrity" := JObject(r.integrity),
      "quantitative_scores" := JObject(r.quantitativeScores),
      "summary" := JObject(r.summary)])
  }

  /**
    `AnalysisReport(**analysis)`: all-or-nothing. It succeeds exactly on
    report-shaped values; the report then holds exactly the four sections
    of the input, extra keys dropped; a failure names every bad section.
  */
  function CheckReport(j: Json): (r: Result<AnalysisReport, SchemaError>)
    ensures r.Success? <==> IsReportShaped(j)
    ensures r.Success? ==> ReportToJson(r.value) == JObject(SectionsOf(j.fields))
    ensures r.Failure? && !j.JObject? ==> r.error == NotAMapping
    ensures r.Failure? && j.JObject? ==>
      r.error.InvalidSections? && r.error.sections != [] &&
      forall name :: name in r.error.sections <==> name in SectionNames && !IsDictSection(j.fields, name)
  {
    if !j.JObject? then Failure(NotAMapping)
    else
      var bad := BadSections(SectionNames, j.fields);
      if bad != [] then
        assert bad[0] in bad;
        Failure(InvalidSections(bad))
      else
        assert forall name | name in SectionNames :: IsDictSection(j.fields, name);
        assert IsDictSection(j.fields, SectionNames[0]) && IsDictSection(j.fields, SectionNames[1]);
        assert IsDictSection(j.fields, SectionNames[2]) && IsDictSection(j.fields, SectionNames[3]);
        var r := AnalysisReport(
          j.fields["soft_skills"].fields,
          j.fields["integrity"].fields,
          j.fields["quantitative_scores"].fields,
          j.fields["summary"].fields);
        assert ReportToJson(r).fields == SectionsOf(j.fields);
        Success(r)
  }

  /** A report survives being returned as JSON and checked again. */
  lemma ReportRoundTrip(r: AnalysisReport)
    ensures CheckReport(ReportToJson(r)) == Success(r)
  {
    var j := ReportToJson(r);
    var r' := CheckReport(j).value;
    assert r'.softSkills == j.fields["soft_skills"].fields == r.softSkills;
  }

  /** A value of exactly the report shape comes back deep-equal to itself. */
  lemma ExactShapeRoundTrip(j: Json)
    requires IsReportShaped(j) && j.fields.Keys == set name | name in SectionNames
    ensures CheckReport(j).Success? && ReportToJson(CheckReport(j).value) == j
  {
    assert SectionsOf(j.fields) == j.fields;
  }
}
