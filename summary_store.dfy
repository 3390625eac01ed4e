/**
 * The `summaries` table both batch jobs write: one row per case number,
 * holding either the seven section columns or, in the fallback form, the
 * whole summary text in the `symptoms` column, with the metadata as a JSON
 * object beside it. A row is keyed by the Asteria ticket id prefixed with
 * `AST-`, which keeps Asteria cases apart from the other sources sharing
 * the table.
 */
module SummaryStore {
  import opened Wrappers
  import opened Json
  import opened Sections

  const AsteriaPrefix: string := "AST-"

  /** The case number an Asteria ticket is stored under. */
  function AsteriaKey(caseNumber: string): (k: string)
    ensures |k| == |caseNumber| + 4 && k[..4] == AsteriaPrefix && k[4..] == caseNumber
  {
    AsteriaPrefix + caseNumber
  }

  /** Two tickets share a row exactly when they share an id. */
  lemma AsteriaKeyInjective(a: string, b: string)
    ensures AsteriaKey(a) == AsteriaKey(b) <==> a == b
  {
    if AsteriaKey(a) == AsteriaKey(b) {
      assert a == AsteriaKey(a)[4..];
    }
  }

  /** Python's truth value of a decoded value: empty and zero values are false. */
  predicate Truthy(j: Json)
  {
    match j
    case JNull => false
    case JBool(b) => b
    case JInt(i) => i != 0
    case JFloat(f) => f != 0.0
    case JString(s) => s != ""
    case JArray(items) => items != []
    case JObject(fields) => fields != map[]
  }

  /**
   * A summary dictionary as the writers read it: its case number, its
   * `summary_text` and `metadata` entries when present, and the section
   * keys it carries.
   */
  datatype SummaryRecord = SummaryRecord(
    caseNumber: string,
    summaryText: Option<Json>,
    sections: map<Section, Json>,
    metadata: Option<Json>)

  /** `summary.get(key)` for a section's key: `None` when the key is missing. */
  function Column(s: SummaryRecord, sec: Section): (v: Json)
    ensures sec !in s.sections ==> v == JNull
  {
    if sec in s.sections then s.sections[sec] else JNull
  }

  /** The seven section columns of a row, in a dictionary keyed by section. */
  function SectionColumns(s: SummaryRecord): (r: map<Section, Json>)
    ensures forall sec: Section :: sec in r && r[sec] == Column(s, sec)
  {
    AllSectionsListed();
    map sec: Section | sec in AllSections :: Column(s, sec)
  }

  /** A stored row: the seven-column form, or the fallback form with only `symptoms` filled. */
  datatype TableRow =
    | SectionRow(columns: map<Section, Json>, metadata: Json)
    | TextRow(symptoms: Json, metadata: Json)

  /** Why a save raised instead of writing. */
  datatype StoreError = MetadataNotObject

  /** `summary.get("metadata", {})` */
  function MetadataOrEmpty(s: SummaryRecord): Json
  {
    if s.metadata.Some? then s.metadata.value else JObject(map[])
  }

  /**
   * `metadata = summary.get("metadata", {})` followed by
   * `metadata["source"] = source`: the dictionary written with the row, and
   * the summary as its holder sees it afterwards. The assignment reaches the
   * holder's summary only when the summary had a metadata entry, since the
   * default `{}` is a fresh dictionary; a metadata value that is not an
   * object makes the assignment raise.
   */
  function WithSource(s: SummaryRecord, source: string): (r: Result<(Json, SummaryRecord), StoreError>)
    ensures r.Ok? <==> MetadataOrEmpty(s).JObject?
    ensures r.Ok? ==> r.value.0.JObject? && r.value.0.fields.Keys == MetadataOrEmpty(s).fields.Keys + {"source"}
    ensures r.Ok? ==> r.value.0.fields["source"] == JString(source)
    ensures r.Ok? ==> forall k :: k in MetadataOrEmpty(s).fields && k != "source" ==>
                        r.value.0.fields[k] == MetadataOrEmpty(s).fields[k]
    ensures r.Ok? && s.metadata.None? ==> r.value.1 == s
    ensures r.Ok? && s.metadata.Some? ==> r.value.1 == s.(metadata := Some(r.value.0))
  {
    match SetKey(MetadataOrEmpty(s), "source", JString(source))
    case None => Err(MetadataNotObject)
    case Some(m) => Ok((m, if s.metadata.Some? then s.(metadata := Some(m)) else s))
  }

  /** Tagging a dictionary that already names `source` as its source changes nothing. */
  lemma WithSourceAlreadyTagged(s: SummaryRecord, source: string)
    requires s.metadata.Some? && s.metadata.value.JObject?
    requires "source" in s.metadata.value.fields && s.metadata.value.fields["source"] == JString(source)
    ensures WithSource(s, source) == Ok((s.metadata.value, s))
  {
    var fields := s.metadata.value.fields;
    assert fields["source" := JString(source)] == fields;
  }
}
