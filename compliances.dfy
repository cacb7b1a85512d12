/** Compliance records and the compliance manager. */
module Compliances {

  import opened Json

  // Keys of a compliance document (stand-ins, pairwise distinct).
  const TITLE := "title"
  const DESCRIPTION := "description"
  const SEVERITY := "severity"
  const CAUSE := "cause"

  /** A compliance record: the document its JSON text decoded to, or None
      when `json.loads` failed (the constructor catches the failure and
      leaves the document unset). No setter exists, so a record never
      changes. */
  datatype Compliance = Compliance(doc: Option<Value>)

  /** Whether the getters work: `.get` raises on an unset document and on
      one that is not a dict. */
  predicate Loaded(c: Compliance)
  {
    c.doc.Some? && c.doc.value.JObj?
  }

  /** A getter: the stored field, or None when the key is absent. */
  function Field(c: Compliance, key: string): (r: Value)
    requires Loaded(c)
    ensures key in c.doc.value.fields ==> r == c.doc.value.fields[key]
    ensures key !in c.doc.value.fields ==> r == JNull
  {
    Get(c.doc.value.fields, key)
  }

  function GetTitle(c: Compliance): Value requires Loaded(c) { Field(c, TITLE) }
  function GetDescription(c: Compliance): Value requires Loaded(c) { Field(c, DESCRIPTION) }
  function GetSeverity(c: Compliance): Value requires Loaded(c) { Field(c, SEVERITY) }
  function GetCause(c: Compliance): Value requires Loaded(c) { Field(c, CAUSE) }

  /** `toJson`: exactly title, description, cause and severity, each from
      its getter; any other key of the document is dropped. */
  function ComplianceJson(c: Compliance): (r: map<string, Value>)
    requires Loaded(c)
    ensures r.Keys == {TITLE, DESCRIPTION, CAUSE, SEVERITY}
    ensures r[TITLE] == Field(c, TITLE) && r[DESCRIPTION] == Field(c, DESCRIPTION)
    ensures r[CAUSE] == Field(c, CAUSE) && r[SEVERITY] == Field(c, SEVERITY)
  {
    map[TITLE := GetTitle(c), DESCRIPTION := GetDescription(c), CAUSE := GetCause(c),
        SEVERITY := GetSeverity(c)]
  }

  /** Rendering a rendering changes nothing: `toJson` keeps exactly the
      four fields it reads. */
  lemma ComplianceJsonIdempotent(c: Compliance)
    requires Loaded(c)
    ensures var again := Compliance(Some(JObj(ComplianceJson(c))));
      Loaded(again) && ComplianceJson(again) == ComplianceJson(c)
  {
    var again := Compliance(Some(JObj(ComplianceJson(c))));
    assert ComplianceJson(again).Keys == ComplianceJson(c).Keys;
  }

  /** The compliance manager: a set of Compliance objects compared by
      identity, modelled as a sequence in which every call makes a new
      entry. */
  class ComplianceManager {
    var compliances: seq<Compliance>

    /** A new manager is empty. */
    constructor ()
      ensures compliances == []
    {
      compliances := [];
    }

    /** `add_compliance`: builds a record from the document and adds it as a
        new member. Building never raises, so every call adds exactly one
        record and keeps the earlier ones. */
    method AddCompliance(doc: Option<Value>)
      modifies this
      ensures compliances == old(compliances) + [Compliance(doc)]
    {
      compliances := compliances + [Compliance(doc)];
    }

    /** `get_all_compliances`: the stored collection itself. */
    function AllCompliances(): (r: seq<Compliance>)
      reads this
      ensures r == compliances
    {
      compliances
    }
  }
}
