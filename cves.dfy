/** Vulnerability records and the CVE manager. */
module Cves {

  import opened Json
  import opened Dates
  import Bags

  // Keys of a vulnerability document. Their literal values live in a
  // constants module that is not part of this model; these stand-ins are
  // pairwise distinct, which is all the model relies on.
  const ID := "id"
  const CVE := "cve"
  const DESCRIPTION := "description"
  const CVSS := "cvss"
  const STATUS := "status"
  const VECTOR := "vector"
  const VECTOR_KUBERNETES := "vecStr"
  const SEVERITY := "severity"
  const PACKAGENAME := "packageName"
  const PACKAGEVERSION := "packageVersion"
  const VENDOR_LINK_KEY := "link"
  const NVD_LINK_KEY := "nvdLink"
  const PUBLISHEDDATE := "publishedDate"
  const DISCOVEREDDATE := "discoveredDate"
  const FIXEDDATE := "fixDate"
  const PUBLISHEDDATE_KUBERNETES := "published"
  const DISCOVEREDDATE_KUBERNETES := "discovered"
  const FIXEDDATE_KUBERNETES := "fixed"
  const NVD_LINK_PREFIX := "https://nvd.nist.gov/vuln/detail/"

  /** The twelve keys `toJson` writes. */
  const JSON_KEYS: set<string> := {ID, CVE, PACKAGENAME, PACKAGEVERSION, CVSS, STATUS, SEVERITY,
                                   VENDOR_LINK_KEY, NVD_LINK_KEY, PUBLISHEDDATE, DISCOVEREDDATE, FIXEDDATE}

  /** A vulnerability record: the document its JSON text decoded to, or None
      when `json.loads` failed. The constructor catches that failure and
      leaves the document unset. */
  datatype Cve = Cve(doc: Option<Value>)

  /** Whether the getters work: they call `.get` on the document, which
      raises when it was never set or is not a dict. */
  predicate Loaded(c: Cve)
  {
    c.doc.Some? && c.doc.value.JObj?
  }

  function Fields(c: Cve): map<string, Value>
    requires Loaded(c)
  {
    c.doc.value.fields
  }

  /** A plain getter: the stored field, or None when the key is absent. */
  function Field(c: Cve, key: string): (r: Value)
    requires Loaded(c)
    ensures key in Fields(c) ==> r == Fields(c)[key]
    ensures key !in Fields(c) ==> r == JNull
  {
    Get(Fields(c), key)
  }

  function GetDescription(c: Cve): Value requires Loaded(c) { Field(c, DESCRIPTION) }
  function GetCvssScore(c: Cve): Value requires Loaded(c) { Field(c, CVSS) }
  function GetStatus(c: Cve): Value requires Loaded(c) { Field(c, STATUS) }
  function GetSeverity(c: Cve): Value requires Loaded(c) { Field(c, SEVERITY) }
  function GetPackageName(c: Cve): Value requires Loaded(c) { Field(c, PACKAGENAME) }
  function GetPackageVersion(c: Cve): Value requires Loaded(c) { Field(c, PACKAGEVERSION) }
  function GetLink1(c: Cve): Value requires Loaded(c) { Field(c, VENDOR_LINK_KEY) }

  /** `get_id`: the `id` field, unless it holds an integer, in which case
      the `cve` field. */
  function GetId(c: Cve): (r: Value)
    requires Loaded(c)
    ensures Field(c, ID).JInt? ==> r == Field(c, CVE)
    ensures !Field(c, ID).JInt? ==> r == Field(c, ID)
  {
    var id := Field(c, ID);
    if id.JInt? then Field(c, CVE) else id
  }

  /** `get_vector`: the primary vector field; the variant field only when
      the primary is absent or null. */
  function GetVector(c: Cve): (r: Value)
    requires Loaded(c)
    ensures Field(c, VECTOR) != JNull ==> r == Field(c, VECTOR)
    ensures Field(c, VECTOR) == JNull ==> r == Field(c, VECTOR_KUBERNETES)
  {
    var vector := Field(c, VECTOR);
    if vector == JNull then Field(c, VECTOR_KUBERNETES) else vector
  }

  /** `get_link_2`: the NVD link built from the identifier when the
      identifier is truthy; None otherwise. */
  function GetLink2(c: Cve): (r: Value)
    requires Loaded(c)
    ensures Truthy(GetId(c)) <==> r != JNull
    ensures Truthy(GetId(c)) ==> r.JStr? && r.s == NVD_LINK_PREFIX + PyStr(GetId(c))
  {
    if Truthy(GetId(c)) then JStr(NVD_LINK_PREFIX + PyStr(GetId(c))) else JNull
  }

  /** The date getters parse the stored text with the common format. */
  function GetPublishedDate(c: Cve, cal: Calendar): Option<DateTime>
    requires Loaded(c)
  {
    ParseValue(cal.parseCommonDateTime, Field(c, PUBLISHEDDATE))
  }

  function GetDiscoveredDate(c: Cve, cal: Calendar): Option<DateTime>
    requires Loaded(c)
  {
    ParseValue(cal.parseCommonDateTime, Field(c, DISCOVEREDDATE))
  }

  function GetFixedDate(c: Cve, cal: Calendar): Option<DateTime>
    requires Loaded(c)
  {
    ParseValue(cal.parseCommonDateTime, Field(c, FIXEDDATE))
  }

  /** A stored date re-encoded as `toJson` writes it. */
  function DateText(c: Cve, key: string, cal: Calendar): (r: Value)
    requires Loaded(c)
    ensures r.JStr?
    ensures ParseValue(cal.parseCommonDateTime, Field(c, key)) == None ==> r == JStr("")
  {
    JStr(FormatValue(cal.formatCommonDateTime, ParseValue(cal.parseCommonDateTime, Field(c, key))))
  }

  /** The dict `toJson` builds, from the values of its twelve entries. */
  function CveDict(id: Value, name: Value, version: Value, cvss: Value, status: Value, severity: Value,
                   link1: Value, link2: Value, published: Value, discovered: Value, fixed: Value)
    : (r: map<string, Value>)
    ensures r.Keys == {ID, CVE, PACKAGENAME, PACKAGEVERSION, CVSS, STATUS, SEVERITY,
                       VENDOR_LINK_KEY, NVD_LINK_KEY, PUBLISHEDDATE, DISCOVEREDDATE, FIXEDDATE}
    ensures r[ID] == id && r[CVE] == id && r[PACKAGENAME] == name && r[PACKAGEVERSION] == version
    ensures r[CVSS] == cvss && r[STATUS] == status && r[SEVERITY] == severity
    ensures r[VENDOR_LINK_KEY] == link1 && r[NVD_LINK_KEY] == link2
    ensures r[PUBLISHEDDATE] == published && r[DISCOVEREDDATE] == discovered && r[FIXEDDATE] == fixed
  {
    map[
      ID := id,
      CVE := id,
      PACKAGENAME := name,
      PACKAGEVERSION := version,
      CVSS := cvss,
      STATUS := status,
      SEVERITY := severity,
      VENDOR_LINK_KEY := link1,
      NVD_LINK_KEY := link2,
      PUBLISHEDDATE := published,
      DISCOVEREDDATE := discovered,
      FIXEDDATE := fixed
    ]
  }

  /** `toJson`: twelve keys; the identifier under both `id` and `cve`; the
      score, status, severity and vendor link as stored; no description and
      no vector; each date re-encoded with the common format,
      or the empty string when the stored value does not parse. */
  function CveJson(c: Cve, cal: Calendar): (r: map<string, Value>)
    requires Loaded(c)
    ensures r.Keys == JSON_KEYS
    ensures r[ID] == GetId(c) && r[CVE] == GetId(c)
    ensures r[PACKAGENAME] == Field(c, PACKAGENAME) && r[PACKAGEVERSION] == Field(c, PACKAGEVERSION)
    ensures r[CVSS] == Field(c, CVSS) && r[STATUS] == Field(c, STATUS) && r[SEVERITY] == Field(c, SEVERITY)
    ensures r[VENDOR_LINK_KEY] == Field(c, VENDOR_LINK_KEY)
    ensures r[NVD_LINK_KEY] == GetLink2(c)
    ensures r[PUBLISHEDDATE] == JStr(FormatValue(cal.formatCommonDateTime, GetPublishedDate(c, cal)))
    ensures r[DISCOVEREDDATE] == JStr(FormatValue(cal.formatCommonDateTime, GetDiscoveredDate(c, cal)))
    ensures r[FIXEDDATE] == JStr(FormatValue(cal.formatCommonDateTime, GetFixedDate(c, cal)))
  {
    CveDict(GetId(c), GetPackageName(c), GetPackageVersion(c), GetCvssScore(c), GetStatus(c),
            GetSeverity(c), GetLink1(c), GetLink2(c), DateText(c, PUBLISHEDDATE, cal),
            DateText(c, DISCOVEREDDATE, cal), DateText(c, FIXEDDATE, cal))
  }

  /** The description and the vector, which the getters read, are not among
      the rendered keys. */
  lemma CveJsonDropsDescriptionAndVector(c: Cve, cal: Calendar)
    requires Loaded(c)
    ensures DESCRIPTION !in CveJson(c, cal) && VECTOR !in CveJson(c, cal)
  {
  }

  /** Under a sound calendar, rendering a record whose dates are already in
      the common format (or empty) writes those dates back unchanged. */
  lemma CveJsonKeepsCanonicalDates(c: Cve, cal: Calendar, key: string, d: Option<DateTime>)
    requires Loaded(c) && CommonFormatSound(cal)
    requires key in {PUBLISHEDDATE, DISCOVEREDDATE, FIXEDDATE}
    requires Field(c, key) == JStr(FormatValue(cal.formatCommonDateTime, d))
    ensures CveJson(c, cal)[key] == Field(c, key)
  {
    ReencodeStable(cal, d);
  }

  /** Every stored record is loaded. */
  predicate AllLoaded(s: seq<Cve>)
  {
    forall i :: 0 <= i < |s| ==> Loaded(s[i])
  }

  /** A filter over CVE getters: it raises as soon as it meets a record
      whose getters raise, and otherwise keeps the matching records. */
  function Select(s: seq<Cve>, keep: Cve -> bool): (r: Result<seq<Cve>>)
    ensures r.Ok? <==> AllLoaded(s)
    ensures r.Ok? ==> forall c :: multiset(r.value)[c] == if keep(c) then multiset(s)[c] else 0
  {
    if AllLoaded(s) then Ok(Bags.Filter(s, keep)) else Raised
  }

  predicate HasId(c: Cve, id: Value) { Loaded(c) && GetId(c) == id }
  predicate HasSeverity(c: Cve, severity: Value) { Loaded(c) && GetSeverity(c) == severity }
  predicate HasPackageName(c: Cve, name: Value) { Loaded(c) && GetPackageName(c) == name }
  predicate HasPackage(c: Cve, name: Value, version: Value)
  {
    Loaded(c) && GetPackageName(c) == name && GetPackageVersion(c) == version
  }

  /** The CVE manager: a set of Cve objects compared by identity, modelled
      as a sequence in which every `add_cve` call makes a new entry. */
  class CveManager {
    var cves: seq<Cve>

    /** A new manager is empty. */
    constructor ()
      ensures cves == []
    {
      cves := [];
    }

    /** `add_cve`: builds a record from the document and adds it as a new
        member. Building never raises (a document that does not decode
        gives a record whose getters raise), so every call adds exactly one
        record and keeps the earlier ones. */
    method AddCve(doc: Option<Value>)
      modifies this
      ensures cves == old(cves) + [Cve(doc)]
    {
      cves := cves + [Cve(doc)];
    }

    /** `get_all_cves`: the stored collection itself. */
    function AllCves(): (r: seq<Cve>)
      reads this
      ensures r == cves
    {
      cves
    }

    /** `get_cves_by_id`: the stored records whose identifier is `id`; it
        raises when some stored record cannot answer `get_id`. */
    function CvesById(id: Value): (r: Result<seq<Cve>>)
      reads this
      ensures r.Ok? <==> AllLoaded(cves)
      ensures r.Ok? ==> forall c :: multiset(r.value)[c] ==
                                    (if Loaded(c) && GetId(c) == id then multiset(cves)[c] else 0)
    {
      Select(cves, c => HasId(c, id))
    }

    /** `get_cves_by_severity`. */
    function CvesBySeverity(severity: Value): (r: Result<seq<Cve>>)
      reads this
      ensures r.Ok? <==> AllLoaded(cves)
      ensures r.Ok? ==> forall c :: multiset(r.value)[c] ==
                                    (if Loaded(c) && GetSeverity(c) == severity then multiset(cves)[c] else 0)
    {
      Select(cves, c => HasSeverity(c, severity))
    }

    /** `get_cves_by_package_name`. */
    function CvesByPackageName(name: Value): (r: Result<seq<Cve>>)
      reads this
      ensures r.Ok? <==> AllLoaded(cves)
      ensures r.Ok? ==> forall c :: multiset(r.value)[c] ==
                                    (if Loaded(c) && GetPackageName(c) == name then multiset(cves)[c] else 0)
    {
      Select(cves, c => HasPackageName(c, name))
    }

    /** `get_cves_by_package_name_and_version`: the records matching both. */
    function CvesByPackage(name: Value, version: Value): (r: Result<seq<Cve>>)
      reads this
      ensures r.Ok? <==> AllLoaded(cves)
      ensures r.Ok? ==> forall c :: multiset(r.value)[c] ==
                                    (if HasPackage(c, name, version) then multiset(cves)[c] else 0)
    {
      Select(cves, c => HasPackage(c, name, version))
    }
  }
}
