/** The BlackDuck report parser: every item of a project version's
    vulnerable bill of materials becomes one CVE record and one package,
    keyed by the ids cut out of the item's `href`; and the text of the
    upgrade guidance that becomes each record's status. */
module Blackduck {

  import opened Json
  import opened Dates
  import opened Text
  import Packages
  import Cves
  import Compliances
  import Report
  import Bags

  // Keys of a BlackDuck item. The constants module that holds them is not
  // part of this model; these stand-ins are pairwise distinct.
  const META := "_meta"
  const HREF := "href"
  const VULNEB_WITH_REMEDIATION := "vulnerabilityWithRemediation"
  const COMPONENT_NAME := "componentName"
  const COMPONENT_VERSION_NAME := "componentVersionName"
  const COMPONENT_VERSION_ORIGIN_NAME := "componentVersionOriginName"
  const VULNERABILITY_NAME := "vulnerabilityName"

  // ---------------------------------------------------------------------
  // Upgrade guidance

  /** The name a guidance term names: its `originName` when that is not
      the empty string (an absent key counts as empty), else its
      `versionName` likewise, else nothing. `.get` on a term that is not a
      dict raises. */
  function TermName(term: Value): (r: Result<Option<string>>)
    ensures r.Ok? <==> term.JObj?
    ensures r.Ok? && ORIGIN_NAME in term.fields && term.fields[ORIGIN_NAME] != JStr("") ==>
      r == Ok(Some(PyStr(term.fields[ORIGIN_NAME])))
    ensures r.Ok? && GetOr(term.fields, ORIGIN_NAME, JStr("")) == JStr("")
            && GetOr(term.fields, VERSION_NAME, JStr("")) != JStr("") ==>
      r == Ok(Some(PyStr(term.fields[VERSION_NAME])))
    ensures r == Ok(None) <==>
      term.JObj? && GetOr(term.fields, ORIGIN_NAME, JStr("")) == JStr("")
      && GetOr(term.fields, VERSION_NAME, JStr("")) == JStr("")
  {
    if !term.JObj? then Raised
    else if GetOr(term.fields, ORIGIN_NAME, JStr("")) != JStr("") then
      Ok(Some(PyStr(term.fields[ORIGIN_NAME])))
    else if GetOr(term.fields, VERSION_NAME, JStr("")) != JStr("") then
      Ok(Some(PyStr(term.fields[VERSION_NAME])))
    else Ok(None)
  }

  const SHORT_TERM := "shortTerm"
  const LONG_TERM := "longTerm"
  const ORIGIN_NAME := "originName"
  const VERSION_NAME := "versionName"

  /** One phase of the guidance: `key in body`, then `body[key]` and its
      name. Nothing when the key is not there. */
  function Term(body: Value, key: string): Result<Option<string>>
  {
    match In(key, body)
    case Raised => Raised
    case Ok(present) =>
      if !present then Ok(None)
      else if !body.JObj? then Raised
      else TermName(body.fields[key])
  }

  /** The short-term part of the guidance for the name a term names. */
  function ShortPart(name: Option<string>): string
  {
    if name.Some? then "Short Term: " + name.value + "," else ""
  }

  /** The long-term part of the guidance for the name a term names. */
  function LongPart(name: Option<string>): string
  {
    if name.Some? then "Long Term: " + name.value else ""
  }

  /** `get_upgrade_resolution` after its request: `response` is the decoded
      body, or None when the request or the decoding raised. The guidance
      starts empty; the short-term part is assigned, then the long-term part
      appended; an exception ends the composition and returns what was
      built so far. */
  function UpgradeGuidance(response: Option<Value>): (r: string)
    ensures response.None? ==> r == ""
    ensures response.Some? && Term(response.value, SHORT_TERM).Raised? ==> r == ""
    ensures response.Some? && Term(response.value, SHORT_TERM).Ok? ==>
      r == ShortPart(Term(response.value, SHORT_TERM).value)
           + match Term(response.value, LONG_TERM)
             case Ok(long) => LongPart(long)
             case Raised => ""
    ensures r == "" || StartsWith(r, "Short Term: ") || StartsWith(r, "Long Term: ")
  {
    match response
    case None => ""
    case Some(body) =>
      match Term(body, SHORT_TERM)
      case Raised => ""
      case Ok(short) =>
        var guidance := if short.Some? then "Short Term: " + short.value + "," else "";
        match Term(body, LONG_TERM)
        case Raised => guidance
        case Ok(long) =>
          if long.Some? then guidance + "Long Term: " + long.value else guidance
  }

  /** With a non-empty short-term origin name, the guidance starts with it,
      whatever the version name and the long term say. */
  lemma GuidancePrefersOrigin(body: map<string, Value>, term: map<string, Value>, origin: string)
    requires SHORT_TERM in body && body[SHORT_TERM] == JObj(term)
    requires ORIGIN_NAME in term && term[ORIGIN_NAME] == JStr(origin) && origin != ""
    ensures StartsWith(UpgradeGuidance(Some(JObj(body))), "Short Term: " + origin + ",")
  {
    var shortText := "Short Term: " + origin + ",";
    var r := UpgradeGuidance(Some(JObj(body)));
    assert Term(JObj(body), SHORT_TERM) == Ok(Some(origin));
    assert r[..|shortText|] == shortText;
  }

  /** Without a short term, a long term naming only a version gives exactly
      the long-term part. */
  lemma GuidanceLongOnly(body: map<string, Value>, term: map<string, Value>, version: string)
    requires SHORT_TERM !in body && LONG_TERM in body && body[LONG_TERM] == JObj(term)
    requires GetOr(term, ORIGIN_NAME, JStr("")) == JStr("")
    requires VERSION_NAME in term && term[VERSION_NAME] == JStr(version) && version != ""
    ensures UpgradeGuidance(Some(JObj(body))) == "Long Term: " + version
  {
    assert Term(JObj(body), SHORT_TERM) == Ok(None);
    assert Term(JObj(body), LONG_TERM) == Ok(Some(version));
  }

  /** A body with neither term gives the empty guidance. */
  lemma GuidanceEmpty(body: map<string, Value>)
    requires SHORT_TERM !in body && LONG_TERM !in body
    ensures UpgradeGuidance(Some(JObj(body))) == ""
  {
    assert Term(JObj(body), SHORT_TERM) == Ok(None);
    assert Term(JObj(body), LONG_TERM) == Ok(None);
  }

  // ---------------------------------------------------------------------
  // Ids cut out of an href

  /** The component id: the text after the first `components/` (up to a
      second one), cut at its first `/` and trimmed. Indexing piece 1
      raises when there is no `components/`. */
  function ComponentId(href: string): (r: Result<string>)
    ensures r.Ok? <==> Contains(Strip(href), "components/")
    ensures Contains(Strip(href), "components/") ==>
      r == Ok(Strip(Before(Before(After(Strip(href), "components/"), "components/"), "/")))
    ensures r.Ok? ==> !Contains(r.value, "/")
  {
    var pieces := Split(Strip(href), "components/");
    SplitPieces(Strip(href), "components/");
    if |pieces| < 2 then Raised
    else
      var segments := Split(Strip(pieces[1]), "/");
      SplitSecond(Strip(href), "components/");
      SplitAroundFirst(Strip(pieces[1]), "/");
      StripBefore(pieces[1], '/');
      SplitPieces(Strip(pieces[1]), "/");
      StripKeepsOut(segments[0], "/");
      Ok(Strip(segments[0]))
  }

  /** The component version id: the text after the last `/` of the href
      before its first `/origins`, trimmed. It never raises. */
  function VersionId(href: string): (r: string)
    ensures r == Strip(AfterLast(Before(Strip(href), "/origins"), "/"))
    ensures !Contains(r, "/")
  {
    var front := Split(Strip(href), "/origins")[0];
    var segments := Split(Strip(front), "/");
    SplitAroundFirst(Strip(href), "/origins");
    SplitLast(Strip(front), "/");
    StripAfterLast(front, '/');
    SplitPieces(Strip(front), "/");
    StripKeepsOut(Last(segments), "/");
    Strip(Last(segments))
  }

  /** The origin id: when the href contains `origins`, the text after the
      first `origins/` (up to a second one), cut at its first `/` and
      trimmed, raising when there is no `origins/`; otherwise none. */
  function OriginId(href: string): (r: Result<Option<string>>)
    ensures !Contains(href, "origins") ==> r == Ok(None)
    ensures Contains(href, "origins") ==> (r.Ok? <==> Contains(Strip(href), "origins/"))
    ensures Contains(href, "origins") && Contains(Strip(href), "origins/") ==>
      r == Ok(Some(Strip(Before(Before(After(Strip(href), "origins/"), "origins/"), "/"))))
    ensures r.Ok? && r.value.Some? ==> !Contains(r.value.value, "/")
  {
    if !Contains(href, "origins") then Ok(None)
    else
      var pieces := Split(Strip(href), "origins/");
      SplitPieces(Strip(href), "origins/");
      if |pieces| < 2 then Raised
      else
        var segments := Split(Strip(pieces[1]), "/");
        SplitSecond(Strip(href), "origins/");
        SplitAroundFirst(Strip(pieces[1]), "/");
        StripBefore(pieces[1], '/');
        SplitPieces(Strip(pieces[1]), "/");
        StripKeepsOut(segments[0], "/");
        Ok(Some(Strip(segments[0])))
  }

  /** A character of BlackDuck's ids (UUIDs): a digit, a capital letter,
      `a` to `f` or `-`. */
  predicate IdChar(ch: char)
  {
    '0' <= ch <= '9' || 'A' <= ch <= 'Z' || 'a' <= ch <= 'f' || ch == '-'
  }

  /** Non-empty text made of id characters. */
  predicate IdText(s: string)
    decreases |s|
  {
    s != [] && IdChar(s[0]) && (|s| == 1 || IdText(s[1..]))
  }

  /** An id holds neither `/` nor `o`, so none of the separators the cuts
      look for can start inside it. */
  lemma {:induction false} IdPairs(s: string)
    requires IdText(s)
    ensures PairAbsent(s, 'c', 'o') && PairAbsent(s, '/', 'o') && PairAbsent(s, 'o', 'r')
    ensures s[0] != 'o' && s[|s| - 1] != 'o' && !IsSpace(s[|s| - 1])
    ensures !Contains(s, "/") && !Contains(s, "origins/")
    decreases |s|
  {
    if |s| == 1 {
      assert !StartsWith(s[1..], "/") && !StartsWith(s[1..], "origins/");
    } else {
      IdPairs(s[1..]);
      PairAbsentAppend([s[0]], s[1..], 'c', 'o');
      PairAbsentAppend([s[0]], s[1..], '/', 'o');
      PairAbsentAppend([s[0]], s[1..], 'o', 'r');
      assert s == [s[0]] + s[1..];
      assert s[|s| - 1] == s[1..][|s| - 2];
    }
  }

  lemma IdStrip(s: string)
    requires IdText(s)
    ensures Strip(s) == s
  {
    IdPairs(s);
    StripUnchanged(s);
  }

  /** The text after the first `components/` of such an href, up to the
      next `components/` and then to its first `/`, is the component. */
  lemma ComponentCut(c: string, z: string)
    requires IdText(c)
    ensures Contains("/api/components/" + c + "/" + z, "components/")
    ensures Before(Before(After("/api/components/" + c + "/" + z, "components/"), "components/"), "/") == c
  {
    IdPairs(c);
    assert PairAbsent("/api/c", 'c', 'o');
    assert "/api/components/" + c + "/" + z == "/api/" + "components/" + (c + "/" + z);
    FirstAtPair("/api/", "components/", c + "/" + z);
    PairAbsentAppend(c, "/", 'c', 'o');
    BeforeAcross(c + "/", z, "components/");
    assert c + "/" + Before(z, "components/") == c + ['/'] + Before(z, "components/");
    FirstAfter(c, '/', Before(z, "components/"));
  }

  lemma SeparatorJoins()
    ensures "/versions/" == "/" + "versions/" && "origins/" == "origins" + "/"
  {
  }

  /** An id is all of the text before the first `origins/` and then before
      the first `/`. */
  lemma IdWhole(s: string)
    requires IdText(s)
    ensures Strip(Before(Before(s, "origins/"), "/")) == s
  {
    IdPairs(s);
    AroundFirst(s, "origins/");
    AroundFirst(s, "/");
    IdStrip(s);
  }

  /** The start of an href up to its version id. */
  function VersionPath(c: string, v: string): string
  {
    "/api/components/" + c + "/versions/" + v
  }

  /** The origin part of an href. */
  function OriginPath(o: string): string
  {
    "/origins/" + o
  }

  /** Such an href is its own strip. */
  lemma HrefStrip(c: string, v: string, tail: string)
    requires IdText(c) && IdText(v)
    requires tail == [] || !IsSpace(tail[|tail| - 1])
    ensures Strip(VersionPath(c, v) + tail) == VersionPath(c, v) + tail
  {
    var href := VersionPath(c, v) + tail;
    VersionPathLast(c, v);
    assert href[0] == '/';
    assert href[|href| - 1] == if tail == [] then VersionPath(c, v)[|VersionPath(c, v)| - 1] else tail[|tail| - 1];
    StripUnchanged(href);
  }

  /** The component id of an href whose component and version are ids. */
  lemma ComponentIdOf(c: string, v: string, tail: string)
    requires IdText(c) && IdText(v)
    requires tail == [] || !IsSpace(tail[|tail| - 1])
    ensures ComponentId(VersionPath(c, v) + tail) == Ok(c)
  {
    SeparatorJoins();
    assert VersionPath(c, v) + tail == "/api/components/" + c + "/" + ("versions/" + v + tail);
    HrefStrip(c, v, tail);
    ComponentCut(c, "versions/" + v + tail);
    IdStrip(c);
  }

  /** Neither `/o` nor `or` occurs in the start of such an href, so neither
      `/origins` nor `origins` does; nor does `/o` once `/` follows. */
  lemma VersionPathPairs(c: string, v: string)
    requires IdText(c) && IdText(v)
    ensures PairAbsent(VersionPath(c, v) + "/", '/', 'o')
    ensures PairAbsent(VersionPath(c, v) + "/o", 'o', 'r')
    ensures PairAbsent(VersionPath(c, v), 'o', 'r')
  {
    IdPairs(c);
    IdPairs(v);
    assert PairAbsent("/api/components/", '/', 'o') && PairAbsent("/versions/", '/', 'o') && PairAbsent("/", '/', 'o');
    PairAbsentAppend("/api/components/", c, '/', 'o');
    PairAbsentAppend("/api/components/" + c, "/versions/", '/', 'o');
    PairAbsentAppend("/api/components/" + c + "/versions/", v, '/', 'o');
    PairAbsentAppend(VersionPath(c, v), "/", '/', 'o');
    assert PairAbsent("/api/components/", 'o', 'r') && PairAbsent("/versions/", 'o', 'r') && PairAbsent("/o", 'o', 'r');
    PairAbsentAppend("/api/components/", c, 'o', 'r');
    PairAbsentAppend("/api/components/" + c, "/versions/", 'o', 'r');
    PairAbsentAppend("/api/components/" + c + "/versions/", v, 'o', 'r');
    PairAbsentAppend(VersionPath(c, v), "/o", 'o', 'r');
  }

  /** The text after the last `/` of the start of such an href is the
      version. */
  lemma VersionPathLast(c: string, v: string)
    requires IdText(c) && IdText(v)
    ensures AfterLast(VersionPath(c, v), "/") == v
    ensures VersionPath(c, v)[0] == '/' && !IsSpace(VersionPath(c, v)[|VersionPath(c, v)| - 1])
  {
    IdPairs(v);
    var head := "/api/components/" + c + "/versions";
    assert VersionPath(c, v) == head + ['/'] + v;
    AfterLastOf(head, '/', v);
  }

  /** Where the origin part of such an href starts: at the first `/origins`,
      and at the first `origins/`; without one, neither occurs. */
  lemma OriginCut(c: string, v: string, o: string)
    requires IdText(c) && IdText(v)
    ensures Contains(VersionPath(c, v) + OriginPath(o), "/origins")
    ensures Before(VersionPath(c, v) + OriginPath(o), "/origins") == VersionPath(c, v)
    ensures Contains(VersionPath(c, v) + OriginPath(o), "origins/")
    ensures After(VersionPath(c, v) + OriginPath(o), "origins/") == o
    ensures Contains(VersionPath(c, v) + OriginPath(o), "origins")
    ensures !Contains(VersionPath(c, v), "/origins") && !Contains(VersionPath(c, v), "origins")
  {
    var front := VersionPath(c, v);
    SeparatorJoins();
    VersionPathPairs(c, v);
    assert front + OriginPath(o) == front + "/origins" + ("/" + o);
    FirstAtPair(front, "/origins", "/" + o);
    assert front + OriginPath(o) == (front + "/") + "origins/" + o;
    assert (front + "/") + ['o'] == front + "/o";
    FirstAtPair(front + "/", "origins/", o);
    PairAbsentAppend(front, [], '/', 'o');
    assert front + [] == front;
    PairAbsentExcludes(front, "/origins");
    PairAbsentExcludes(front, "origins");
    ContainsFront(front + OriginPath(o), "origins", "/");
  }

  /** The version id of an href whose three ids are ids. */
  lemma VersionIdOf(c: string, v: string, o: string)
    requires IdText(c) && IdText(v) && IdText(o)
    ensures VersionId(VersionPath(c, v) + OriginPath(o)) == v
  {
    IdPairs(o);
    HrefStrip(c, v, OriginPath(o));
    OriginCut(c, v, o);
    VersionPathLast(c, v);
    IdStrip(v);
  }

  /** The version id of an href without an origin part. */
  lemma VersionIdWithoutOrigin(c: string, v: string)
    requires IdText(c) && IdText(v)
    ensures VersionId(VersionPath(c, v)) == v
  {
    HrefStrip(c, v, []);
    assert VersionPath(c, v) + [] == VersionPath(c, v);
    OriginCut(c, v, "");
    AroundFirst(VersionPath(c, v), "/origins");
    VersionPathLast(c, v);
    IdStrip(v);
  }

  /** The origin id of an href whose three ids are ids. */
  lemma OriginIdOf(c: string, v: string, o: string)
    requires IdText(c) && IdText(v) && IdText(o)
    ensures OriginId(VersionPath(c, v) + OriginPath(o)) == Ok(Some(o))
  {
    IdPairs(o);
    HrefStrip(c, v, OriginPath(o));
    OriginCut(c, v, o);
    IdWhole(o);
  }

  /** An href without an origin part has no origin id. */
  lemma NoOriginIdOf(c: string, v: string)
    requires IdText(c) && IdText(v)
    ensures OriginId(VersionPath(c, v)) == Ok(None)
  {
    OriginCut(c, v, "");
  }

  lemma ExampleIds()
    ensures IdText("C1") && IdText("V1") && IdText("O1")
  {
  }

  /** A version href with an origin,
      `/api/components/C1/versions/V1/origins/O1`, gives C1, V1 and O1. */
  lemma HrefExample()
    ensures ComponentId(VersionPath("C1", "V1") + OriginPath("O1")) == Ok("C1")
    ensures VersionId(VersionPath("C1", "V1") + OriginPath("O1")) == "V1"
    ensures OriginId(VersionPath("C1", "V1") + OriginPath("O1")) == Ok(Some("O1"))
  {
    ExampleIds();
    ComponentIdOf("C1", "V1", OriginPath("O1"));
    VersionIdOf("C1", "V1", "O1");
    OriginIdOf("C1", "V1", "O1");
  }

  /** Without its origin part, the same href gives no origin. */
  lemma HrefExampleWithoutOrigin()
    ensures ComponentId(VersionPath("C1", "V1")) == Ok("C1")
    ensures VersionId(VersionPath("C1", "V1")) == "V1"
    ensures OriginId(VersionPath("C1", "V1")) == Ok(None)
  {
    ExampleIds();
    assert VersionPath("C1", "V1") + [] == VersionPath("C1", "V1");
    ComponentIdOf("C1", "V1", []);
    VersionIdWithoutOrigin("C1", "V1");
    NoOriginIdOf("C1", "V1");
  }

  // ---------------------------------------------------------------------
  // One item

  /** What one item contributes: the CVE document, and the package's name,
      version and type. */
  datatype Finding = Finding(doc: map<string, Value>, name: Value, version: Value, origin: Value)

  /** The record the parser writes, from its eleven values. */
  function VulnebDict(id: Value, description: Value, cvss: Value, status: Value, severity: Value,
                      name: Value, version: Value, link: Value, published: Value, fixed: Value)
    : (r: map<string, Value>)
    ensures r.Keys == {Cves.ID, Cves.CVE, Cves.DESCRIPTION, Cves.CVSS, Cves.STATUS, Cves.SEVERITY,
                       Cves.PACKAGENAME, Cves.PACKAGEVERSION, Cves.VENDOR_LINK_KEY, Cves.PUBLISHEDDATE,
                       Cves.FIXEDDATE}
    ensures r[Cves.ID] == id && r[Cves.CVE] == id && r[Cves.DESCRIPTION] == description
    ensures r[Cves.CVSS] == cvss && r[Cves.STATUS] == status && r[Cves.SEVERITY] == severity
    ensures r[Cves.PACKAGENAME] == name && r[Cves.PACKAGEVERSION] == version
    ensures r[Cves.VENDOR_LINK_KEY] == link && r[Cves.PUBLISHEDDATE] == published && r[Cves.FIXEDDATE] == fixed
  {
    map[
      Cves.ID := id,
      Cves.CVE := id,
      Cves.DESCRIPTION := description,
      Cves.CVSS := cvss,
      Cves.STATUS := status,
      Cves.SEVERITY := severity,
      Cves.PACKAGENAME := name,
      Cves.PACKAGEVERSION := version,
      Cves.VENDOR_LINK_KEY := link,
      Cves.PUBLISHEDDATE := published,
      Cves.FIXEDDATE := fixed
    ]
  }

  /** `item[META][HREF]`, which must then be a string for `strip()`. */
  function Href(item: Value): Result<string>
  {
    if item.JObj? && META in item.fields && item.fields[META].JObj? && HREF in item.fields[META].fields
       && item.fields[META].fields[HREF].JStr?
    then Ok(item.fields[META].fields[HREF].s)
    else Raised
  }

  /** What an item must have for the parser not to raise on it. */
  predicate WellFormed(item: Value)
  {
    && Href(item).Ok?
    && ComponentId(Href(item).value).Ok?
    && OriginId(Href(item).value).Ok?
    && VULNEB_WITH_REMEDIATION in item.fields && item.fields[VULNEB_WITH_REMEDIATION].JObj?
    && COMPONENT_NAME in item.fields && COMPONENT_VERSION_NAME in item.fields
  }

  /** The vulnerability name of a well-formed item, which the record uses as
      both its id and its cve. */
  function VulnerabilityName(item: Value): Value
    requires WellFormed(item)
  {
    Get(item.fields[VULNEB_WITH_REMEDIATION].fields, VULNERABILITY_NAME)
  }

  /** The upgrade guidance of a well-formed item, asked for with its
      three ids. */
  function Status(item: Value, fetch: (string, string, Option<string>) -> Option<Value>): string
    requires WellFormed(item)
  {
    var href := Href(item).value;
    UpgradeGuidance(fetch(ComponentId(href).value, VersionId(href), OriginId(href).value))
  }

  /** The record and the package of a well-formed item: the vulnerability
      name as both id and cve, the guidance as status, the component name
      and version, the raw href as the vendor link, and both dates
      re-encoded from the BlackDuck format to the common one (the empty
      string when they do not parse); the package's type is the origin
      name. */
  function ItemFinding(item: Value, status: string, cal: Calendar): (f: Finding)
    requires WellFormed(item)
    ensures f.doc.Keys == {Cves.ID, Cves.CVE, Cves.DESCRIPTION, Cves.CVSS, Cves.STATUS, Cves.SEVERITY,
                           Cves.PACKAGENAME, Cves.PACKAGEVERSION, Cves.VENDOR_LINK_KEY, Cves.PUBLISHEDDATE,
                           Cves.FIXEDDATE}
    ensures f.doc[Cves.ID] == VulnerabilityName(item) && f.doc[Cves.CVE] == VulnerabilityName(item)
    ensures f.doc[Cves.STATUS] == JStr(status)
    ensures f.doc[Cves.PACKAGENAME] == f.name == item.fields[COMPONENT_NAME]
    ensures f.doc[Cves.PACKAGEVERSION] == f.version == item.fields[COMPONENT_VERSION_NAME]
    ensures f.doc[Cves.VENDOR_LINK_KEY] == JStr(Href(item).value)
    ensures var vuln := item.fields[VULNEB_WITH_REMEDIATION].fields;
      && f.doc[Cves.DESCRIPTION] == Get(vuln, "description")
      && f.doc[Cves.CVSS] == Get(vuln, "overallScore")
      && f.doc[Cves.SEVERITY] == Get(vuln, "severity")
    ensures var vuln := item.fields[VULNEB_WITH_REMEDIATION].fields;
      && f.doc[Cves.PUBLISHEDDATE]
         == JStr(FormatValue(cal.formatCommonDateTime,
                             ParseValue(cal.parseBlackduckDateTime, Get(vuln, "vulnerabilityPublishedDate"))))
      && f.doc[Cves.FIXEDDATE]
         == JStr(FormatValue(cal.formatCommonDateTime,
                             ParseValue(cal.parseBlackduckDateTime, Get(vuln, "remediationUpdatedAt"))))
    ensures f.origin == Get(item.fields, COMPONENT_VERSION_ORIGIN_NAME)
  {
    var vuln := item.fields[VULNEB_WITH_REMEDIATION].fields;
    var published := FormatValue(cal.formatCommonDateTime,
                                 ParseValue(cal.parseBlackduckDateTime, Get(vuln, "vulnerabilityPublishedDate")));
    var fixed := FormatValue(cal.formatCommonDateTime,
                             ParseValue(cal.parseBlackduckDateTime, Get(vuln, "remediationUpdatedAt")));
    var doc := VulnebDict(Get(vuln, VULNERABILITY_NAME), Get(vuln, "description"), Get(vuln, "overallScore"),
                          JStr(status), Get(vuln, "severity"), item.fields[COMPONENT_NAME],
                          item.fields[COMPONENT_VERSION_NAME], JStr(Href(item).value), JStr(published),
                          JStr(fixed));
    Finding(doc, item.fields[COMPONENT_NAME], item.fields[COMPONENT_VERSION_NAME],
            Get(item.fields, COMPONENT_VERSION_ORIGIN_NAME))
  }

  /** The body of the parser loop for one item: cut the ids from the href,
      ask for the upgrade guidance (`fetch` stands for the request, giving
      the decoded body or None), build the record, and keep it only when its
      id is truthy. Raised means the item is logged and skipped. */
  function ParseItem(item: Value, fetch: (string, string, Option<string>) -> Option<Value>, cal: Calendar)
    : (r: Result<Option<Finding>>)
    ensures r.Ok? <==> WellFormed(item)
    ensures r.Ok? ==> r.value == if Truthy(VulnerabilityName(item))
                                 then Some(ItemFinding(item, Status(item, fetch), cal)) else None
  {
    match Href(item)
    case Raised => Raised
    case Ok(href) =>
      match ComponentId(href)
      case Raised => Raised
      case Ok(componentId) =>
        var versionId := VersionId(href);
        match OriginId(href)
        case Raised => Raised
        case Ok(originId) =>
          if VULNEB_WITH_REMEDIATION !in item.fields || !item.fields[VULNEB_WITH_REMEDIATION].JObj? then Raised
          else
            var status := UpgradeGuidance(fetch(componentId, versionId, originId));
            if COMPONENT_NAME !in item.fields || COMPONENT_VERSION_NAME !in item.fields then Raised
            else
              var f := ItemFinding(item, status, cal);
              if !Truthy(f.doc[Cves.ID]) then Ok(None) else Ok(Some(f))
  }

  /** What the loop keeps, in item order: the findings of the items that
      parse and have a truthy id; the others contribute nothing. */
  function Findings(items: seq<Value>, fetch: (string, string, Option<string>) -> Option<Value>, cal: Calendar)
    : (r: seq<Finding>)
    ensures |r| <= |items|
  {
    if items == [] then []
    else
      var front := Findings(items[..|items| - 1], fetch, cal);
      match ParseItem(items[|items| - 1], fetch, cal)
      case Ok(Some(f)) => front + [f]
      case _ => front
  }

  /** The CVE documents added, one per finding. */
  function CveRecords(fs: seq<Finding>): seq<Cves.Cve>
  {
    seq(|fs|, k requires 0 <= k < |fs| => Cves.Cve(Some(JObj(fs[k].doc))))
  }

  /** The packages added, one per finding: the component name and version,
      the origin name as the type, and no path. */
  function PackageRecords(fs: seq<Finding>): seq<Packages.Package>
  {
    seq(|fs|, k requires 0 <= k < |fs| => Packages.Package(fs[k].name, fs[k].origin, fs[k].version, JNull))
  }

  lemma RecordsSnoc(fs: seq<Finding>, f: Finding)
    ensures CveRecords(fs + [f]) == CveRecords(fs) + [Cves.Cve(Some(JObj(f.doc)))]
    ensures PackageRecords(fs + [f]) == PackageRecords(fs) + [Packages.Package(f.name, f.origin, f.version, JNull)]
  {
  }

  /** Every item that parses and has a truthy id is found, at its place in
      the item order; no other item is. */
  lemma {:induction false} FindingsOf(items: seq<Value>, fetch: (string, string, Option<string>) -> Option<Value>,
                                      cal: Calendar, extra: Value)
    ensures Findings(items + [extra], fetch, cal) ==
      Findings(items, fetch, cal) + (if ParseItem(extra, fetch, cal).Ok? && ParseItem(extra, fetch, cal).value.Some?
                                     then [ParseItem(extra, fetch, cal).value.value] else [])
  {
    assert (items + [extra])[..|items|] == items;
  }

  /** A CVE and its package agree: the record at each position is loaded,
      has a truthy id equal to the vulnerability name, and names the same
      package name and version as the package at that position. */
  lemma RecordsAgree(fs: seq<Finding>, items: seq<Value>, fetch: (string, string, Option<string>) -> Option<Value>,
                     cal: Calendar, k: nat)
    requires fs == Findings(items, fetch, cal) && k < |fs|
    ensures Cves.Loaded(CveRecords(fs)[k])
    ensures Truthy(Cves.GetId(CveRecords(fs)[k]))
    ensures Cves.GetPackageName(CveRecords(fs)[k]) == PackageRecords(fs)[k].name
    ensures Cves.GetPackageVersion(CveRecords(fs)[k]) == PackageRecords(fs)[k].version
    ensures PackageRecords(fs)[k].path == JNull
  {
    FindingTruthy(items, fetch, cal, k);
  }

  /** Every finding's document has a truthy id under both `id` and `cve`,
      and the package name and version it was registered with. */
  lemma {:induction false} FindingTruthy(items: seq<Value>, fetch: (string, string, Option<string>) -> Option<Value>,
                                         cal: Calendar, k: nat)
    requires k < |Findings(items, fetch, cal)|
    ensures var f := Findings(items, fetch, cal)[k];
      && Cves.ID in f.doc && Cves.CVE in f.doc && f.doc[Cves.ID] == f.doc[Cves.CVE] && Truthy(f.doc[Cves.ID])
      && Cves.PACKAGENAME in f.doc && f.doc[Cves.PACKAGENAME] == f.name
      && Cves.PACKAGEVERSION in f.doc && f.doc[Cves.PACKAGEVERSION] == f.version
  {
    var front := Findings(items[..|items| - 1], fetch, cal);
    if k < |front| {
      FindingTruthy(items[..|items| - 1], fetch, cal, k);
    }
  }

  /** One pass of the parser loop: the records of the item, when it gives a
      finding, are added to the two managers. */
  method AddFound(found: Result<Option<Finding>>, cveManager: Cves.CveManager,
                  packageManager: Packages.PackageManager)
    modifies cveManager, packageManager
    ensures found.Ok? && found.value.Some? ==>
      && cveManager.cves == old(cveManager.cves) + [Cves.Cve(Some(JObj(found.value.value.doc)))]
      && packageManager.packages == old(packageManager.packages)
           + [Packages.Package(found.value.value.name, found.value.value.origin, found.value.value.version, JNull)]
    ensures !(found.Ok? && found.value.Some?) ==>
      cveManager.cves == old(cveManager.cves) && packageManager.packages == old(packageManager.packages)
  {
    if found.Ok? && found.value.Some? {
      var f := found.value.value;
      cveManager.AddCve(Some(JObj(f.doc)));
      packageManager.AddPackage(f.name, f.version, f.origin);
    }
  }

  /** `BlackduckReportParser.__init__`: a fresh package manager and CVE
      manager filled item by item, in a report whose id and name are the
      version's, with an empty compliance manager. */
  method ParseBlackduck(items: seq<Value>, versionId: Value, versionName: Value,
                        fetch: (string, string, Option<string>) -> Option<Value>, cal: Calendar)
    returns (report: Report.ProcessedReport)
    ensures fresh(report) && fresh(report.cveManager) && fresh(report.packageManager)
    ensures fresh(report.complianceManager) && report.complianceManager.compliances == []
    ensures report.Scalars() == Report.Meta(versionId, versionName, JNull, JNull, JNull, JNull, JNull)
    ensures report.cveManager.cves == CveRecords(Findings(items, fetch, cal))
    ensures report.packageManager.packages == PackageRecords(Findings(items, fetch, cal))
  {
    var packageManager := new Packages.PackageManager();
    var cveManager := new Cves.CveManager();
    for i := 0 to |items|
      invariant cveManager.cves == CveRecords(Findings(items[..i], fetch, cal))
      invariant packageManager.packages == PackageRecords(Findings(items[..i], fetch, cal))
    {
      FindingsOf(items[..i], fetch, cal, items[i]);
      Bags.PrefixSnoc(items, i);
      var found := ParseItem(items[i], fetch, cal);
      if found.Ok? && found.value.Some? {
        RecordsSnoc(Findings(items[..i], fetch, cal), found.value.value);
      }
      AddFound(found, cveManager, packageManager);
    }
    Bags.WholePrefix(items);
    report := new Report.ProcessedReport(versionId, versionName, cveManager := cveManager,
                                         packageManager := packageManager);
  }
}
