/** The Twistlock report parser: one scan result document becomes a
    processed report. Its scalar fields are read with fallbacks, its
    packages come in one of two shapes, every vulnerability has its three
    dates resolved through a fallback chain before it is stored as a CVE,
    and both compliance lists are merged into one manager. Nothing in the
    parser catches an exception, so any exception means no report. */
module Twistlock {

  import opened Json
  import opened Dates
  import opened Text
  import Bags
  import Packages
  import Cves
  import Compliances
  import Report

  // Keys of a Twistlock scan result. The constants module that holds them
  // is not part of this model; these stand-ins are pairwise distinct.
  const ID := "_id"
  const NAME := "name"
  const REPOTAG := "repoTag"
  const DISTRO := "distro"
  const DISTRORELEASE := "distroRelease"
  const OSDISTROVERSION := "osDistroVersion"
  const DIGEST := "digest"
  const NAMESPACES := "namespaces"
  const SECRETS := "secrets"
  const PACKAGES := "packages"
  const PKGS := "pkgs"
  const PKGSTYPE := "pkgsType"
  const APPLICATIONS := "applications"
  const VULNERABILITIES := "vulnerabilities"
  const COMPLIANCEISSUES := "complianceIssues"
  const COMPLIANCES := "compliances"

  // ---------------------------------------------------------------------
  // Scalar fields

  /** `"{registry}/{repo}/{tag}"` from a repo tag dict; an absent part
      renders as `None`. */
  function RepoTagName(tag: map<string, Value>): string
  {
    PyStr(Get(tag, "registry")) + "/" + PyStr(Get(tag, "repo")) + "/" + PyStr(Get(tag, "tag"))
  }

  /** The strings of a list whose items are all strings. */
  function Strings(items: seq<Value>): (r: seq<string>)
    requires forall i :: 0 <= i < |items| ==> items[i].JStr?
    ensures |r| == |items| && forall i :: 0 <= i < |items| ==> items[i] == JStr(r[i])
  {
    seq(|items|, i requires 0 <= i < |items| => items[i].s)
  }

  /** `v = ", ".join(v)` when `v` is a list, which raises unless every item
      is a string; any other value is left as it is. */
  function JoinIfList(v: Value): (r: Result<Value>)
    ensures !v.JList? ==> r == Ok(v)
    ensures v.JList? ==> (r.Ok? <==> forall i :: 0 <= i < |v.items| ==> v.items[i].JStr?)
    ensures v.JList? && r.Ok? ==> r.value == JStr(Join(Strings(v.items), ", "))
  {
    if !v.JList? then Ok(v)
    else if forall i :: 0 <= i < |v.items| ==> v.items[i].JStr? then Ok(JStr(Join(Strings(v.items), ", ")))
    else Raised
  }

  /** Joining two names puts the separator between them, and one name is
      kept as it is. */
  lemma JoinIfListExamples(a: string, b: string)
    ensures JoinIfList(JList([JStr(a)])) == Ok(JStr(a))
    ensures JoinIfList(JList([JStr(a), JStr(b)])) == Ok(JStr(a + ", " + b))
  {
    assert Strings([JStr(a)]) == [a];
    assert Strings([JStr(a), JStr(b)]) == [a, b];
    assert Join([a, b], ", ") == a + ", " + Join([b], ", ");
  }

  /** One more name on a non-empty list is appended after `, `: the
      separator goes between every two consecutive names. */
  lemma JoinIfListSnoc(names: seq<Value>, name: string)
    requires names != [] && JoinIfList(JList(names)).Ok?
    ensures JoinIfList(JList(names + [JStr(name)])).Ok?
    ensures JoinIfList(JList(names + [JStr(name)]))
            == Ok(JStr(JoinIfList(JList(names)).value.s + ", " + name))
  {
    var all := names + [JStr(name)];
    assert forall i :: 0 <= i < |all| ==> all[i].JStr?;
    assert Strings(all) == Strings(names) + [name];
    JoinSnoc(Strings(names), name, ", ");
  }

  /** The scalar fields of the report. The name is `registry/repo/tag` when
      the repo tag is truthy (which raises unless it is a dict), and the
      document's name otherwise; the distro release is the OS distro
      version (the first read of the distro-release field is overwritten);
      the digest falls back to the id when it is falsy; namespaces and
      secrets are joined when they are lists. */
  function MetaOf(doc: map<string, Value>): (r: Result<Report.Meta>)
    ensures r.Ok? <==> (!Truthy(Get(doc, REPOTAG)) || Get(doc, REPOTAG).JObj?)
                       && JoinIfList(Get(doc, NAMESPACES)).Ok? && JoinIfList(Get(doc, SECRETS)).Ok?
    ensures r.Ok? ==> r.value.id == Get(doc, ID) && r.value.distro == Get(doc, DISTRO)
    ensures r.Ok? ==> r.value.name == if Truthy(Get(doc, REPOTAG))
                                      then JStr(RepoTagName(Get(doc, REPOTAG).fields))
                                      else Get(doc, NAME)
    ensures r.Ok? ==> r.value.distroRelease == Get(doc, OSDISTROVERSION)
    ensures r.Ok? ==> r.value.digest == if Truthy(Get(doc, DIGEST)) then Get(doc, DIGEST) else Get(doc, ID)
    ensures r.Ok? ==> r.value.namespaces == JoinIfList(Get(doc, NAMESPACES)).value
    ensures r.Ok? ==> r.value.secrets == JoinIfList(Get(doc, SECRETS)).value
  {
    var repoTag := Get(doc, REPOTAG);
    if Truthy(repoTag) && !repoTag.JObj? then Raised
    else
      var name := if Truthy(repoTag) then JStr(RepoTagName(repoTag.fields)) else Get(doc, NAME);
      var digest := if Truthy(Get(doc, DIGEST)) then Get(doc, DIGEST) else Get(doc, ID);
      match JoinIfList(Get(doc, NAMESPACES))
      case Raised => Raised
      case Ok(namespaces) =>
        match JoinIfList(Get(doc, SECRETS))
        case Raised => Raised
        case Ok(secrets) =>
          Ok(Report.Meta(Get(doc, ID), name, Get(doc, DISTRO), Get(doc, OSDISTROVERSION), digest,
                         namespaces, secrets))
  }

  // ---------------------------------------------------------------------
  // Packages

  /** One entry of the grouped shape: its type, and the package dict under
      `pkgs`; `.get` raises on anything that is not a dict. */
  function GroupedEntry(e: Value): Result<Packages.Package>
  {
    if !e.JObj? then Raised
    else
      var inner := Get(e.fields, PKGS);
      if !inner.JObj? then Raised
      else Ok(Packages.Package(Get(inner.fields, Packages.NAME), Get(e.fields, PKGSTYPE),
                              Get(inner.fields, Packages.VERSION), Get(inner.fields, Packages.PATH)))
  }

  /** The grouped loop over a list, entry by entry. */
  function GroupedEntries(items: seq<Value>): Result<seq<Packages.Package>>
  {
    if items == [] then Ok([])
    else
      match GroupedEntries(items[..|items| - 1])
      case Raised => Raised
      case Ok(ps) =>
        match GroupedEntry(items[|items| - 1])
        case Raised => Raised
        case Ok(p) => Ok(ps + [p])
  }

  /** The grouped loop: iterating a list visits its entries; iterating a
      dict visits its keys and iterating a string its characters, and
      `.get` on a string raises. */
  function GroupedPackages(p: Value): Result<seq<Packages.Package>>
  {
    match p
    case JList(items) => GroupedEntries(items)
    case JObj(fields) => if fields == map[] then Ok([]) else Raised
    case JStr(s) => if s == "" then Ok([]) else Raised
    case _ => Raised
  }

  /** One entry on which the grouped loop raises makes the whole loop
      raise. */
  lemma {:induction false} GroupedEntriesRaise(items: seq<Value>, k: nat)
    requires k < |items| && GroupedEntry(items[k]).Raised?
    ensures GroupedEntries(items) == Raised
  {
    var front := items[..|items| - 1];
    if k < |items| - 1 {
      assert front[k] == items[k];
      GroupedEntriesRaise(front, k);
    }
  }

  /** The grouped branch never completes: it runs only when `pkgs in
      packages` holds, and then the loop meets a value on which `.get`
      raises (the string `pkgs` itself in a list, a key of a dict, a
      character of a string). */
  lemma GroupedBranchRaises(p: Value)
    requires Truthy(p) && In(PKGS, p) == Ok(true)
    ensures GroupedPackages(p) == Raised
  {
    if p.JList? {
      var k :| 0 <= k < |p.items| && p.items[k] == JStr(PKGS);
      GroupedEntriesRaise(p.items, k);
    }
  }

  /** A flat entry: name, version, type and path from its own fields. */
  function FlatPackage(e: map<string, Value>): Packages.Package
  {
    Packages.Package(Get(e, Packages.NAME), Get(e, Packages.TYPE), Get(e, Packages.VERSION), Get(e, Packages.PATH))
  }

  /** An application: registered as a package with no type. */
  function AppPackage(e: map<string, Value>): Packages.Package
  {
    Packages.Package(Get(e, Packages.NAME), JNull, Get(e, Packages.VERSION), Get(e, Packages.PATH))
  }

  /** The flat loop, which runs with no guard: a missing or non-iterable
      packages field raises. Every entry is registered with its own
      fields. */
  function FlatPackages(p: Value): (r: Result<seq<Packages.Package>>)
    ensures r.Ok? <==> ObjectsOf(p).Ok?
    ensures r.Ok? ==> |r.value| == |ObjectsOf(p).value|
    ensures r.Ok? ==> forall i :: 0 <= i < |r.value| ==> r.value[i] == FlatPackage(ObjectsOf(p).value[i])
  {
    match ObjectsOf(p)
    case Raised => Raised
    case Ok(es) => Ok(seq(|es|, i requires 0 <= i < |es| => FlatPackage(es[i])))
  }

  /** The applications loop, guarded by truthiness. */
  function AppPackages(a: Value): (r: Result<seq<Packages.Package>>)
    ensures !Truthy(a) ==> r == Ok([])
    ensures Truthy(a) ==> (r.Ok? <==> ObjectsOf(a).Ok?)
    ensures Truthy(a) && r.Ok? ==> |r.value| == |ObjectsOf(a).value|
    ensures Truthy(a) && r.Ok? ==> forall i :: 0 <= i < |r.value| ==> r.value[i] == AppPackage(ObjectsOf(a).value[i])
  {
    if !Truthy(a) then Ok([])
    else
      match ObjectsOf(a)
      case Raised => Raised
      case Ok(es) => Ok(seq(|es|, i requires 0 <= i < |es| => AppPackage(es[i])))
  }

  /** Whether the grouped branch is taken: `packages and PKGS in packages`,
      where the `in` test raises on a value that does not support it. */
  function TakesGroupedBranch(p: Value): Result<bool>
  {
    if Truthy(p) then In(PKGS, p) else Ok(false)
  }

  /** All packages registered, in order: the packages field in whichever
      shape applies, then the applications. */
  function PackagesOf(doc: map<string, Value>): Result<seq<Packages.Package>>
  {
    var p := Get(doc, PACKAGES);
    match TakesGroupedBranch(p)
    case Raised => Raised
    case Ok(grouped) =>
      match (if grouped then GroupedPackages(p) else FlatPackages(p))
      case Raised => Raised
      case Ok(ps) =>
        match AppPackages(Get(doc, APPLICATIONS))
        case Raised => Raised
        case Ok(apps) => Ok(ps + apps)
  }

  /** The package outcome: flat entries then applications when the flat
      branch is taken; never any outcome when the grouped branch is. */
  lemma PackagesOfSpec(doc: map<string, Value>)
    ensures TakesGroupedBranch(Get(doc, PACKAGES)) == Ok(true) ==> PackagesOf(doc) == Raised
    ensures TakesGroupedBranch(Get(doc, PACKAGES)) == Ok(false) ==>
      PackagesOf(doc) == match FlatPackages(Get(doc, PACKAGES))
                         case Raised => Raised
                         case Ok(ps) =>
                           match AppPackages(Get(doc, APPLICATIONS))
                           case Raised => Raised
                           case Ok(apps) => Ok(ps + apps)
  {
    var p := Get(doc, PACKAGES);
    if TakesGroupedBranch(p) == Ok(true) {
      GroupedBranchRaises(p);
    }
  }

  /** A document without a packages field yields no report: the flat loop
      iterates None. */
  lemma MissingPackagesRaises(doc: map<string, Value>)
    requires PACKAGES !in doc
    ensures PackagesOf(doc) == Raised
  {
    assert Get(doc, PACKAGES) == JNull;
  }

  // ---------------------------------------------------------------------
  // Vulnerabilities

  /** The date chain for one date of a vulnerability: parse the primary
      field with the Twistlock format; if that gives nothing and the variant
      field is an int, read it as a timestamp (which raises when out of
      range); else if the variant is a string, parse it with the Twistlock
      format. */
  function ResolveDate(v: map<string, Value>, key: string, variant: string, cal: Calendar)
    : (r: Result<Option<DateTime>>)
    ensures ParseValue(cal.parseTwistlockDateTime, Get(v, key)).Some? ==>
      r == Ok(ParseValue(cal.parseTwistlockDateTime, Get(v, key)))
    ensures ParseValue(cal.parseTwistlockDateTime, Get(v, key)).None? && Get(v, variant).JInt? ==>
      r == match cal.fromTimestamp(Get(v, variant).i)
           case None => Raised
           case Some(t) => Ok(Some(t))
    ensures ParseValue(cal.parseTwistlockDateTime, Get(v, key)).None? && Get(v, variant).JStr? ==>
      r == Ok(cal.parseTwistlockDateTime(Get(v, variant).s))
    ensures !Get(v, variant).JInt? && !Get(v, variant).JStr? ==>
      r == Ok(ParseValue(cal.parseTwistlockDateTime, Get(v, key)))
  {
    var d := ParseValue(cal.parseTwistlockDateTime, Get(v, key));
    var w := Get(v, variant);
    if d.None? && w.JInt? then
      match cal.fromTimestamp(w.i)
      case None => Raised
      case Some(t) => Ok(Some(t))
    else if d.None? && w.JStr? then Ok(ParseValue(cal.parseTwistlockDateTime, w))
    else Ok(d)
  }

  /** The dict after one date is resolved and written back as common-format
      text (the empty string when no step found a date). */
  function Redate(v: map<string, Value>, key: string, variant: string, cal: Calendar)
    : (r: Result<map<string, Value>>)
    ensures r.Ok? <==> ResolveDate(v, key, variant, cal).Ok?
    ensures r.Ok? ==>
      r.value == v[key := JStr(FormatValue(cal.formatCommonDateTime, ResolveDate(v, key, variant, cal).value))]
  {
    match ResolveDate(v, key, variant, cal)
    case Raised => Raised
    case Ok(d) => Ok(v[key := JStr(FormatValue(cal.formatCommonDateTime, d))])
  }

  /** A vulnerability with its published, fixed and discovered dates
      resolved, in that order. */
  function Redated(v: map<string, Value>, cal: Calendar): Result<map<string, Value>>
  {
    match Redate(v, Cves.PUBLISHEDDATE, Cves.PUBLISHEDDATE_KUBERNETES, cal)
    case Raised => Raised
    case Ok(v1) =>
      match Redate(v1, Cves.FIXEDDATE, Cves.FIXEDDATE_KUBERNETES, cal)
      case Raised => Raised
      case Ok(v2) => Redate(v2, Cves.DISCOVEREDDATE, Cves.DISCOVEREDDATE_KUBERNETES, cal)
  }

  /** A date field holds common-format text of some date, or the empty
      string. */
  ghost predicate CanonicalDate(v: map<string, Value>, key: string, cal: Calendar)
  {
    key in v && exists d: Option<DateTime> :: v[key] == JStr(FormatValue(cal.formatCommonDateTime, d))
  }

  /** After the chain every date field holds common-format text, and every
      other field, the variant fields included, is kept. */
  lemma RedatedSpec(v: map<string, Value>, cal: Calendar)
    requires Redated(v, cal).Ok?
    ensures var r := Redated(v, cal).value;
      && r.Keys == v.Keys + {Cves.PUBLISHEDDATE, Cves.FIXEDDATE, Cves.DISCOVEREDDATE}
      && CanonicalDate(r, Cves.PUBLISHEDDATE, cal)
      && CanonicalDate(r, Cves.FIXEDDATE, cal)
      && CanonicalDate(r, Cves.DISCOVEREDDATE, cal)
      && forall k :: k in v && k !in {Cves.PUBLISHEDDATE, Cves.FIXEDDATE, Cves.DISCOVEREDDATE} ==> r[k] == v[k]
  {
    var v1 := Redate(v, Cves.PUBLISHEDDATE, Cves.PUBLISHEDDATE_KUBERNETES, cal).value;
    var v2 := Redate(v1, Cves.FIXEDDATE, Cves.FIXEDDATE_KUBERNETES, cal).value;
    var r := Redate(v2, Cves.DISCOVEREDDATE, Cves.DISCOVEREDDATE_KUBERNETES, cal).value;
    var d1 := ResolveDate(v, Cves.PUBLISHEDDATE, Cves.PUBLISHEDDATE_KUBERNETES, cal).value;
    var d2 := ResolveDate(v1, Cves.FIXEDDATE, Cves.FIXEDDATE_KUBERNETES, cal).value;
    var d3 := ResolveDate(v2, Cves.DISCOVEREDDATE, Cves.DISCOVEREDDATE_KUBERNETES, cal).value;
    assert r[Cves.PUBLISHEDDATE] == JStr(FormatValue(cal.formatCommonDateTime, d1));
    assert r[Cves.FIXEDDATE] == JStr(FormatValue(cal.formatCommonDateTime, d2));
    assert r[Cves.DISCOVEREDDATE] == JStr(FormatValue(cal.formatCommonDateTime, d3));
  }

  /** The vulnerability loop over the dicts, in order. */
  function RedateAll(vs: seq<map<string, Value>>, cal: Calendar): (r: Result<seq<map<string, Value>>>)
    ensures r.Ok? <==> forall i :: 0 <= i < |vs| ==> Redated(vs[i], cal).Ok?
    ensures r.Ok? ==> |r.value| == |vs| && forall i :: 0 <= i < |vs| ==> r.value[i] == Redated(vs[i], cal).value
  {
    if vs == [] then Ok([])
    else
      var front := vs[..|vs| - 1];
      assert forall i :: 0 <= i < |vs| - 1 ==> front[i] == vs[i];
      match RedateAll(front, cal)
      case Raised => Raised
      case Ok(rs) =>
        match Redated(vs[|vs| - 1], cal)
        case Raised => Raised
        case Ok(r) => Ok(rs + [r])
  }

  /** The vulnerabilities stored from the vulnerabilities field, when it is
      truthy. */
  function VulnsOf(vs: Value, cal: Calendar): Result<seq<map<string, Value>>>
  {
    if !Truthy(vs) then Ok([])
    else
      match ObjectsOf(vs)
      case Raised => Raised
      case Ok(dicts) => RedateAll(dicts, cal)
  }

  /** The CVE records the vulnerabilities become, one each. */
  function CveRecords(vs: seq<map<string, Value>>): (r: seq<Cves.Cve>)
    ensures |r| == |vs|
    ensures forall i :: 0 <= i < |vs| ==> r[i] == Cves.Cve(Some(JObj(vs[i])))
  {
    seq(|vs|, i requires 0 <= i < |vs| => Cves.Cve(Some(JObj(vs[i]))))
  }

  /** Under a sound calendar, the rendering of a Twistlock CVE writes back
      the dates the parser stored: the parser's re-encoding is the one the
      report uses. */
  lemma StoredDatesRenderUnchanged(vs: seq<map<string, Value>>, cal: Calendar, i: nat)
    requires CommonFormatSound(cal)
    requires i < |vs| && RedateAll(vs, cal).Ok?
    ensures var c := CveRecords(RedateAll(vs, cal).value)[i];
      && Cves.Loaded(c)
      && Cves.CveJson(c, cal)[Cves.PUBLISHEDDATE] == Cves.Field(c, Cves.PUBLISHEDDATE)
      && Cves.CveJson(c, cal)[Cves.FIXEDDATE] == Cves.Field(c, Cves.FIXEDDATE)
      && Cves.CveJson(c, cal)[Cves.DISCOVEREDDATE] == Cves.Field(c, Cves.DISCOVEREDDATE)
  {
    var r := RedateAll(vs, cal).value[i];
    RedatedSpec(vs[i], cal);
    var c := CveRecords(RedateAll(vs, cal).value)[i];
    assert c == Cves.Cve(Some(JObj(r)));
    var d1: Option<DateTime> :| r[Cves.PUBLISHEDDATE] == JStr(FormatValue(cal.formatCommonDateTime, d1));
    var d2: Option<DateTime> :| r[Cves.FIXEDDATE] == JStr(FormatValue(cal.formatCommonDateTime, d2));
    var d3: Option<DateTime> :| r[Cves.DISCOVEREDDATE] == JStr(FormatValue(cal.formatCommonDateTime, d3));
    Cves.CveJsonKeepsCanonicalDates(c, cal, Cves.PUBLISHEDDATE, d1);
    Cves.CveJsonKeepsCanonicalDates(c, cal, Cves.FIXEDDATE, d2);
    Cves.CveJsonKeepsCanonicalDates(c, cal, Cves.DISCOVEREDDATE, d3);
  }

  // ---------------------------------------------------------------------
  // Compliances

  /** The values one compliance loop visits, when its field is truthy. */
  function ComplianceValues(v: Value): Result<multiset<Value>>
  {
    if !Truthy(v) then Ok(multiset{}) else Iterated(v)
  }

  /** Both compliance loops together: every value of the compliance-issues
      list and every value of the compliances list, each as often as it
      occurs. */
  function CompliancesOf(doc: map<string, Value>): (r: Result<multiset<Value>>)
    ensures r.Ok? <==> ComplianceValues(Get(doc, COMPLIANCEISSUES)).Ok?
                       && ComplianceValues(Get(doc, COMPLIANCES)).Ok?
    ensures r.Ok? ==> r.value == ComplianceValues(Get(doc, COMPLIANCEISSUES)).value
                                 + ComplianceValues(Get(doc, COMPLIANCES)).value
  {
    match ComplianceValues(Get(doc, COMPLIANCEISSUES))
    case Raised => Raised
    case Ok(a) =>
      match ComplianceValues(Get(doc, COMPLIANCES))
      case Raised => Raised
      case Ok(b) => Ok(a + b)
  }

  /** The documents of compliance records that all have one. */
  function Docs(cs: seq<Compliances.Compliance>): (r: seq<Value>)
    requires forall i :: 0 <= i < |cs| ==> cs[i].doc.Some?
    ensures |r| == |cs| && forall i :: 0 <= i < |cs| ==> cs[i].doc == Some(r[i])
  {
    seq(|cs|, i requires 0 <= i < |cs| => cs[i].doc.value)
  }

  // ---------------------------------------------------------------------
  // The whole parse

  /** What the parser produces, before it is put into a report. */
  datatype Parts = Parts(meta: Report.Meta, packages: seq<Packages.Package>,
                         vulns: seq<map<string, Value>>, compliances: multiset<Value>)

  /** The parser's outcome: Raised when any step raises. */
  function Parse(doc: map<string, Value>, cal: Calendar): Result<Parts>
  {
    match MetaOf(doc)
    case Raised => Raised
    case Ok(meta) =>
      match PackagesOf(doc)
      case Raised => Raised
      case Ok(pkgs) =>
        match VulnsOf(Get(doc, VULNERABILITIES), cal)
        case Raised => Raised
        case Ok(vulns) =>
          match CompliancesOf(doc)
          case Raised => Raised
          case Ok(comps) => Ok(Parts(meta, pkgs, vulns, comps))
  }

  /** One CVE per vulnerability entry, and the packages are the flat
      entries followed by the applications. */
  lemma ParseCounts(doc: map<string, Value>, cal: Calendar)
    requires Parse(doc, cal).Ok? && Truthy(Get(doc, VULNERABILITIES))
    ensures ObjectsOf(Get(doc, VULNERABILITIES)).Ok?
    ensures |Parse(doc, cal).value.vulns| == |ObjectsOf(Get(doc, VULNERABILITIES)).value|
    ensures TakesGroupedBranch(Get(doc, PACKAGES)) == Ok(false)
  {
    PackagesOfSpec(doc);
  }

  // ---------------------------------------------------------------------
  // The parser, step by step

  /** Reads the scalar fields in the parser's order, reassigning its locals
      as it goes. */
  method ReadMeta(doc: map<string, Value>) returns (r: Result<Report.Meta>)
    ensures r == MetaOf(doc)
  {
    var id := Get(doc, ID);
    var name := Get(doc, NAME);
    var repoTag := Get(doc, REPOTAG);
    if Truthy(repoTag) {
      if !repoTag.JObj? {
        return Raised;
      }
      name := JStr(RepoTagName(repoTag.fields));
    }
    var distro := Get(doc, DISTRO);
    var distroVersion := Get(doc, DISTRORELEASE);
    distroVersion := Get(doc, OSDISTROVERSION);
    var digest := Get(doc, DIGEST);
    if !Truthy(digest) {
      digest := id;
    }
    var namespaces := JoinIfList(Get(doc, NAMESPACES));
    if namespaces.Raised? {
      return Raised;
    }
    var secrets := JoinIfList(Get(doc, SECRETS));
    if secrets.Raised? {
      return Raised;
    }
    r := Ok(Report.Meta(id, name, distro, distroVersion, digest, namespaces.value, secrets.value));
  }

  /** The grouped package loop: each entry's type, then its inner package
      dict, is read and registered. On `false` the loop raised. */
  method AddGroupedPackages(pm: Packages.PackageManager, p: Value) returns (ok: bool)
    modifies pm
    ensures ok == GroupedPackages(p).Ok?
    ensures ok ==> pm.packages == old(pm.packages) + GroupedPackages(p).value
  {
    if !p.JList? {
      return GroupedPackages(p).Ok?;
    }
    var items := p.items;
    ghost var start := pm.packages;
    for i := 0 to |items|
      invariant GroupedEntries(items[..i]).Ok?
      invariant pm.packages == start + GroupedEntries(items[..i]).value
    {
      Bags.PrefixOfPrefix(items, i);
      var e := items[i];
      if !e.JObj? {
        GroupedEntriesRaise(items, i);
        return false;
      }
      var pkgType := Get(e.fields, PKGSTYPE);
      var inner := Get(e.fields, PKGS);
      if !inner.JObj? {
        GroupedEntriesRaise(items, i);
        return false;
      }
      pm.AddPackage(Get(inner.fields, Packages.NAME), Get(inner.fields, Packages.VERSION), pkgType,
                    Get(inner.fields, Packages.PATH));
    }
    Bags.WholePrefix(items);
    ok := true;
  }

  /** The flat package loop, over the entries `ObjectsOf` finds. An entry
      that is not a dict raises at its turn; since the parser catches
      nothing, raising there or before the loop leaves no report either
      way. */
  method AddFlatPackages(pm: Packages.PackageManager, p: Value) returns (ok: bool)
    modifies pm
    ensures ok == FlatPackages(p).Ok?
    ensures ok ==> pm.packages == old(pm.packages) + FlatPackages(p).value
  {
    var entries := ObjectsOf(p);
    if entries.Raised? {
      return false;
    }
    var es := entries.value;
    ghost var start := pm.packages;
    for i := 0 to |es|
      invariant pm.packages == start + FlatPackages(p).value[..i]
    {
      Bags.PrefixSnoc(FlatPackages(p).value, i);
      pm.AddPackage(Get(es[i], Packages.NAME), Get(es[i], Packages.VERSION), Get(es[i], Packages.TYPE),
                    Get(es[i], Packages.PATH));
    }
    Bags.WholePrefix(FlatPackages(p).value);
    ok := true;
  }

  /** The applications loop: when the field is truthy, each application is
      registered with no type. */
  method AddApplications(pm: Packages.PackageManager, a: Value) returns (ok: bool)
    modifies pm
    ensures ok == AppPackages(a).Ok?
    ensures ok ==> pm.packages == old(pm.packages) + AppPackages(a).value
  {
    if !Truthy(a) {
      return true;
    }
    var entries := ObjectsOf(a);
    if entries.Raised? {
      return false;
    }
    var es := entries.value;
    ghost var start := pm.packages;
    for i := 0 to |es|
      invariant pm.packages == start + AppPackages(a).value[..i]
    {
      Bags.PrefixSnoc(AppPackages(a).value, i);
      pm.AddPackage(Get(es[i], Packages.NAME), Get(es[i], Packages.VERSION), JNull, Get(es[i], Packages.PATH));
    }
    Bags.WholePrefix(AppPackages(a).value);
    ok := true;
  }

  /** One date of a vulnerability: the parser writes each step's date into
      the dict and tests the dict again, which is the local `date` here;
      only the final text remains in the dict. */
  method RedateField(v: map<string, Value>, key: string, variant: string, cal: Calendar)
    returns (r: Result<map<string, Value>>)
    ensures r == Redate(v, key, variant, cal)
  {
    var date := ParseValue(cal.parseTwistlockDateTime, Get(v, key));
    if date.None? && Get(v, variant).JInt? {
      date := cal.fromTimestamp(Get(v, variant).i);
      if date.None? {
        return Raised;
      }
    }
    if date.None? && Get(v, variant).JStr? {
      date := cal.parseTwistlockDateTime(Get(v, variant).s);
    }
    r := Ok(v[key := JStr(FormatValue(cal.formatCommonDateTime, date))]);
  }

  /** The three dates of one vulnerability, in the parser's order. */
  method RedateVulnerability(v: map<string, Value>, cal: Calendar) returns (r: Result<map<string, Value>>)
    ensures r == Redated(v, cal)
  {
    var v1 := RedateField(v, Cves.PUBLISHEDDATE, Cves.PUBLISHEDDATE_KUBERNETES, cal);
    if v1.Raised? {
      return Raised;
    }
    var v2 := RedateField(v1.value, Cves.FIXEDDATE, Cves.FIXEDDATE_KUBERNETES, cal);
    if v2.Raised? {
      return Raised;
    }
    r := RedateField(v2.value, Cves.DISCOVEREDDATE, Cves.DISCOVEREDDATE_KUBERNETES, cal);
  }

  /** A vulnerability loop that reaches one more dict extends what it
      stored by that dict's redated form. */
  lemma RedateAllSnoc(dicts: seq<map<string, Value>>, i: nat, cal: Calendar)
    requires i < |dicts| && RedateAll(dicts[..i], cal).Ok? && Redated(dicts[i], cal).Ok?
    ensures RedateAll(dicts[..i + 1], cal) == Ok(RedateAll(dicts[..i], cal).value + [Redated(dicts[i], cal).value])
  {
    Bags.PrefixOfPrefix(dicts, i);
  }

  lemma CveRecordsSnoc(vs: seq<map<string, Value>>, v: map<string, Value>)
    ensures CveRecords(vs + [v]) == CveRecords(vs) + [Cves.Cve(Some(JObj(v)))]
  {
  }

  /** The body of the vulnerability loop over the dicts: each is redated
      and stored as a new CVE. On `false` a date raised. */
  method StoreVulnerabilities(cm: Cves.CveManager, dicts: seq<map<string, Value>>, cal: Calendar)
    returns (ok: bool)
    modifies cm
    ensures ok == RedateAll(dicts, cal).Ok?
    ensures ok ==> cm.cves == old(cm.cves) + CveRecords(RedateAll(dicts, cal).value)
  {
    ghost var start := cm.cves;
    for i := 0 to |dicts|
      invariant RedateAll(dicts[..i], cal).Ok?
      invariant cm.cves == start + CveRecords(RedateAll(dicts[..i], cal).value)
    {
      var v := RedateVulnerability(dicts[i], cal);
      if v.Raised? {
        return false;
      }
      RedateAllSnoc(dicts, i, cal);
      CveRecordsSnoc(RedateAll(dicts[..i], cal).value, v.value);
      cm.AddCve(Some(JObj(v.value)));
    }
    Bags.WholePrefix(dicts);
    ok := true;
  }

  /** The vulnerability loop: when the field is truthy, its entries must
      all be dicts, and each is redated and stored. */
  method AddVulnerabilities(cm: Cves.CveManager, vs: Value, cal: Calendar) returns (ok: bool)
    modifies cm
    ensures ok == VulnsOf(vs, cal).Ok?
    ensures ok ==> cm.cves == old(cm.cves) + CveRecords(VulnsOf(vs, cal).value)
  {
    if !Truthy(vs) {
      return true;
    }
    var entries := ObjectsOf(vs);
    if entries.Raised? {
      return false;
    }
    ok := StoreVulnerabilities(cm, entries.value, cal);
  }

  /** The compliance records the documents become, one each. */
  function ComplianceRecords(vs: seq<Value>): (r: seq<Compliances.Compliance>)
    ensures |r| == |vs| && forall i :: 0 <= i < |vs| ==> r[i].doc == Some(vs[i])
  {
    seq(|vs|, i requires 0 <= i < |vs| => Compliances.Compliance(Some(vs[i])))
  }

  lemma ComplianceRecordsSnoc(vs: seq<Value>, x: Value)
    ensures ComplianceRecords(vs + [x]) == ComplianceRecords(vs) + [Compliances.Compliance(Some(x))]
  {
  }

  lemma ExtendRecords(start: seq<Compliances.Compliance>, added: seq<Value>, x: Value)
    ensures start + ComplianceRecords(added) + [Compliances.Compliance(Some(x))]
            == start + ComplianceRecords(added + [x])
  {
    ComplianceRecordsSnoc(added, x);
  }

  lemma ComplianceRecordsAppend(vs: seq<Value>, ws: seq<Value>)
    ensures ComplianceRecords(vs + ws) == ComplianceRecords(vs) + ComplianceRecords(ws)
  {
  }

  /** Every record built from documents has its document back. */
  lemma DocsOfRecords(vs: seq<Value>)
    ensures forall i :: 0 <= i < |vs| ==> ComplianceRecords(vs)[i].doc.Some?
    ensures Docs(ComplianceRecords(vs)) == vs
  {
  }

  /** A compliance loop over a list of values (a list's items or a
      string's characters): each is stored, in order. */
  method StoreCompliances(cm: Compliances.ComplianceManager, vs: seq<Value>)
    modifies cm
    ensures cm.compliances == old(cm.compliances) + ComplianceRecords(vs)
  {
    ghost var start := cm.compliances;
    for i := 0 to |vs|
      invariant cm.compliances == start + ComplianceRecords(vs[..i])
    {
      Bags.PrefixSnoc(vs, i);
      ExtendRecords(start, vs[..i], vs[i]);
      cm.AddCompliance(Some(vs[i]));
    }
    Bags.WholePrefix(vs);
  }

  /** A compliance loop over a dict: each key is stored once, picked in an
      arbitrary order (the result is compared as a bag). */
  method StoreKeys(cm: Compliances.ComplianceManager, fields: map<string, Value>) returns (added: seq<Value>)
    modifies cm
    ensures cm.compliances == old(cm.compliances) + ComplianceRecords(added)
    ensures multiset(added) == multiset(set k | k in fields.Keys :: JStr(k))
  {
    added := [];
    ghost var start := cm.compliances;
    var remaining := fields.Keys;
    ghost var seen: set<string> := {};
    while remaining != {}
      invariant remaining + seen == fields.Keys && remaining !! seen
      invariant cm.compliances == start + ComplianceRecords(added)
      invariant multiset(added) == multiset(set k | k in seen :: JStr(k))
      decreases |remaining|
    {
      var k :| k in remaining;
      KeyStep(added, seen, k);
      ExtendRecords(start, added, JStr(k));
      cm.AddCompliance(Some(JStr(k)));
      added := added + [JStr(k)];
      remaining := remaining - {k};
      seen := seen + {k};
    }
  }

  /** Visiting one more key adds its string once to the bag of visited
      keys. */
  lemma KeyStep(added: seq<Value>, seen: set<string>, k: string)
    requires k !in seen && multiset(added) == multiset(set x | x in seen :: JStr(x))
    ensures multiset(added + [JStr(k)]) == multiset(set x | x in seen + {k} :: JStr(x))
  {
    var before := set x | x in seen :: JStr(x);
    assert (set x | x in seen + {k} :: JStr(x)) == before + {JStr(k)};
    assert JStr(k) !in before;
  }

  /** One compliance loop: when the field is truthy, every value iterating
      it visits is stored as a compliance record. On `false` the field was
      not iterable. */
  method AddCompliances(cm: Compliances.ComplianceManager, v: Value) returns (ok: bool, added: seq<Value>)
    modifies cm
    ensures ok == ComplianceValues(v).Ok?
    ensures cm.compliances == old(cm.compliances) + ComplianceRecords(added)
    ensures ok ==> multiset(added) == ComplianceValues(v).value
  {
    added := [];
    if !Truthy(v) {
      return true, added;
    }
    match v
    case JList(items) =>
      StoreCompliances(cm, items);
      ok, added := true, items;
    case JStr(s) =>
      StoreCompliances(cm, Chars(s));
      ok, added := true, Chars(s);
    case JObj(fields) =>
      added := StoreKeys(cm, fields);
      ok := true;
    case _ =>
      ok := false;
  }

  /** Both package steps: the packages field in whichever shape the test
      picks, then the applications. */
  method AddAllPackages(pm: Packages.PackageManager, doc: map<string, Value>) returns (ok: bool)
    modifies pm
    ensures ok == PackagesOf(doc).Ok?
    ensures ok ==> pm.packages == old(pm.packages) + PackagesOf(doc).value
  {
    var p := Get(doc, PACKAGES);
    var grouped := TakesGroupedBranch(p);
    if grouped.Raised? {
      return false;
    }
    if grouped.value {
      ok := AddGroupedPackages(pm, p);
    } else {
      ok := AddFlatPackages(pm, p);
    }
    if !ok {
      return false;
    }
    ok := AddApplications(pm, Get(doc, APPLICATIONS));
  }

  /** Both compliance loops, into one manager: the records added hold the
      values of both fields. */
  method AddAllCompliances(cm: Compliances.ComplianceManager, doc: map<string, Value>)
    returns (ok: bool, docs: seq<Value>)
    modifies cm
    ensures ok == CompliancesOf(doc).Ok?
    ensures cm.compliances == old(cm.compliances) + ComplianceRecords(docs)
    ensures ok ==> multiset(docs) == CompliancesOf(doc).value
  {
    var issues: seq<Value>;
    ok, issues := AddCompliances(cm, Get(doc, COMPLIANCEISSUES));
    if !ok {
      return false, issues;
    }
    var more: seq<Value>;
    ok, more := AddCompliances(cm, Get(doc, COMPLIANCES));
    ComplianceRecordsAppend(issues, more);
    docs := issues + more;
  }

  /** `TwistlockReportParser(...)`: the whole parse of one scan result into
      a new processed report, or null when any step raises. The report's
      fields and collections are exactly those `Parse` describes. */
  method ParseTwistlock(doc: map<string, Value>, cal: Calendar) returns (report: Report.ProcessedReport?)
    ensures report == null <==> Parse(doc, cal).Raised?
    ensures report != null ==> fresh(report) && fresh(report.cveManager)
    ensures report != null ==> fresh(report.packageManager) && fresh(report.complianceManager)
    ensures report != null ==> report.Scalars() == Parse(doc, cal).value.meta
    ensures report != null ==> report.packageManager.packages == Parse(doc, cal).value.packages
    ensures report != null ==> report.cveManager.cves == CveRecords(Parse(doc, cal).value.vulns)
    ensures report != null ==>
      (forall i :: 0 <= i < |report.complianceManager.compliances| ==> report.complianceManager.compliances[i].doc.Some?)
    ensures report != null ==>
      multiset(Docs(report.complianceManager.compliances)) == Parse(doc, cal).value.compliances
  {
    var packageManager := new Packages.PackageManager();
    var cveManager := new Cves.CveManager();
    var complianceManager := new Compliances.ComplianceManager();
    var meta := ReadMeta(doc);
    if meta.Raised? {
      return null;
    }
    var ok := AddAllPackages(packageManager, doc);
    if !ok {
      return null;
    }
    assert packageManager.packages == PackagesOf(doc).value;
    ok := AddVulnerabilities(cveManager, Get(doc, VULNERABILITIES), cal);
    if !ok {
      return null;
    }
    assert cveManager.cves == CveRecords(VulnsOf(Get(doc, VULNERABILITIES), cal).value);
    var docs: seq<Value>;
    ok, docs := AddAllCompliances(complianceManager, doc);
    if !ok {
      return null;
    }
    assert complianceManager.compliances == ComplianceRecords(docs);
    DocsOfRecords(docs);
    assert Parse(doc, cal) == Ok(Parts(meta.value, PackagesOf(doc).value,
                                       VulnsOf(Get(doc, VULNERABILITIES), cal).value, CompliancesOf(doc).value));
    report := new Report.ProcessedReport(meta.value.id, meta.value.name, meta.value.distro,
                                         meta.value.distroRelease, meta.value.digest,
                                         meta.value.namespaces, meta.value.secrets, cveManager,
                                         packageManager, complianceManager);
  }
}
