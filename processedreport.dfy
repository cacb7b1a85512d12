/** The processed report: scalar metadata of one scanned artifact plus its
    CVE, package and compliance managers, and the assembly of the nested
    report that groups CVEs by package name and version. */
module Report {

  import opened Json
  import opened Dates
  import Bags
  import Packages
  import Cves
  import Compliances

  /** One (name, version) entry of `cve_results`: the distinct paths of the
      packages with that name and version, and the rendered CVEs by id. The
      source writes the paths as a list built from a set, in no fixed order;
      the model keeps the set. */
  datatype Bucket = Bucket(path: set<Value>, cves: map<Value, map<string, Value>>)

  /** `cve_results`: package name, then package version, then the bucket. */
  type Results = map<Value, map<Value, Bucket>>

  /** The scalar fields the report copies into its output unchanged. */
  datatype Meta = Meta(id: Value, name: Value, distro: Value, distroRelease: Value, digest: Value,
                       namespaces: Value, secrets: Value)

  /** The dict `toJson` returns. */
  datatype ReportJson = ReportJson(meta: Meta, cveResults: Results,
                                   complianceResults: seq<map<string, Value>>)

  // ---------------------------------------------------------------------
  // Paths of a (name, version) pair

  /** `set(paths)` over the given packages: raises when a path cannot be
      hashed. */
  function PathSet(ps: seq<Packages.Package>): (r: Result<set<Value>>)
    ensures r.Ok? <==> forall i :: 0 <= i < |ps| ==> Hashable(ps[i].path)
    ensures r.Ok? ==> forall p :: p in r.value <==> exists i :: 0 <= i < |ps| && ps[i].path == p
  {
    if ps == [] then Ok({})
    else
      match PathSet(ps[..|ps| - 1])
      case Raised => Raised
      case Ok(front) =>
        var p := ps[|ps| - 1].path;
        assert forall i :: 0 <= i < |ps| - 1 ==> ps[..|ps| - 1][i] == ps[i];
        if Hashable(p) then Ok(front + {p}) else Raised
  }

  /** Every package with this name and version has a hashable path. */
  predicate PathsHashable(pkgs: seq<Packages.Package>, name: Value, version: Value)
  {
    forall i :: 0 <= i < |pkgs| && pkgs[i].name == name && pkgs[i].version == version ==>
      Hashable(pkgs[i].path)
  }

  /** The `path` entry of a (name, version) pair: the paths of the stored
      packages with that name and version, duplicates removed, and empty
      when no package matches. Computing it fails exactly when one of those
      paths is unhashable. */
  function Paths(pkgs: seq<Packages.Package>, name: Value, version: Value): (r: Result<set<Value>>)
    ensures r.Ok? <==> PathsHashable(pkgs, name, version)
    ensures r.Ok? ==> forall p :: p in r.value <==>
      exists i :: 0 <= i < |pkgs| && pkgs[i].name == name && pkgs[i].version == version && pkgs[i].path == p
  {
    if pkgs == [] then Ok({})
    else
      var front, last := pkgs[..|pkgs| - 1], pkgs[|pkgs| - 1];
      assert forall i :: 0 <= i < |pkgs| - 1 ==> front[i] == pkgs[i];
      match Paths(front, name, version)
      case Raised => Raised
      case Ok(ps) =>
        if last.name == name && last.version == version then
          if Hashable(last.path) then Ok(ps + {last.path}) else Raised
        else Ok(ps)
  }

  /** The packages a name-and-version query returns are the stored ones
      with that name and version. */
  lemma QueryMembers(ms: seq<Packages.Package>, pkgs: seq<Packages.Package>, name: Value, version: Value)
    requires forall p :: multiset(ms)[p] ==
                         (if p.name == name && p.version == version then multiset(pkgs)[p] else 0)
    ensures forall p :: p in ms <==> p in pkgs && p.name == name && p.version == version
  {
    forall p ensures p in ms <==> p in pkgs && p.name == name && p.version == version {
      assert multiset(ms)[p] == if p.name == name && p.version == version then multiset(pkgs)[p] else 0;
    }
  }

  /** Collecting the paths of the packages a name-and-version query returns
      gives the pair's paths. */
  lemma CollectedPaths(ms: seq<Packages.Package>, pkgs: seq<Packages.Package>, name: Value, version: Value)
    requires forall p :: p in ms <==> p in pkgs && p.name == name && p.version == version
    ensures PathSet(ms) == Paths(pkgs, name, version)
  {
    if PathsHashable(pkgs, name, version) {
      forall j | 0 <= j < |ms| ensures Hashable(ms[j].path) {
        assert ms[j] in pkgs;
      }
      SameMemberPaths(ms, pkgs, name, version);
    } else {
      var i :| 0 <= i < |pkgs| && pkgs[i].name == name && pkgs[i].version == version && !Hashable(pkgs[i].path);
      assert pkgs[i] in ms;
    }
  }

  lemma SameMemberPaths(ms: seq<Packages.Package>, pkgs: seq<Packages.Package>, name: Value, version: Value)
    requires forall p :: p in ms <==> p in pkgs && p.name == name && p.version == version
    requires PathSet(ms).Ok? && Paths(pkgs, name, version).Ok?
    ensures PathSet(ms).value == Paths(pkgs, name, version).value
  {
    var a, b := PathSet(ms).value, Paths(pkgs, name, version).value;
    forall p ensures p in a <==> p in b {
      if p in a {
        var j :| 0 <= j < |ms| && ms[j].path == p;
        assert ms[j] in pkgs;
        var i :| 0 <= i < |pkgs| && pkgs[i] == ms[j];
      }
      if p in b {
        var i :| 0 <= i < |pkgs| && pkgs[i].name == name && pkgs[i].version == version && pkgs[i].path == p;
        assert pkgs[i] in ms;
        var j :| 0 <= j < |ms| && ms[j] == pkgs[i];
      }
    }
  }

  // ---------------------------------------------------------------------
  // Grouping the CVEs

  /** Where a CVE is filed: its package name, package version and id. */
  function Slot(c: Cves.Cve): (Value, Value, Value)
    requires Cves.Loaded(c)
  {
    (Cves.GetPackageName(c), Cves.GetPackageVersion(c), Cves.GetId(c))
  }

  /** What filing a CVE needs: working getters, hashable keys, and
      hashable paths for its package. */
  predicate Placeable(c: Cves.Cve, pkgs: seq<Packages.Package>)
  {
    && Cves.Loaded(c)
    && Hashable(Cves.GetPackageName(c))
    && Hashable(Cves.GetPackageVersion(c))
    && Hashable(Cves.GetId(c))
    && PathsHashable(pkgs, Cves.GetPackageName(c), Cves.GetPackageVersion(c))
  }

  /** One iteration of the CVE loop: file the CVE under its name and
      version, creating the entries on first use (the paths are computed
      only then), and store its rendering under its id, replacing an
      earlier CVE with the same id. */
  function Place(acc: Results, c: Cves.Cve, pkgs: seq<Packages.Package>, cal: Calendar): Result<Results>
  {
    if !Cves.Loaded(c) then Raised
    else
      var name, version := Cves.GetPackageName(c), Cves.GetPackageVersion(c);
      if !Hashable(name) || !Hashable(version) then Raised
      else
        var inner := if name in acc then acc[name] else map[];
        var bucket :=
          if version in inner then Ok(inner[version])
          else match Paths(pkgs, name, version)
            case Raised => Raised
            case Ok(ps) => Ok(Bucket(ps, map[]));
        match bucket
        case Raised => Raised
        case Ok(b) =>
          var id := Cves.GetId(c);
          if !Hashable(id) then Raised
          else Ok(acc[name := inner[version := b.(cves := b.cves[id := Cves.CveJson(c, cal)])]])
  }

  /** The CVE loop over the stored CVEs, in their order. */
  function Group(s: seq<Cves.Cve>, pkgs: seq<Packages.Package>, cal: Calendar): Result<Results>
  {
    if s == [] then Ok(map[])
    else
      match Group(s[..|s| - 1], pkgs, cal)
      case Raised => Raised
      case Ok(acc) => Place(acc, s[|s| - 1], pkgs, cal)
  }

  /** Every bucket holds the paths of its pair. */
  ghost predicate PathsComputed(acc: Results, pkgs: seq<Packages.Package>)
  {
    forall name, version :: name in acc && version in acc[name] ==>
      Paths(pkgs, name, version) == Ok(acc[name][version].path)
  }

  /** Filing keeps the paths right and succeeds exactly for placeable CVEs. */
  lemma PlaceStep(acc: Results, c: Cves.Cve, pkgs: seq<Packages.Package>, cal: Calendar)
    requires PathsComputed(acc, pkgs)
    ensures Place(acc, c, pkgs, cal).Ok? <==> Placeable(c, pkgs)
    ensures Place(acc, c, pkgs, cal).Ok? ==> PathsComputed(Place(acc, c, pkgs, cal).value, pkgs)
  {
    if Cves.Loaded(c) {
      var name, version := Cves.GetPackageName(c), Cves.GetPackageVersion(c);
      var inner := if name in acc then acc[name] else map[];
      if Hashable(name) && Hashable(version) && version in inner {
        assert Paths(pkgs, name, version) == Ok(inner[version].path);
      }
      var r := Place(acc, c, pkgs, cal);
      if r.Ok? {
        forall n, v | n in r.value && v in r.value[n]
          ensures Paths(pkgs, n, v) == Ok(r.value[n][v].path)
        {
          if n != name || v != version {
            assert v in acc[n] && r.value[n][v] == acc[n][v];
          }
        }
      }
    }
  }

  /** Once the loop has raised, it stays raised. */
  lemma {:induction false} GroupRaisedExtends(s: seq<Cves.Cve>, k: nat, pkgs: seq<Packages.Package>, cal: Calendar)
    requires k <= |s| && Group(s[..k], pkgs, cal).Raised?
    ensures Group(s, pkgs, cal).Raised?
    decreases |s| - k
  {
    if k < |s| {
      assert s[..k + 1][..k] == s[..k];
      GroupRaisedExtends(s, k + 1, pkgs, cal);
    } else {
      assert s[..k] == s;
    }
  }

  /** Every CVE of the sequence can be filed. */
  predicate AllPlaceable(s: seq<Cves.Cve>, pkgs: seq<Packages.Package>)
  {
    forall i :: 0 <= i < |s| ==> Placeable(s[i], pkgs)
  }

  lemma AllPlaceableSnoc(s: seq<Cves.Cve>, pkgs: seq<Packages.Package>)
    requires s != []
    ensures AllPlaceable(s, pkgs) <==> AllPlaceable(s[..|s| - 1], pkgs) && Placeable(s[|s| - 1], pkgs)
  {
    assert forall i :: 0 <= i < |s| - 1 ==> s[..|s| - 1][i] == s[i];
  }

  /** The loop succeeds exactly when every CVE can be filed, and then every
      bucket holds the paths of its pair. */
  lemma {:induction false} GroupOk(s: seq<Cves.Cve>, pkgs: seq<Packages.Package>, cal: Calendar)
    ensures Group(s, pkgs, cal).Ok? <==> AllPlaceable(s, pkgs)
    ensures Group(s, pkgs, cal).Ok? ==> PathsComputed(Group(s, pkgs, cal).value, pkgs)
  {
    if s != [] {
      var front, last := s[..|s| - 1], s[|s| - 1];
      GroupOk(front, pkgs, cal);
      var g := Group(front, pkgs, cal);
      AllPlaceableSnoc(s, pkgs);
      if g.Ok? {
        PlaceStep(g.value, last, pkgs, cal);
        assert Group(s, pkgs, cal) == Place(g.value, last, pkgs, cal);
      } else {
        assert Group(s, pkgs, cal).Raised?;
      }
    }
  }

  // ---------------------------------------------------------------------
  // What the grouping contains

  /** A rendered CVE is stored at `cve_results[name][version]["cves"][id]`. */
  predicate Filed(m: Results, name: Value, version: Value, id: Value)
  {
    name in m && version in m[name] && id in m[name][version].cves
  }

  function Entry(m: Results, name: Value, version: Value, id: Value): map<string, Value>
    requires Filed(m, name, version, id)
  {
    m[name][version].cves[id]
  }

  /** No name without a version and no version without a CVE: every entry
      was created for some CVE. */
  predicate NoEmptyEntries(m: Results)
  {
    && (forall name :: name in m ==> m[name] != map[])
    && (forall name, version :: name in m && version in m[name] ==> m[name][version].cves != map[])
  }

  /** The CVE is loaded and is filed under this name, version and id. */
  predicate FiledAs(c: Cves.Cve, name: Value, version: Value, id: Value)
  {
    Cves.Loaded(c) && Slot(c) == (name, version, id)
  }

  /** Two CVEs go to the same place. */
  predicate SameSlot(c: Cves.Cve, d: Cves.Cve)
  {
    Cves.Loaded(c) && Cves.Loaded(d) && Slot(c) == Slot(d)
  }

  /** Filing a CVE: it is stored under its slot with its rendering. */
  lemma PlaceFiles(acc: Results, c: Cves.Cve, pkgs: seq<Packages.Package>, cal: Calendar)
    requires Place(acc, c, pkgs, cal).Ok?
    ensures Cves.Loaded(c)
    ensures var m, slot := Place(acc, c, pkgs, cal).value, Slot(c);
      Filed(m, slot.0, slot.1, slot.2) && Entry(m, slot.0, slot.1, slot.2) == Cves.CveJson(c, cal)
  {
  }

  /** Filing a CVE adds its slot and nothing else. */
  lemma PlaceAddsSlot(acc: Results, c: Cves.Cve, pkgs: seq<Packages.Package>, cal: Calendar)
    requires Place(acc, c, pkgs, cal).Ok?
    ensures var m := Place(acc, c, pkgs, cal).value;
      forall n, v, id :: Filed(m, n, v, id) <==> Filed(acc, n, v, id) || FiledAs(c, n, v, id)
  {
    var m := Place(acc, c, pkgs, cal).value;
    var name, version := Cves.GetPackageName(c), Cves.GetPackageVersion(c);
    forall n, v, i ensures Filed(m, n, v, i) <==> Filed(acc, n, v, i) || FiledAs(c, n, v, i) {
      if n != name || v != version {
        assert Filed(m, n, v, i) <==> Filed(acc, n, v, i);
      }
    }
  }

  /** Filing a CVE keeps the rendering stored under every other slot. */
  lemma PlaceKeepsOthers(acc: Results, c: Cves.Cve, pkgs: seq<Packages.Package>, cal: Calendar,
                         n: Value, v: Value, id: Value)
    requires Place(acc, c, pkgs, cal).Ok? && Filed(acc, n, v, id) && !FiledAs(c, n, v, id)
    ensures var m := Place(acc, c, pkgs, cal).value;
      Filed(m, n, v, id) && Entry(m, n, v, id) == Entry(acc, n, v, id)
  {
    var m := Place(acc, c, pkgs, cal).value;
    var name, version := Cves.GetPackageName(c), Cves.GetPackageVersion(c);
    if n != name {
      assert m[n] == acc[n];
    } else if v != version {
      assert m[n][v] == acc[n][v];
    } else {
      assert id != Cves.GetId(c);
      assert m[n][v].cves[id] == acc[n][v].cves[id];
    }
  }

  /** Filing a CVE creates no empty entry. */
  lemma PlaceNoEmpty(acc: Results, c: Cves.Cve, pkgs: seq<Packages.Package>, cal: Calendar)
    requires Place(acc, c, pkgs, cal).Ok? && NoEmptyEntries(acc)
    ensures NoEmptyEntries(Place(acc, c, pkgs, cal).value)
  {
    var m: Results := Place(acc, c, pkgs, cal).value;
    var name, version := Cves.GetPackageName(c), Cves.GetPackageVersion(c);
    PlaceFiles(acc, c, pkgs, cal);
    forall n | n in m ensures m[n] != map[] {
      if n == name {
        assert version in m[n];
      } else {
        assert m[n] == acc[n];
      }
    }
    forall n, v | n in m && v in m[n] ensures m[n][v].cves != map[] {
      if n == name && v == version {
        assert Cves.GetId(c) in m[n][v].cves;
      } else {
        assert v in acc[n] && m[n][v] == acc[n][v];
      }
    }
  }

  /** Every slot of the grouping is the slot of one of the CVEs, and every
      CVE's slot is there. */
  ghost predicate FilesExactly(m: Results, s: seq<Cves.Cve>)
  {
    forall n, v, id :: Filed(m, n, v, id) <==> exists i :: 0 <= i < |s| && FiledAs(s[i], n, v, id)
  }

  lemma FilesExactlySnoc(acc: Results, m: Results, s: seq<Cves.Cve>)
    requires s != [] && FilesExactly(acc, s[..|s| - 1])
    requires forall n, v, id :: Filed(m, n, v, id) <==> Filed(acc, n, v, id) || FiledAs(s[|s| - 1], n, v, id)
    ensures FilesExactly(m, s)
  {
    var front := s[..|s| - 1];
    forall n, v, id ensures Filed(m, n, v, id) <==> exists i :: 0 <= i < |s| && FiledAs(s[i], n, v, id) {
      if Filed(acc, n, v, id) {
        var i :| 0 <= i < |front| && FiledAs(front[i], n, v, id);
        assert s[i] == front[i];
      }
      if exists i :: 0 <= i < |s| && FiledAs(s[i], n, v, id) {
        var i :| 0 <= i < |s| && FiledAs(s[i], n, v, id);
        if i < |front| {
          assert front[i] == s[i];
        }
      }
    }
  }

  /** The grouping files every CVE, and files nothing else: its keys at
      every level come from the CVEs. */
  lemma {:induction false} GroupFiles(s: seq<Cves.Cve>, pkgs: seq<Packages.Package>, cal: Calendar)
    requires Group(s, pkgs, cal).Ok?
    ensures FilesExactly(Group(s, pkgs, cal).value, s)
    ensures NoEmptyEntries(Group(s, pkgs, cal).value)
  {
    if s != [] {
      var front, last := s[..|s| - 1], s[|s| - 1];
      var acc := Group(front, pkgs, cal).value;
      assert Group(s, pkgs, cal) == Place(acc, last, pkgs, cal);
      GroupFiles(front, pkgs, cal);
      PlaceAddsSlot(acc, last, pkgs, cal);
      PlaceNoEmpty(acc, last, pkgs, cal);
      FilesExactlySnoc(acc, Group(s, pkgs, cal).value, s);
    }
  }

  /** The last CVE filed under a slot is the one whose rendering is stored
      there: CVEs with the same package and id collapse to one entry. */
  lemma {:induction false} GroupLastWins(s: seq<Cves.Cve>, pkgs: seq<Packages.Package>, cal: Calendar, i: nat)
    requires Group(s, pkgs, cal).Ok? && i < |s|
    requires forall j :: i < j < |s| ==> !SameSlot(s[j], s[i])
    ensures Cves.Loaded(s[i])
    ensures var m, slot := Group(s, pkgs, cal).value, Slot(s[i]);
      Filed(m, slot.0, slot.1, slot.2) && Entry(m, slot.0, slot.1, slot.2) == Cves.CveJson(s[i], cal)
  {
    var front, last := s[..|s| - 1], s[|s| - 1];
    var acc := Group(front, pkgs, cal).value;
    assert Group(s, pkgs, cal) == Place(acc, last, pkgs, cal);
    if i == |s| - 1 {
      PlaceFiles(acc, last, pkgs, cal);
    } else {
      assert front[i] == s[i];
      forall j | i < j < |front| ensures !SameSlot(front[j], front[i]) {
        assert front[j] == s[j];
      }
      GroupLastWins(front, pkgs, cal, i);
      var slot := Slot(s[i]);
      PlaceFiles(acc, last, pkgs, cal);
      assert !SameSlot(last, s[i]);
      PlaceKeepsOthers(acc, last, pkgs, cal, slot.0, slot.1, slot.2);
    }
  }

  // ---------------------------------------------------------------------
  // Compliances and the whole report

  /** The compliance loop: one rendering per stored compliance, in order;
      a record whose getters raise makes the loop raise. */
  function ComplianceResults(cs: seq<Compliances.Compliance>): (r: Result<seq<map<string, Value>>>)
    ensures r.Ok? <==> forall i :: 0 <= i < |cs| ==> Compliances.Loaded(cs[i])
    ensures r.Ok? ==> |r.value| == |cs|
    ensures r.Ok? ==> forall i :: 0 <= i < |cs| ==>
      Compliances.Loaded(cs[i]) && r.value[i] == Compliances.ComplianceJson(cs[i])
  {
    if cs == [] then Ok([])
    else
      var front, last := cs[..|cs| - 1], cs[|cs| - 1];
      assert forall i :: 0 <= i < |cs| - 1 ==> front[i] == cs[i];
      match ComplianceResults(front)
      case Raised => Raised
      case Ok(rs) => if Compliances.Loaded(last) then Ok(rs + [Compliances.ComplianceJson(last)]) else Raised
  }

  /** `toJson` as a whole: the grouped CVEs, the compliance list and the
      scalar fields; any exception on the way gives Raised (the source
      returns False) and never a partial result. */
  function Assemble(meta: Meta, cves: seq<Cves.Cve>, pkgs: seq<Packages.Package>,
                    comps: seq<Compliances.Compliance>, cal: Calendar): Result<ReportJson>
  {
    match Group(cves, pkgs, cal)
    case Raised => Raised
    case Ok(m) =>
      match ComplianceResults(comps)
      case Raised => Raised
      case Ok(cr) => Ok(ReportJson(meta, m, cr))
  }

  /** What the assembled report promises: it exists exactly when every CVE
      can be filed and every compliance rendered; then the scalar fields
      are copied, every CVE is filed under its package name, version and
      id and nothing else is, no entry is empty, every bucket holds the
      paths of its pair, and there is one compliance rendering per stored
      compliance. */
  lemma AssembleSpec(meta: Meta, cves: seq<Cves.Cve>, pkgs: seq<Packages.Package>,
                     comps: seq<Compliances.Compliance>, cal: Calendar)
    ensures Assemble(meta, cves, pkgs, comps, cal).Ok? <==>
      AllPlaceable(cves, pkgs) && forall i :: 0 <= i < |comps| ==> Compliances.Loaded(comps[i])
    ensures Assemble(meta, cves, pkgs, comps, cal).Ok? ==>
      var r := Assemble(meta, cves, pkgs, comps, cal).value;
      && r.meta == meta
      && FilesExactly(r.cveResults, cves)
      && NoEmptyEntries(r.cveResults)
      && PathsComputed(r.cveResults, pkgs)
      && r.complianceResults == ComplianceResults(comps).value
  {
    GroupOk(cves, pkgs, cal);
    if Group(cves, pkgs, cal).Ok? {
      GroupFiles(cves, pkgs, cal);
    }
  }

  /** The processed report of one scanned artifact. */
  class ProcessedReport {
    var id: Value
    var name: Value
    var distro: Value
    var distroRelease: Value
    var digest: Value
    var namespaces: Value
    var secrets: Value
    var cveManager: Cves.CveManager
    var packageManager: Packages.PackageManager
    var complianceManager: Compliances.ComplianceManager

    /** Every scalar defaults to None; an omitted manager is replaced by a
        fresh empty one, a given one is shared, not copied. */
    constructor (id: Value := JNull, name: Value := JNull, distro: Value := JNull,
                 distroRelease: Value := JNull, digest: Value := JNull, namespaces: Value := JNull,
                 secrets: Value := JNull, cveManager: Cves.CveManager? := null,
                 packageManager: Packages.PackageManager? := null,
                 complianceManager: Compliances.ComplianceManager? := null)
      ensures Scalars() == Meta(id, name, distro, distroRelease, digest, namespaces, secrets)
      ensures cveManager != null ==> this.cveManager == cveManager
      ensures cveManager == null ==> fresh(this.cveManager) && this.cveManager.cves == []
      ensures packageManager != null ==> this.packageManager == packageManager
      ensures packageManager == null ==> fresh(this.packageManager) && this.packageManager.packages == []
      ensures complianceManager != null ==> this.complianceManager == complianceManager
      ensures complianceManager == null ==>
        fresh(this.complianceManager) && this.complianceManager.compliances == []
    {
      this.id := id;
      this.name := name;
      this.distro := distro;
      this.distroRelease := distroRelease;
      this.digest := digest;
      this.namespaces := namespaces;
      this.secrets := secrets;
      if cveManager != null {
        this.cveManager := cveManager;
      } else {
        this.cveManager := new Cves.CveManager();
      }
      if packageManager != null {
        this.packageManager := packageManager;
      } else {
        this.packageManager := new Packages.PackageManager();
      }
      if complianceManager != null {
        this.complianceManager := complianceManager;
      } else {
        this.complianceManager := new Compliances.ComplianceManager();
      }
    }

    /** The scalar fields as `toJson` copies them. */
    function Scalars(): Meta
      reads this
    {
      Meta(id, name, distro, distroRelease, digest, namespaces, secrets)
    }

    /** `toJson`: fills `cve_results` CVE by CVE, then lists the compliance
        renderings; the outcome is the assembled report of the stored
        records, or Raised when any step raises. */
    method ToJson(cal: Calendar) returns (r: Result<ReportJson>)
      ensures r == Assemble(Scalars(), cveManager.cves, packageManager.packages, complianceManager.compliances, cal)
    {
      var cves := cveManager.AllCves();
      var grouped := GroupCves(cves, packageManager, cal);
      if grouped.Raised? {
        return Raised;
      }
      var comps := complianceManager.AllCompliances();
      var rendered := RenderCompliances(comps);
      if rendered.Raised? {
        return Raised;
      }
      r := Ok(ReportJson(Scalars(), grouped.value, rendered.value));
    }
  }

  /** The CVE loop of `toJson`: files every CVE in turn into `cve_results`,
      stopping at the first one that raises. */
  method GroupCves(cves: seq<Cves.Cve>, packageManager: Packages.PackageManager, cal: Calendar)
    returns (r: Result<Results>)
    ensures r == Group(cves, packageManager.packages, cal)
  {
    var pkgs := packageManager.packages;
    var results: Results := map[];
    var i := 0;
    while i < |cves|
      invariant i <= |cves|
      invariant Group(cves[..i], pkgs, cal) == Ok(results)
    {
      Bags.PrefixOfPrefix(cves, i);
      var next := FileCve(results, cves[i], packageManager, cal);
      if next.Raised? {
        GroupRaisedExtends(cves, i + 1, pkgs, cal);
        return Raised;
      }
      results := next.value;
      i := i + 1;
    }
    Bags.WholePrefix(cves);
    r := Ok(results);
  }

  /** The compliance loop of `toJson`: renders every compliance in turn,
      stopping at the first one that was never loaded. */
  method RenderCompliances(comps: seq<Compliances.Compliance>) returns (r: Result<seq<map<string, Value>>>)
    ensures r == ComplianceResults(comps)
  {
    var rendered: seq<map<string, Value>> := [];
    var j := 0;
    while j < |comps|
      invariant j <= |comps|
      invariant ComplianceResults(comps[..j]) == Ok(rendered)
    {
      Bags.PrefixOfPrefix(comps, j);
      if !Compliances.Loaded(comps[j]) {
        assert !ComplianceResults(comps).Ok?;
        return Raised;
      }
      rendered := rendered + [Compliances.ComplianceJson(comps[j])];
      j := j + 1;
    }
    Bags.WholePrefix(comps);
    r := Ok(rendered);
  }

  /** The body of the CVE loop: file one CVE, creating the name and version
      entries on first use; the paths are collected only when the version
      entry is created. */
  method FileCve(results: Results, c: Cves.Cve, packageManager: Packages.PackageManager, cal: Calendar)
    returns (r: Result<Results>)
    ensures r == Place(results, c, packageManager.packages, cal)
  {
    if !Cves.Loaded(c) {
      return Raised;
    }
    var pkgName, pkgVersion := Cves.GetPackageName(c), Cves.GetPackageVersion(c);
    if !Hashable(pkgName) || !Hashable(pkgVersion) {
      return Raised;
    }
    var inner := if pkgName in results then results[pkgName] else map[];
    var bucket: Bucket;
    if pkgVersion in inner {
      bucket := inner[pkgVersion];
    } else {
      var pkgs := packageManager.packages;
      var matching := packageManager.PackagesByNameAndVersion(pkgName, pkgVersion);
      var paths := CollectPaths(matching);
      QueryMembers(matching, pkgs, pkgName, pkgVersion);
      CollectedPaths(matching, pkgs, pkgName, pkgVersion);
      if paths.Raised? {
        return Raised;
      }
      bucket := Bucket(paths.value, map[]);
    }
    var cveId := Cves.GetId(c);
    if !Hashable(cveId) {
      return Raised;
    }
    r := Ok(results[pkgName := inner[pkgVersion := bucket.(cves := bucket.cves[cveId := Cves.CveJson(c, cal)])]]);
  }

  /** `list(set(paths))` over the packages a query returned: the distinct
      paths, or Raised when one cannot be hashed. */
  method CollectPaths(ms: seq<Packages.Package>) returns (r: Result<set<Value>>)
    ensures r == PathSet(ms)
  {
    var paths: set<Value> := {};
    var k := 0;
    while k < |ms|
      invariant k <= |ms|
      invariant PathSet(ms[..k]) == Ok(paths)
    {
      Bags.PrefixOfPrefix(ms, k);
      if !Hashable(ms[k].path) {
        assert !PathSet(ms).Ok?;
        return Raised;
      }
      paths := paths + {ms[k].path};
      k := k + 1;
    }
    Bags.WholePrefix(ms);
    r := Ok(paths);
  }
}
