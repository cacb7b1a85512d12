/** Package records and the package manager. A package is one installed
    occurrence: name, package-manager type, version and file-system path. */
module Packages {

  import opened Json
  import Bags

  // Keys of the package rendering. Their literal values live in a
  // constants module that is not part of this model; these stand-ins are
  // pairwise distinct, which is all the model relies on.
  const NAME := "name"
  const TYPE := "type"
  const VERSION := "version"
  const PATH := "path"

  /** A package as its constructor receives it, in the constructor's
      argument order (name, type, version, path). The source annotates the
      fields as strings but stores whatever its callers pass, so each is a
      JSON value. The getters are the destructors, and a datatype value
      cannot change after construction, as the source has no setters. */
  datatype Package = Package(name: Value, pkgType: Value, version: Value, path: Value)

  /** The dict that `Package.__str__` serialises: exactly the four keys,
      each holding the matching getter's value. */
  function PackageJson(p: Package): (r: map<string, Value>)
    ensures r.Keys == {NAME, TYPE, VERSION, PATH}
    ensures r[NAME] == p.name && r[TYPE] == p.pkgType && r[VERSION] == p.version && r[PATH] == p.path
  {
    map[NAME := p.name, TYPE := p.pkgType, VERSION := p.version, PATH := p.path]
  }

  /** The rendering loses nothing: two packages render alike only when all
      four attributes agree. */
  lemma PackageJsonInjective(p: Package, q: Package)
    requires PackageJson(p) == PackageJson(q)
    ensures p == q
  {
    assert PackageJson(p)[NAME] == PackageJson(q)[NAME];
    assert PackageJson(p)[TYPE] == PackageJson(q)[TYPE];
    assert PackageJson(p)[VERSION] == PackageJson(q)[VERSION];
    assert PackageJson(p)[PATH] == PackageJson(q)[PATH];
  }

  /** The package manager: a set of Package objects compared by identity,
      modelled as a sequence in which every `add_package` call makes a new
      entry. */
  class PackageManager {
    var packages: seq<Package>

    /** A new manager holds no packages. */
    constructor ()
      ensures packages == []
    {
      packages := [];
    }

    /** `add_package(name, version, type=None, path=None)`: builds the
        package in the constructor's order (name, type, version, path) and
        adds it as a new member, keeping every earlier one, even one with
        the same attributes. */
    method AddPackage(name: Value, version: Value, pkgType: Value := JNull, path: Value := JNull)
      modifies this
      ensures packages == old(packages) + [Package(name, pkgType, version, path)]
      ensures |packages| == |old(packages)| + 1
    {
      packages := packages + [Package(name, pkgType, version, path)];
    }

    /** `get_all_packages`: the stored collection itself. */
    function AllPackages(): (r: seq<Package>)
      reads this
      ensures r == packages
    {
      packages
    }

    /** `get_packages_by_name`: exactly the stored packages with that name,
        each as often as it is stored. */
    function PackagesByName(name: Value): (r: seq<Package>)
      reads this
      ensures forall p :: multiset(r)[p] == if p.name == name then multiset(packages)[p] else 0
    {
      Bags.Filter(packages, (p: Package) => p.name == name)
    }

    /** `get_packages_by_type`: exactly the stored packages with that type. */
    function PackagesByType(pkgType: Value): (r: seq<Package>)
      reads this
      ensures forall p :: multiset(r)[p] == if p.pkgType == pkgType then multiset(packages)[p] else 0
    {
      Bags.Filter(packages, (p: Package) => p.pkgType == pkgType)
    }

    /** `get_packages_by_name_and_type`: the stored packages matching both. */
    function PackagesByNameAndType(name: Value, pkgType: Value): (r: seq<Package>)
      reads this
      ensures forall p :: multiset(r)[p] ==
                          (if p.name == name && p.pkgType == pkgType then multiset(packages)[p] else 0)
    {
      Bags.Filter(packages, (p: Package) => p.name == name && p.pkgType == pkgType)
    }

    /** `get_packages_by_name_and_version`: the stored packages matching both. */
    function PackagesByNameAndVersion(name: Value, version: Value): (r: seq<Package>)
      reads this
      ensures forall p :: multiset(r)[p] ==
                          (if p.name == name && p.version == version then multiset(packages)[p] else 0)
    {
      Bags.Filter(packages, (p: Package) => p.name == name && p.version == version)
    }

    /** The two-attribute queries return part of the name query's answer. */
    lemma NarrowerQueries(name: Value, pkgType: Value, version: Value)
      ensures multiset(PackagesByNameAndType(name, pkgType)) <= multiset(PackagesByName(name))
      ensures multiset(PackagesByNameAndVersion(name, version)) <= multiset(PackagesByName(name))
    {
      var a, b, c := PackagesByNameAndType(name, pkgType), PackagesByNameAndVersion(name, version),
        PackagesByName(name);
      forall p ensures multiset(a)[p] <= multiset(c)[p] && multiset(b)[p] <= multiset(c)[p] {
      }
    }
  }

  /** Adding the same attributes twice to any manager stores both: the
      manager does not deduplicate by value, and the name query sees the
      package two more times. */
  method AddTwiceKeepsBoth(m: PackageManager, name: Value, version: Value)
    modifies m
    ensures m.packages == old(m.packages) + [Package(name, JNull, version, JNull), Package(name, JNull, version, JNull)]
    ensures multiset(m.PackagesByName(name))[Package(name, JNull, version, JNull)]
            == old(multiset(m.PackagesByName(name))[Package(name, JNull, version, JNull)]) + 2
  {
    m.AddPackage(name, version);
    m.AddPackage(name, version);
  }
}
