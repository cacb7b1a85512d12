# Report normalisation engine of pycore, in Dafny

This project models the part of pycore that turns raw scanner output into one
processed report. It covers:

- the three record kinds: `Package`, `Cve` (a vulnerability) and `Compliance`;
- their managers, which collect records and answer filter queries;
- `ProcessedReport.toJson`, which groups every CVE under its package name and
  version, attaches the paths of the matching packages, and lists the
  compliance renderings;
- the two provider parsers:
  - the BlackDuck parser cuts component, version and origin ids out of an
    `href` and composes the upgrade guidance text;
  - the Twistlock parser reads scalar fields with fallbacks, handles two
    package shapes, resolves each vulnerability date through a three-step
    chain, and merges two compliance lists;
- the bookkeeping objects `ScanReport` and `ReportPaths`;
- the loop that inverts the BlackDuck project name→id map.

JSON documents are values of `Json.Value`. Python's `dict.get`, truthiness,
hashability, `in` and iteration are written out in `json.dfy` and `text.dfy`.
An exception that propagates is shown in one of three ways:

- a function (including the state readers `ScanReport.ToJson`,
  `IpAddresses` and `ReportPathsEntries`) returns `Result.Raised`;
- a method that returns its own object in the source (`add_ip_address`,
  `add_image_result`, `fromJsonString`) returns `null`;
- the Twistlock parser's loop methods return `false` in an `ok` result.

The managers hold Python
sets of objects that define no `__eq__`, so they compare by identity. They
are therefore modelled as sequences in which every `add_*` call appends a new
record.

Date helpers (`strptime`/`strftime` with the common, Twistlock and BlackDuck
formats, and `datetime.fromtimestamp`) are function fields of a
`Dates.Calendar` parameter. `json.loads` on text from outside is a `decode`
parameter. The upgrade-guidance request is a `fetch` parameter that gives the
decoded response body, or None when the request fails.

Files:

- `json.dfy`, `text.dfy`, `bags.dfy`: JSON values, Python string operations,
  sequence filters.
- `dates.dfy`: the calendar.
- `packages.dfy`, `cves.dfy`, `compliances.dfy`: the records and managers.
- `processedreport.dfy`: the assembler.
- `blackduck.dfy`, `twistlock.dfy`: the parsers.
- `scanreport.dfy`, `reportpaths.dfy`: the bookkeeping objects.
- `projectconfig.dfy`: the map inversion.

Pure parts are functions with lemmas. Loops and field updates are methods,
proved equal to those functions.

## Where the code departs from the expected behaviour

Each item states what a reader of the class and function names would
expect, and what the code does instead. The model follows the code:

- Expected: the managers' sets deduplicate records with equal data. The
  code's records define no equality, so adding the same data twice keeps
  two records (`Packages.AddTwiceKeepsBoth`).
- Expected: the BlackDuck parser still registers the package of a record
  whose id is empty. The code registers neither the CVE nor the package
  (blackduck/blackduckclient.py:223-225).
- Expected: the Twistlock parser handles the grouped package shape.
  Its guard `PKGS in packages` holds only when a visited entry is the string
  `pkgs` itself (or a dict has that key, or a string contains it). Calling
  `.get` on that entry then raises. The grouped branch can therefore never
  complete (`Twistlock.GroupedBranchRaises`).
- Expected: upgrade guidance is empty on any failure. The code returns
  what it has built so far, so a failure in the long-term part keeps the
  short-term text (`Blackduck.UpgradeGuidance`).

## Model

| member | source | states |
|---|---|---|
| Packages.PackageJson | package/package.py:24-30 | the rendering has exactly the keys name, type, version and path, each holding the matching attribute |
| Packages.PackageJsonInjective | package/package.py:24-30 | two packages with equal renderings are equal: the rendering keeps all four attributes |
| Packages.PackageManager.constructor | package/packagemanager.py:7-8 | a new manager holds no packages |
| Packages.PackageManager.AddPackage | package/packagemanager.py:10-11 | appends one package built in the constructor's order (name, type, version, path), with type and path defaulting to None; earlier packages are kept |
| Packages.PackageManager.AllPackages | package/packagemanager.py:13-14 | returns the stored packages themselves |
| Packages.PackageManager.PackagesByName | package/packagemanager.py:16-17 | each package occurs in the result exactly as often as it is stored when its name matches, and not at all otherwise |
| Packages.PackageManager.PackagesByType | package/packagemanager.py:19-20 | the same for the type |
| Packages.PackageManager.PackagesByNameAndType | package/packagemanager.py:22-23 | the same for name and type together |
| Packages.PackageManager.PackagesByNameAndVersion | package/packagemanager.py:25-26 | the same for name and version together |
| Packages.PackageManager.NarrowerQueries | package/packagemanager.py:16-26 | each two-attribute query returns a sub-multiset of the name query |
| Packages.AddTwiceKeepsBoth | package/packagemanager.py:10-11 | adding identical arguments twice to any manager appends two equal packages, and the name query then counts that package two more times: no value deduplication |
| Cves.Field | cve/cve.py:26-51 | a plain getter gives the stored field, or None when the key is absent |
| Cves.GetId | cve/cve.py:20-24 | the `id` field, except that an integer `id` gives the `cve` field |
| Cves.GetVector | cve/cve.py:35-39 | the primary vector, or the variant field when the primary is absent or None |
| Cves.GetLink2 | cve/cve.py:53-55 | a link exists exactly when the id is truthy, and it is the NVD prefix followed by the id's text |
| Cves.DateText | cve/cve.py:57-67 | a re-encoded date is always a string, and the empty string when the stored value does not parse |
| Cves.CveDict | cve/cve.py:69-83 | the twelve keys, with the id under both `id` and `cve` |
| Cves.CveJson | cve/cve.py:69-83 | `toJson` has exactly the twelve keys; the id is under `id` and `cve`; package name and version, score, status, severity and vendor link as stored; the NVD link; each date re-encoded with the common format |
| Cves.CveJsonDropsDescriptionAndVector | cve/cve.py:69-83 | description and vector are not among the rendered keys |
| Cves.CveJsonKeepsCanonicalDates | cve/cve.py:80-82 | under a calendar whose formatted text parses back to a date with the same text, a date already in the common format (or empty) is rendered unchanged |
| Cves.Select | cve/cvemanager.py:24-34 | a filter succeeds exactly when every stored record can answer its getters, and then keeps exactly the matching records with their multiplicities |
| Cves.CveManager.constructor | cve/cvemanager.py:9-11 | a new manager is empty |
| Cves.CveManager.AddCve | cve/cvemanager.py:13-19 | never fails; appends exactly one record and keeps the earlier ones, even for a document that did not decode |
| Cves.CveManager.AllCves | cve/cvemanager.py:21-22 | returns the stored records themselves |
| Cves.CveManager.CvesById | cve/cvemanager.py:24-25 | raises exactly when some stored record cannot answer `get_id`; otherwise keeps exactly the records whose id matches |
| Cves.CveManager.CvesBySeverity | cve/cvemanager.py:27-28 | the same for the severity |
| Cves.CveManager.CvesByPackageName | cve/cvemanager.py:30-31 | the same for the package name |
| Cves.CveManager.CvesByPackage | cve/cvemanager.py:33-34 | the same for package name and version together |
| Compliances.Field | compliance/compliance.py:18-28 | a getter gives the stored field, or None when the key is absent |
| Compliances.ComplianceJson | compliance/compliance.py:30-36 | exactly the keys title, description, cause and severity, each from its getter |
| Compliances.ComplianceJsonIdempotent | compliance/compliance.py:30-36 | rendering a rendering gives the same rendering |
| Compliances.ComplianceManager.constructor | compliance/compliancemanager.py:9-11 | a new manager is empty |
| Compliances.ComplianceManager.AddCompliance | compliance/compliancemanager.py:13-19 | never fails; appends exactly one record and keeps the earlier ones |
| Compliances.ComplianceManager.AllCompliances | compliance/compliancemanager.py:21-22 | returns the stored records themselves |
| Dates.ParseValue | helpers/datetimeconverter.py:19-23 | a value that is not a string parses to None; a string is handed to the parser |
| Dates.FormatValue | helpers/datetimeconverter.py:37-41 | None formats to the empty string; a date is formatted |
| Dates.ReencodeStable | helpers/datetimeconverter.py:19-41 | under a calendar whose formatted text parses back to a date with the same text (precision may be lost), re-encoding formatter output (or the empty string) returns it unchanged |
| Report.PathSet | report/processedreport.py:62-65 | `set(paths)` succeeds exactly when every path is hashable, and then holds exactly the packages' paths |
| Report.Paths | report/processedreport.py:61-65 | a pair's `path` holds exactly the paths of the packages with that name and version; it is empty when none match and fails exactly when one of them is unhashable |
| Report.QueryMembers | report/processedreport.py:63 | the name-and-version query returns exactly the stored packages with that name and version |
| Report.CollectedPaths | report/processedreport.py:62-65 | collecting the paths of the query's packages gives the pair's `path`, failure included |
| Report.PlaceStep | report/processedreport.py:54-68 | filing one CVE succeeds exactly when its getters work, its keys are hashable and its package's paths are hashable; every bucket keeps the paths of its pair |
| Report.GroupRaisedExtends | report/processedreport.py:54-68 | once the CVE loop has raised on a prefix, the whole loop raises |
| Report.GroupOk | report/processedreport.py:54-68 | the CVE loop succeeds exactly when every CVE can be filed; each bucket's paths are then those of its pair, computed when the pair first appeared |
| Report.PlaceFiles | report/processedreport.py:66-68 | a filed CVE's rendering is stored under its package name, version and id |
| Report.PlaceAddsSlot | report/processedreport.py:54-68 | filing a CVE adds its own slot and no other |
| Report.PlaceKeepsOthers | report/processedreport.py:66-68 | filing a CVE keeps the rendering under every other slot |
| Report.PlaceNoEmpty | report/processedreport.py:57-68 | filing creates no name without a version and no version without a CVE |
| Report.GroupFiles | report/processedreport.py:54-68 | the grouping files every CVE under its slot and contains no other slot; no entry is empty, so a package without a CVE never appears |
| Report.GroupLastWins | report/processedreport.py:66-68 | CVEs sharing a slot collapse to one entry, holding the rendering of the last one visited |
| Report.ComplianceResults | report/processedreport.py:69-70 | succeeds exactly when every compliance can be rendered, and then holds one rendering per stored compliance, in order |
| Report.AssembleSpec | report/processedreport.py:47-85 | the report exists exactly when every CVE can be filed and every compliance rendered; the scalar fields are copied; every CVE is filed and nothing else; no entry is empty; the paths are right; the compliances are all rendered |
| Report.ProcessedReport.constructor | report/processedreport.py:24-45 | scalars default to None; an omitted manager is replaced by a fresh empty one, and a given one is shared |
| Report.ProcessedReport.ToJson | report/processedreport.py:47-85 | the outcome is the assembled report of the stored records, or Raised (the source's False) |
| Report.GroupCves | report/processedreport.py:54-68 | the CVE loop computes the grouping, stopping with Raised at the first failure |
| Report.RenderCompliances | report/processedreport.py:69-70 | the compliance loop computes the rendering list, stopping with Raised at the first failure |
| Report.FileCve | report/processedreport.py:55-68 | one loop iteration is one filing step; paths are collected only when the version entry is new |
| Report.CollectPaths | report/processedreport.py:62-65 | the path loop computes `set(paths)`, raising on an unhashable path |
| Blackduck.TermName | blackduck/blackduckclient.py:133-144 | a term names its non-empty origin name first, else its non-empty version name, else nothing; a term that is not a dict raises |
| Blackduck.UpgradeGuidance | blackduck/blackduckclient.py:118-150 | a failed request, or a short term that raises, gives the empty string; otherwise the short-term part (`Short Term: <name>,` or nothing) followed by the long-term part (`Long Term: <name>` or nothing), the long-term part dropped when it raises |
| Blackduck.GuidancePrefersOrigin | blackduck/blackduckclient.py:133-138 | a non-empty short-term origin name starts the guidance as `Short Term: <origin>,` |
| Blackduck.GuidanceLongOnly | blackduck/blackduckclient.py:139-144 | with no short term, a long term naming only a version gives exactly `Long Term: <version>` |
| Blackduck.GuidanceEmpty | blackduck/blackduckclient.py:119-146 | a body with neither term gives the empty string |
| Blackduck.ComponentId | blackduck/blackduckclient.py:206 | succeeds exactly when the trimmed href contains `components/`; the id is then the text after the first `components/`, up to a second one and then up to the first `/`, trimmed; it contains no `/` |
| Blackduck.VersionId | blackduck/blackduckclient.py:207 | never raises; the id is the text after the last `/` of the trimmed href's part before its first `/origins`, trimmed; it contains no `/` |
| Blackduck.OriginId | blackduck/blackduckclient.py:208 | None without `origins`; otherwise succeeds exactly when `origins/` occurs, the id being the text after the first `origins/`, up to a second one and then up to the first `/`, trimmed; it contains no `/` |
| Blackduck.ComponentIdOf | blackduck/blackduckclient.py:206 | for every href `/api/components/<c>/versions/<v>` followed by any text not ending in whitespace, the component id is `c` |
| Blackduck.VersionIdOf | blackduck/blackduckclient.py:207 | for every href `/api/components/<c>/versions/<v>/origins/<o>`, the version id is `v` |
| Blackduck.VersionIdWithoutOrigin | blackduck/blackduckclient.py:207 | for every href `/api/components/<c>/versions/<v>`, the version id is `v` |
| Blackduck.OriginIdOf | blackduck/blackduckclient.py:208 | for every href `/api/components/<c>/versions/<v>/origins/<o>`, the origin id is `o` |
| Blackduck.NoOriginIdOf | blackduck/blackduckclient.py:208 | for every href `/api/components/<c>/versions/<v>`, there is no origin id |
| Blackduck.HrefExample | blackduck/blackduckclient.py:206-208 | `/api/components/C1/versions/V1/origins/O1` gives C1, V1 and O1 |
| Blackduck.HrefExampleWithoutOrigin | blackduck/blackduckclient.py:206-208 | `/api/components/C1/versions/V1` gives C1, V1 and no origin |
| Blackduck.VulnebDict | blackduck/blackduckclient.py:209-221 | the eleven keys, the vulnerability name under both `id` and `cve` |
| Blackduck.ItemFinding | blackduck/blackduckclient.py:205-225 | the record has the vulnerability name as id and cve, its description, score and severity, the guidance as status, the component name and version, the href as vendor link, and both dates re-encoded from the BlackDuck format to the common one; the package's type is the origin name |
| Blackduck.ParseItem | blackduck/blackduckclient.py:203-228 | an item raises exactly when it is malformed; otherwise it yields its finding exactly when its id is truthy |
| Blackduck.FindingsOf | blackduck/blackduckclient.py:203-228 | one more item adds its finding at the end when it parses with a truthy id, and nothing otherwise |
| Blackduck.FindingTruthy | blackduck/blackduckclient.py:223-225 | every kept record has a truthy id equal to its cve, and the package name and version it was registered with |
| Blackduck.RecordsAgree | blackduck/blackduckclient.py:223-225 | the CVE and the package added at each position agree on name and version; the CVE's id is truthy and the package has no path |
| Blackduck.ParseBlackduck | blackduck/blackduckclient.py:199-233 | fresh managers hold exactly one CVE and one package per kept item, in order; the report's id and name are the version's and its compliance manager is empty |
| Twistlock.JoinIfList | twistlock/twistlockclient.py:219-224 | a list raises unless all items are strings, and otherwise becomes its strings joined with `, `; any other value is kept |
| Twistlock.JoinIfListExamples | twistlock/twistlockclient.py:219-224 | one name is kept as is, and two are joined with `, ` |
| Twistlock.JoinIfListSnoc | twistlock/twistlockclient.py:219-224 | for every non-empty joinable list, one more name is appended after `, `: the separator goes between every two consecutive names |
| Twistlock.MetaOf | twistlock/twistlockclient.py:208-224 | the name is `registry/repo/tag` when the repo tag is truthy, else the name field; the distro release is the OS distro version; a falsy digest falls back to the id; lists are joined; raises exactly on a truthy non-dict repo tag or an unjoinable list |
| Twistlock.ReadMeta | twistlock/twistlockclient.py:208-224 | the local reassignments compute `MetaOf` |
| Twistlock.GroupedEntriesRaise | twistlock/twistlockclient.py:227-230 | one entry on which `.get` raises makes the whole grouped loop raise |
| Twistlock.GroupedBranchRaises | twistlock/twistlockclient.py:225-230 | whenever the grouped branch is taken, it raises |
| Twistlock.FlatPackages | twistlock/twistlockclient.py:231-234 | the unguarded flat loop succeeds exactly when the value iterates to dicts; each entry gives a package from its own fields |
| Twistlock.AppPackages | twistlock/twistlockclient.py:235-238 | a falsy field gives nothing; otherwise one package with no type per application |
| Twistlock.PackagesOfSpec | twistlock/twistlockclient.py:225-238 | the grouped branch yields no outcome; the flat branch yields the flat entries followed by the applications |
| Twistlock.MissingPackagesRaises | twistlock/twistlockclient.py:233 | a document without a packages field raises |
| Twistlock.AddGroupedPackages | twistlock/twistlockclient.py:225-230 | the grouped loop appends exactly the grouped packages, and succeeds exactly when `GroupedPackages` does |
| Twistlock.AddFlatPackages | twistlock/twistlockclient.py:231-234 | the flat loop appends exactly `FlatPackages`, and succeeds exactly when it does |
| Twistlock.AddApplications | twistlock/twistlockclient.py:235-238 | the applications loop appends exactly `AppPackages`, and succeeds exactly when it does |
| Twistlock.AddAllPackages | twistlock/twistlockclient.py:225-238 | both package loops together append exactly the packages of the document |
| Twistlock.ResolveDate | twistlock/twistlockclient.py:242-246 | the primary field parsed with the Twistlock format wins; else an integer variant is a timestamp (raising when out of range); else a string variant is parsed |
| Twistlock.Redate | twistlock/twistlockclient.py:242-247 | the dict with the date written back as common-format text, empty when no step found a date |
| Twistlock.RedateField | twistlock/twistlockclient.py:242-247 | the statements for one date compute `Redate` |
| Twistlock.RedateVulnerability | twistlock/twistlockclient.py:242-261 | the three date chains, in order, compute `Redated` |
| Twistlock.RedatedSpec | twistlock/twistlockclient.py:242-261 | after the chains the three date fields hold common-format text and every other field is kept |
| Twistlock.RedateAll | twistlock/twistlockclient.py:239-262 | succeeds exactly when every vulnerability's chains succeed, and then redates each one in order |
| Twistlock.CveRecords | twistlock/twistlockclient.py:262 | one CVE record per vulnerability, record i holding vulnerability i |
| Twistlock.StoredDatesRenderUnchanged | twistlock/twistlockclient.py:242-262 | under a calendar whose formatted text parses back to a date with the same text, rendering a Twistlock CVE writes back the dates the parser stored |
| Twistlock.StoreVulnerabilities | twistlock/twistlockclient.py:241-262 | the loop adds one redated CVE per vulnerability, and succeeds exactly when `RedateAll` does |
| Twistlock.AddVulnerabilities | twistlock/twistlockclient.py:239-262 | a falsy field adds nothing; otherwise exactly the redated vulnerabilities are added |
| Twistlock.CompliancesOf | twistlock/twistlockclient.py:264-272 | the values of both compliance loops together, each as often as it occurs |
| Twistlock.ComplianceRecords | twistlock/twistlockclient.py:267 | one compliance record per value, holding that value |
| Twistlock.StoreCompliances | twistlock/twistlockclient.py:266-267 | the loop over a list adds one record per entry, in order |
| Twistlock.StoreKeys | twistlock/twistlockclient.py:266-267 | the loop over a dict adds one record per key, each key once |
| Twistlock.AddCompliances | twistlock/twistlockclient.py:264-267 | one compliance loop adds exactly the values it iterates, and succeeds exactly when the field iterates |
| Twistlock.AddAllCompliances | twistlock/twistlockclient.py:264-272 | both compliance loops together add exactly `CompliancesOf` |
| Twistlock.ParseCounts | twistlock/twistlockclient.py:239-262 | one CVE per vulnerability entry, and a successful parse took the flat package branch |
| Twistlock.ParseTwistlock | twistlock/twistlockclient.py:203-283 | no report exactly when the parse raises; otherwise fresh managers hold the parsed packages, one redated CVE per vulnerability and every compliance value; the scalars are those of `MetaOf` |
| Paths.Render | report/reportpaths.py:13-19 | exactly four keys, each holding its field |
| Paths.Read | report/reportpaths.py:28-33 | each field is its key's value, or None when absent |
| Paths.ReadRender | report/reportpaths.py:13-33 | reading a rendering restores all four fields |
| Paths.RenderRead | report/reportpaths.py:13-33 | rendering what was read has exactly the four keys, and gives back a document that had exactly those keys |
| Paths.ReportPaths.constructor | report/reportpaths.py:7-11 | every field defaults to None |
| Paths.ReportPaths.ToJson | report/reportpaths.py:13-19 | four keys, from which `Read` recovers the object's fields |
| Paths.ReportPaths.FromJson | report/reportpaths.py:28-33 | overwrites all four fields from the dict, a missing key giving None, and returns the same object |
| Paths.ReportPaths.FromJsonString | report/reportpaths.py:24-26 | succeeds exactly when the text decodes to a dict, and then acts as `FromJson`; otherwise nothing is written |
| Paths.ReportPaths.RoundTrip | report/reportpaths.py:13-33 | `fromJson(toJson())` leaves every field as it was |
| ScanReports.Dedup | report/scanreport.py:28 | `list(set(...))` holds each value once, and exactly the values of its input |
| ScanReports.DedupDistinct | report/scanreport.py:28 | a duplicate-free list comes back unchanged |
| ScanReports.WithIp | report/scanreport.py:25-29 | succeeds exactly when the stored value is a list of hashable values (the new address included); the result is duplicate-free and holds exactly the old addresses plus the new one |
| ScanReports.WithIpIdempotent | report/scanreport.py:25-29 | adding an address already in a duplicate-free list changes nothing |
| ScanReports.PathsList | report/scanreport.py:31-36 | succeeds exactly when the stored list decodes to dicts; each entry is read by `fromJson` |
| ScanReports.Rendered | report/scanreport.py:42 | one rendering per entry, in order |
| ScanReports.PathsListRendered | report/scanreport.py:31-42 | reading back the stored renderings gives the entries that were stored |
| ScanReports.Names | report/scanreport.py:40 | the image names of the entries, in order |
| ScanReports.WithImage | report/scanreport.py:38-43 | the entry is appended exactly when no entry has its image name |
| ScanReports.WithImageUnique | report/scanreport.py:38-43 | image names stay unique, and afterwards one entry has the new name |
| ScanReports.Initial | report/scanreport.py:11-20 | the id is the empty string; a truthy date or time is parsed, a falsy one is None; both lists are empty; a falsy scanner becomes Twistlock |
| ScanReports.FieldsFrom | report/scanreport.py:66-77 | each field is its key's value (None when absent); dates are parsed; lists are decoded; a missing or falsy scanner becomes Twistlock |
| ScanReports.ScanReport.constructor | report/scanreport.py:11-20 | the new object's fields are `Initial`'s |
| ScanReports.ScanReport.IpAddresses | report/scanreport.py:22-23 | raises exactly when the stored list does not decode, and otherwise gives it |
| ScanReports.ScanReport.AddIpAddress | report/scanreport.py:25-29 | returns the same object with the addresses of `WithIp` and every other field unchanged, or raises with no field written |
| ScanReports.ScanReport.ReportPathsEntries | report/scanreport.py:31-36 | the entries the stored list decodes to |
| ScanReports.ScanReport.AddImageResult | report/scanreport.py:38-43 | returns the same object with the entries of `WithImage`, which read back as stored, and every other field unchanged; or raises with no field written |
| ScanReports.ScanReport.ToJson | report/scanreport.py:45-64 | raises exactly when a stored list does not decode; otherwise the rendering of the current fields |
| ScanReports.ScanReport.FromJsonString | report/scanreport.py:66-77 | a dict overwrites every field as `FieldsFrom` gives and returns the same object; anything else raises before any write |
| ScanReports.ScanDict | report/scanreport.py:46-63 | exactly ten keys, each holding its value |
| ScanReports.Render | report/scanreport.py:45-64 | succeeds exactly when both lists decode; ten keys; id, type, version, user and root dir are copied |
| ScanReports.RenderLists | report/scanreport.py:52-63 | the scanner is copied; the lists are emitted decoded, the paths normalised; date and time as `StampText` gives them |
| ScanReports.StampText | report/scanreport.py:56-63 | a string date or time is emitted as it is; any other value is formatted, None giving the empty string |
| ScanReports.Decoded | report/scanreport.py:74-75 | text is decoded; any other value fails to decode |
| ScanReports.DateReencodes | report/scanreport.py:56-59 | under a date format whose text parses back to a date with the same text, a date read from common-format text renders back as that text |
| ProjectConfig.Inverse | configs/blackduckproject.py:21-23 | the keys of the inverse are exactly the ids of the entries |
| ProjectConfig.InverseSound | configs/blackduckproject.py:21-23 | every id maps back to a name that had that id |
| ProjectConfig.InverseLastWins | configs/blackduckproject.py:21-23 | when several names share an id, the last one visited wins |
| ProjectConfig.InvertMapping | configs/blackduckproject.py:21-23 | the loop computes `Inverse` |
| ProjectConfig.ShippedInverse | configs/blackduckproject.py:15-23 | the shipped empty map gives an empty inverse |

## Left out

- HTTP clients of Twistlock and BlackDuck (tokens, paging, requests): network I/O. The upgrade-guidance request is the `fetch` parameter.
- Logging: every logger call is a no-op here.
- `save_report`, `save_unprocessed_json`, `Package.__str__` text, `ReportPaths.toJsonString`: file I/O and JSON text. The model stops at the dict that would be serialised.
- JSON text in general: documents are `Json.Value`s. `json.loads(json.dumps(d))` is taken to give `d` back for the dicts the parsers write.
- Date helpers: `strptime`/`strftime` formats and `fromtimestamp` live in the `Calendar` parameter. Lemmas that need a round trip state it as a precondition.
- Set iteration order: the managers' order is the model's sequence order, `Dedup` keeps first occurrences, and a bucket's `path` is a set. Python may give any order.
- Dict key order: the compliance loop over a dict visits keys in insertion order. The model's maps have no order, so those contents are stated as multisets.
- Python's equality of `1`, `1.0` and `True`: dict keys, set members, the `==` comparisons of the manager filters (`PackagesBy*`, `Cves.Select`) and the `in` test on a list of image names (`WithImage`) all use equality of JSON values, under which these three are distinct.
- Constant key strings: the constants modules are not part of this model. Pairwise-distinct stand-ins replace them.
- CVSS scores and other floats: numbers are kept as opaque text.
- Python's `str()` of a list or a dict: `Json.PyStr` renders every list as `[...]` and every dict as `{...}`, not as Python's repr of the contents. This changes the NVD link of `Cves.GetLink2` (cve/cve.py:55), the names in the upgrade guidance of `Blackduck.TermName` (blackduck/blackduckclient.py:136-144) and the repo-tag name of `Twistlock.MetaOf` (twistlock/twistlockclient.py:212) when the value in question is a list or a dict.
- Ids of other shapes in the href lemmas: `ComponentIdOf`, `VersionIdOf`, `VersionIdWithoutOrigin`, `OriginIdOf` and `NoOriginIdOf` take ids made of digits, capital letters, `a` to `f` and `-` (BlackDuck's UUIDs). For any other href the id functions' own contracts give the value.
- In-place update of the caller's vulnerability dicts (twistlock/twistlockclient.py:242-261): the model computes new dicts and does not show the input document changing.
- Partial filling before an exception: when a parser loop raises, the Twistlock constructor raises and its managers are discarded. The model therefore checks an iterated value's shape before its loop.
- `ScanReport.id` as a class attribute: it is an instance field initialised to the empty string, which is what every instance observes.
- The two ScanReport lists are stored as JSON text in the source. Here each is stored as the value that text decodes to (None when it does not decode).
- The report accessors `get_vulnerability_report_json` and `save_vulnerability_report_json` only delegate to `ProcessedReport`.
- Twistlock.AddGroupedPackages: when it reports failure the manager's contents are not stated, since the parser then raises and discards the manager.
- Twistlock.AddFlatPackages: the same on failure.
- Twistlock.AddApplications: the same on failure.
- Twistlock.AddAllPackages: the same on failure.
- Twistlock.StoreVulnerabilities: the same on failure.
- Twistlock.AddVulnerabilities: the same on failure.
- ScanReports.Render: the contract states five of the ten values. `RenderLists` states the other five.
