/** A scan report: who scanned what and when, the IP addresses scanned
    and, per image, where its reports were written. The two lists are kept
    as JSON text in the source; here each is kept as the value that text
    decodes to (None when it does not decode), since every read of it
    decodes it again with the same result. */
module ScanReports {

  import opened Json
  import opened Dates
  import Paths

  // Keys of a scan report document, and the default scanner name. The
  // constants module that holds them is not part of this model; these
  // stand-ins are pairwise distinct.
  const ID := "id"
  const TYPE := "type"
  const VERSION := "version"
  const USER := "user"
  const DATE := "date"
  const TIME := "time"
  const ROOT_DIR := "rootDir"
  const IP_ADDRESS_LIST := "ipAddressList"
  const REPORT_PATHS_LIST := "reportPathsList"
  const SCAN_SOFTWARE := "scanSoftware"
  const TWISTLOCK := "TWISTLOCK"

  /** The ten keys of a rendering are pairwise distinct. */
  lemma KeysDistinct()
    ensures |[ID, TYPE, VERSION, USER, ROOT_DIR, IP_ADDRESS_LIST, REPORT_PATHS_LIST, SCAN_SOFTWARE, DATE, TIME]| == 10
    ensures ID != TYPE && ID != VERSION && ID != USER && ID != ROOT_DIR && ID != IP_ADDRESS_LIST
    ensures ID != REPORT_PATHS_LIST && ID != SCAN_SOFTWARE && ID != DATE && ID != TIME
    ensures TYPE != VERSION && TYPE != USER && TYPE != ROOT_DIR && TYPE != IP_ADDRESS_LIST
    ensures TYPE != REPORT_PATHS_LIST && TYPE != SCAN_SOFTWARE && TYPE != DATE && TYPE != TIME
    ensures VERSION != USER && VERSION != ROOT_DIR && VERSION != IP_ADDRESS_LIST
    ensures VERSION != REPORT_PATHS_LIST && VERSION != SCAN_SOFTWARE && VERSION != DATE && VERSION != TIME
    ensures USER != ROOT_DIR && USER != IP_ADDRESS_LIST && USER != REPORT_PATHS_LIST
    ensures USER != SCAN_SOFTWARE && USER != DATE && USER != TIME
    ensures ROOT_DIR != IP_ADDRESS_LIST && ROOT_DIR != REPORT_PATHS_LIST && ROOT_DIR != SCAN_SOFTWARE
    ensures ROOT_DIR != DATE && ROOT_DIR != TIME
    ensures IP_ADDRESS_LIST != REPORT_PATHS_LIST && IP_ADDRESS_LIST != SCAN_SOFTWARE
    ensures IP_ADDRESS_LIST != DATE && IP_ADDRESS_LIST != TIME
    ensures REPORT_PATHS_LIST != SCAN_SOFTWARE && REPORT_PATHS_LIST != DATE && REPORT_PATHS_LIST != TIME
    ensures SCAN_SOFTWARE != DATE && SCAN_SOFTWARE != TIME && DATE != TIME
  {
  }

  /** The date or time field: the constructor and `fromJsonString` store a
      parsed date or None; a caller may also assign a string, which
      `toJson` emits as it is. */
  datatype Stamp = Text(s: string) | At(d: Option<DateTime>)

  /** No value occurs twice. */
  predicate Distinct(s: seq<Value>)
  {
    forall i, j :: 0 <= i < j < |s| ==> s[i] != s[j]
  }

  /** `list(set(s))`: each value once. Python's set order is arbitrary; the
      model keeps first occurrences in order, one of the orders it may
      give. */
  function Dedup(s: seq<Value>): (r: seq<Value>)
    ensures Distinct(r)
    ensures forall x :: x in r <==> x in s
  {
    if s == [] then []
    else
      var front := Dedup(s[..|s| - 1]);
      assert forall x :: x in s <==> x in s[..|s| - 1] || x == s[|s| - 1];
      if s[|s| - 1] in s[..|s| - 1] then front else front + [s[|s| - 1]]
  }

  /** A list that is already duplicate-free comes back unchanged. */
  lemma {:induction false} DedupDistinct(s: seq<Value>)
    requires Distinct(s)
    ensures Dedup(s) == s
  {
    if s != [] {
      var front := s[..|s| - 1];
      assert Distinct(front);
      DedupDistinct(front);
      assert s[|s| - 1] !in front;
      assert front + [s[|s| - 1]] == s;
    }
  }

  /** `set()` raises unless every value is hashable. */
  predicate AllHashable(s: seq<Value>)
  {
    forall i :: 0 <= i < |s| ==> Hashable(s[i])
  }

  /** The addresses after `add_ip_address(ip)`: the stored value must be a
      list (`append`), and all its values hashable (`set`). */
  function WithIp(stored: Option<Value>, ip: Value): (r: Result<seq<Value>>)
    ensures r.Ok? <==> stored.Some? && stored.value.JList? && AllHashable(stored.value.items + [ip])
    ensures r.Ok? ==> Distinct(r.value)
    ensures r.Ok? ==> forall x :: x in r.value <==> x in stored.value.items || x == ip
  {
    if stored.Some? && stored.value.JList? && AllHashable(stored.value.items + [ip])
    then Ok(Dedup(stored.value.items + [ip]))
    else Raised
  }

  /** Adding an address that is already in a duplicate-free list changes
      nothing. */
  lemma WithIpIdempotent(items: seq<Value>, ip: Value)
    requires Distinct(items) && ip in items && AllHashable(items + [ip])
    ensures WithIp(Some(JList(items)), ip) == Ok(items)
  {
    var s := items + [ip];
    assert s[..|s| - 1] == items;
    DedupDistinct(items);
  }

  /** The report-path entries a stored list decodes to: each entry must be
      a dict, read by `ReportPaths().fromJson`. */
  function PathsList(stored: Option<Value>): (r: Result<seq<Paths.ImagePaths>>)
    ensures r.Ok? <==> stored.Some? && ObjectsOf(stored.value).Ok?
    ensures r.Ok? ==> |r.value| == |ObjectsOf(stored.value).value|
    ensures r.Ok? ==> forall i :: 0 <= i < |r.value| ==> r.value[i] == Paths.Read(ObjectsOf(stored.value).value[i])
  {
    if stored.None? then Raised
    else
      match ObjectsOf(stored.value)
      case Raised => Raised
      case Ok(docs) => Ok(seq(|docs|, i requires 0 <= i < |docs| => Paths.Read(docs[i])))
  }

  /** The list value `json.dumps` of the entries' renderings stands for. */
  function Rendered(ps: seq<Paths.ImagePaths>): (r: Value)
    ensures r.JList? && |r.items| == |ps|
    ensures forall i :: 0 <= i < |ps| ==> r.items[i] == JObj(Paths.Render(ps[i]))
  {
    JList(seq(|ps|, i requires 0 <= i < |ps| => JObj(Paths.Render(ps[i]))))
  }

  /** Reading back what was stored gives the entries that were stored. */
  lemma PathsListRendered(ps: seq<Paths.ImagePaths>)
    ensures PathsList(Some(Rendered(ps))) == Ok(ps)
  {
    var v := Rendered(ps);
    assert forall i :: 0 <= i < |v.items| ==> v.items[i].JObj?;
    var docs := ObjectsOf(v).value;
    assert forall i :: 0 <= i < |ps| ==> v.items[i] == JObj(docs[i]);
    var r := PathsList(Some(v));
    forall i | 0 <= i < |ps|
      ensures r.value[i] == ps[i]
    {
      Paths.ReadRender(ps[i]);
    }
    assert r.value == ps;
  }

  /** The image names of some entries. */
  function Names(ps: seq<Paths.ImagePaths>): (r: seq<Value>)
    ensures |r| == |ps| && forall i :: 0 <= i < |ps| ==> r[i] == ps[i].imageName
  {
    seq(|ps|, i requires 0 <= i < |ps| => ps[i].imageName)
  }

  /** The entries after `add_image_result(p)`: `p` is appended when no entry
      has its image name, and the list is kept otherwise. */
  function WithImage(ps: seq<Paths.ImagePaths>, p: Paths.ImagePaths): (r: seq<Paths.ImagePaths>)
    ensures p.imageName in Names(ps) ==> r == ps
    ensures p.imageName !in Names(ps) ==> r == ps + [p]
  {
    if p.imageName in Names(ps) then ps else ps + [p]
  }

  /** Image names stay unique, and afterwards some entry has `p`'s name. */
  lemma WithImageUnique(ps: seq<Paths.ImagePaths>, p: Paths.ImagePaths)
    requires Distinct(Names(ps))
    ensures Distinct(Names(WithImage(ps, p)))
    ensures p.imageName in Names(WithImage(ps, p))
  {
    var r := WithImage(ps, p);
    if p.imageName !in Names(ps) {
      assert forall i :: 0 <= i < |ps| ==> Names(r)[i] == Names(ps)[i];
      assert Names(r)[|ps|] == p.imageName;
    }
  }

  /** The fields of a scan report, as a value. */
  datatype Fields = Fields(id: Value, reportType: Value, version: Value, user: Value, date: Stamp,
                           time: Stamp, rootDir: Value, ipAddressList: Option<Value>,
                           reportPathsList: Option<Value>, scanSoftware: Value)

  /** The fields of a new scan report: the id is the empty string; a truthy
      date or time is parsed with the common format, a falsy one is None;
      both lists start empty; the scanner defaults to Twistlock when not
      given or falsy. */
  function Initial(cal: Calendar, reportType: Value, version: Value, user: Value, date: Value, time: Value,
                   rootDir: Value, scanSoftware: Value): (r: Fields)
    ensures r.id == JStr("") && r.reportType == reportType && r.version == version
    ensures r.user == user && r.rootDir == rootDir
    ensures Truthy(date) ==> r.date == At(ParseValue(cal.parseCommonDate, date))
    ensures !Truthy(date) ==> r.date == At(None)
    ensures Truthy(time) ==> r.time == At(ParseValue(cal.parseCommonTime, time))
    ensures !Truthy(time) ==> r.time == At(None)
    ensures r.ipAddressList == Some(JList([])) && r.reportPathsList == Some(JList([]))
    ensures Truthy(scanSoftware) ==> r.scanSoftware == scanSoftware
    ensures !Truthy(scanSoftware) ==> r.scanSoftware == JStr(TWISTLOCK)
  {
    Fields(JStr(""), reportType, version, user,
           At(if Truthy(date) then ParseValue(cal.parseCommonDate, date) else None),
           At(if Truthy(time) then ParseValue(cal.parseCommonTime, time) else None), rootDir,
           Some(JList([])), Some(JList([])), if Truthy(scanSoftware) then scanSoftware else JStr(TWISTLOCK))
  }

  /** The fields `fromJsonString` writes from a dict: each key's value (None
      when absent), the dates parsed with the common format, the lists
      decoded, and the scanner falling back to Twistlock when missing or
      falsy. */
  function FieldsFrom(doc: map<string, Value>, decode: string -> Option<Value>, cal: Calendar): (r: Fields)
    ensures r.id == Get(doc, ID) && r.reportType == Get(doc, TYPE) && r.version == Get(doc, VERSION)
    ensures r.user == Get(doc, USER) && r.rootDir == Get(doc, ROOT_DIR)
    ensures r.date == At(ParseValue(cal.parseCommonDate, Get(doc, DATE)))
    ensures r.time == At(ParseValue(cal.parseCommonTime, Get(doc, TIME)))
    ensures r.ipAddressList == Decoded(Get(doc, IP_ADDRESS_LIST), decode)
    ensures r.reportPathsList == Decoded(Get(doc, REPORT_PATHS_LIST), decode)
    ensures Truthy(Get(doc, SCAN_SOFTWARE)) ==> r.scanSoftware == Get(doc, SCAN_SOFTWARE)
    ensures !Truthy(Get(doc, SCAN_SOFTWARE)) ==> r.scanSoftware == JStr(TWISTLOCK)
  {
    Fields(Get(doc, ID), Get(doc, TYPE), Get(doc, VERSION), Get(doc, USER),
           At(ParseValue(cal.parseCommonDate, Get(doc, DATE))),
           At(ParseValue(cal.parseCommonTime, Get(doc, TIME))), Get(doc, ROOT_DIR),
           Decoded(Get(doc, IP_ADDRESS_LIST), decode), Decoded(Get(doc, REPORT_PATHS_LIST), decode),
           if Truthy(Get(doc, SCAN_SOFTWARE)) then Get(doc, SCAN_SOFTWARE) else JStr(TWISTLOCK))
  }

  /** A scan report. */
  class ScanReport {
    var id: Value
    var reportType: Value
    var version: Value
    var user: Value
    var date: Stamp
    var time: Stamp
    var rootDir: Value
    var ipAddressList: Option<Value>
    var reportPathsList: Option<Value>
    var scanSoftware: Value

    /** `ScanReport(...)`: the fields `Initial` gives. */
    constructor (cal: Calendar, reportType: Value := JNull, version: Value := JNull, user: Value := JNull,
                 date: Value := JNull, time: Value := JNull, rootDir: Value := JNull,
                 scanSoftware: Value := JNull)
      ensures State() == Initial(cal, reportType, version, user, date, time, rootDir, scanSoftware)
    {
      new;
      Overwrite(Initial(cal, reportType, version, user, date, time, rootDir, scanSoftware));
    }

    /** All fields, as a value. */
    function State(): Fields
      reads this
    {
      Fields(id, reportType, version, user, date, time, rootDir, ipAddressList, reportPathsList, scanSoftware)
    }

    /** `get_ip_address_list`: the decoded list, raising when the stored
        text does not decode. */
    function IpAddresses(): (r: Result<Value>)
      reads this
      ensures r.Ok? <==> ipAddressList.Some?
      ensures r.Ok? ==> r.value == ipAddressList.value
    {
      if ipAddressList.Some? then Ok(ipAddressList.value) else Raised
    }

    /** `add_ip_address`: the stored addresses become the old ones plus
        `ip`, each once; this same object is returned. When the method
        raises (null here) nothing has been written. */
    method AddIpAddress(ip: Value) returns (r: ScanReport?)
      modifies this
      ensures r != null <==> WithIp(old(ipAddressList), ip).Ok?
      ensures r != null ==> r == this
      ensures r != null ==> State() == old(State()).(ipAddressList := Some(JList(WithIp(old(ipAddressList), ip).value)))
      ensures r == null ==> State() == old(State())
    {
      var addresses := WithIp(ipAddressList, ip);
      if addresses.Raised? {
        return null;
      }
      ipAddressList := Some(JList(addresses.value));
      r := this;
    }

    /** `get_report_paths_list`: the stored entries, each read into a new
        report-paths object. */
    function ReportPathsEntries(): (r: Result<seq<Paths.ImagePaths>>)
      reads this
      ensures r == PathsList(reportPathsList)
    {
      PathsList(reportPathsList)
    }

    /** `add_image_result`: the entries (each normalised through
        `fromJson`/`toJson`) with `image` appended unless an entry already
        has its image name; this same object is returned. When the method
        raises (null here) nothing has been written. */
    method AddImageResult(image: Paths.ReportPaths) returns (r: ScanReport?)
      modifies this
      ensures r != null <==> PathsList(old(reportPathsList)).Ok?
      ensures r != null ==> r == this
      ensures r != null ==> State() == old(State()).(reportPathsList :=
        Some(Rendered(WithImage(PathsList(old(reportPathsList)).value, image.Fields()))))
      ensures r != null ==> ReportPathsEntries() == Ok(WithImage(PathsList(old(reportPathsList)).value, image.Fields()))
      ensures r == null ==> State() == old(State())
    {
      var entries := PathsList(reportPathsList);
      if entries.Raised? {
        return null;
      }
      var updated := entries.value;
      if image.imageName !in Names(updated) {
        updated := updated + [image.Fields()];
      }
      PathsListRendered(updated);
      reportPathsList := Some(Rendered(updated));
      r := this;
    }

    /** `toJson`: the rendering of the current fields. */
    function ToJson(cal: Calendar): (r: Result<map<string, Value>>)
      reads this
      ensures r.Ok? <==> IpAddresses().Ok? && ReportPathsEntries().Ok?
      ensures r == Render(State(), cal)
    {
      Render(State(), cal)
    }

    /** Writes every field. */
    method Overwrite(f: Fields)
      modifies this
      ensures State() == f
    {
      id, reportType, version, user := f.id, f.reportType, f.version, f.user;
      date, time, rootDir := f.date, f.time, f.rootDir;
      ipAddressList, reportPathsList, scanSoftware := f.ipAddressList, f.reportPathsList, f.scanSoftware;
    }

    /** `fromJsonString`: overwrites every field from a dict whose two lists
        are JSON text, and returns this same object. A missing or falsy
        scanner falls back to Twistlock; dates are parsed with the common
        format. A non-dict argument raises (null here) before any field is
        written. */
    method FromJsonString(repr: Value, decode: string -> Option<Value>, cal: Calendar) returns (r: ScanReport?)
      modifies this
      ensures r != null <==> repr.JObj?
      ensures r != null ==> r == this && State() == FieldsFrom(repr.fields, decode, cal)
      ensures r == null ==> State() == old(State())
    {
      if !repr.JObj? {
        return null;
      }
      Overwrite(FieldsFrom(repr.fields, decode, cal));
      r := this;
    }
  }

  /** The dict `toJson` builds, from the values under its ten keys. */
  function ScanDict(id: Value, reportType: Value, version: Value, user: Value, rootDir: Value,
                    addresses: Value, paths: Value, software: Value, date: Value, time: Value)
    : (r: map<string, Value>)
    ensures r.Keys == {ID, TYPE, VERSION, USER, ROOT_DIR, IP_ADDRESS_LIST, REPORT_PATHS_LIST, SCAN_SOFTWARE,
                       DATE, TIME}
    ensures r[ID] == id && r[TYPE] == reportType && r[VERSION] == version && r[USER] == user
    ensures r[ROOT_DIR] == rootDir && r[IP_ADDRESS_LIST] == addresses && r[REPORT_PATHS_LIST] == paths
    ensures r[SCAN_SOFTWARE] == software && r[DATE] == date && r[TIME] == time
  {
    KeysDistinct();
    map[ID := id, TYPE := reportType, VERSION := version, USER := user, ROOT_DIR := rootDir,
        IP_ADDRESS_LIST := addresses, REPORT_PATHS_LIST := paths, SCAN_SOFTWARE := software][DATE := date]
       [TIME := time]
  }

  /** `toJson` on a scan report's fields: ten keys. The lists are emitted
      decoded, the report paths normalised; a date or time that is a string
      is emitted as it is, any other is formatted with the common format
      (None giving the empty string). Raises when either list does not
      decode. */
  function Render(s: Fields, cal: Calendar): (r: Result<map<string, Value>>)
    ensures r.Ok? <==> s.ipAddressList.Some? && PathsList(s.reportPathsList).Ok?
    ensures r.Ok? ==> r.value.Keys == {ID, TYPE, VERSION, USER, ROOT_DIR, IP_ADDRESS_LIST,
                                       REPORT_PATHS_LIST, SCAN_SOFTWARE, DATE, TIME}
    ensures r.Ok? ==> r.value[ID] == s.id && r.value[TYPE] == s.reportType && r.value[VERSION] == s.version
    ensures r.Ok? ==> r.value[USER] == s.user && r.value[ROOT_DIR] == s.rootDir
  {
    if s.ipAddressList.None? then Raised
    else
      match PathsList(s.reportPathsList)
      case Raised => Raised
      case Ok(entries) =>
        Ok(ScanDict(s.id, s.reportType, s.version, s.user, s.rootDir, s.ipAddressList.value, Rendered(entries),
                    s.scanSoftware, JStr(StampText(s.date, cal.formatCommonDate)),
                    JStr(StampText(s.time, cal.formatCommonTime))))
  }

  /** The rest of `toJson`: the scanner as stored, the lists decoded (the
      report paths normalised), and the date and time as `StampText` gives
      them. */
  lemma RenderLists(s: Fields, cal: Calendar)
    requires Render(s, cal).Ok?
    ensures var r := Render(s, cal).value;
      && r[SCAN_SOFTWARE] == s.scanSoftware
      && r[IP_ADDRESS_LIST] == s.ipAddressList.value
      && r[REPORT_PATHS_LIST] == Rendered(PathsList(s.reportPathsList).value)
      && r[DATE] == JStr(StampText(s.date, cal.formatCommonDate))
      && r[TIME] == JStr(StampText(s.time, cal.formatCommonTime))
  {
  }

  /** The text of a date or time in `toJson`. */
  function StampText(s: Stamp, format: DateTime -> string): (r: string)
    ensures s.Text? ==> r == s.s
    ensures s.At? ==> r == FormatValue(format, s.d)
  {
    match s
    case Text(t) => t
    case At(d) => FormatValue(format, d)
  }

  /** What a stored list field decodes to: `json.loads` on text, which
      raises (None) on text that does not decode and on anything that is
      not text. */
  function Decoded(v: Value, decode: string -> Option<Value>): (r: Option<Value>)
    ensures !v.JStr? ==> r == None
    ensures v.JStr? ==> r == decode(v.s)
  {
    if v.JStr? then decode(v.s) else None
  }

  /** A date that `fromJsonString` parsed from common-format text renders
      back as that same text, under a calendar whose formatted dates parse
      back to dates with the same text. */
  lemma DateReencodes(cal: Calendar, d: DateTime)
    requires cal.parseCommonDate(cal.formatCommonDate(d)).Some?
    requires cal.formatCommonDate(cal.parseCommonDate(cal.formatCommonDate(d)).value) == cal.formatCommonDate(d)
    ensures StampText(At(ParseValue(cal.parseCommonDate, JStr(cal.formatCommonDate(d)))), cal.formatCommonDate)
            == cal.formatCommonDate(d)
  {
  }
}
