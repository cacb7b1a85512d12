/** The paths of one image's reports: the image name and where its raw,
    processed and formatted reports were written. */
module Paths {

  import opened Json

  // Keys of a report-paths document. The constants module that holds them
  // is not part of this model; these stand-ins are pairwise distinct.
  const NAME := "name"
  const RAWREPORTPATH := "rawReportPath"
  const FORMATTEDREPORTPATH := "formattedReportPath"
  const PROCESSEDREPORTPATH := "processedReportPath"

  /** The four fields of a report-paths object, as a value. */
  datatype ImagePaths = ImagePaths(imageName: Value, raw: Value, processed: Value, formatted: Value)

  /** `toJson`: exactly four keys, each holding its field. */
  function Render(p: ImagePaths): (r: map<string, Value>)
    ensures r.Keys == {NAME, RAWREPORTPATH, FORMATTEDREPORTPATH, PROCESSEDREPORTPATH}
    ensures r[NAME] == p.imageName && r[RAWREPORTPATH] == p.raw
    ensures r[FORMATTEDREPORTPATH] == p.formatted && r[PROCESSEDREPORTPATH] == p.processed
  {
    map[NAME := p.imageName, RAWREPORTPATH := p.raw, FORMATTEDREPORTPATH := p.formatted,
        PROCESSEDREPORTPATH := p.processed]
  }

  /** The fields `fromJson` reads from a dict: each key's value, or None when
      the key is absent. */
  function Read(doc: map<string, Value>): (r: ImagePaths)
    ensures r.imageName == Get(doc, NAME) && r.raw == Get(doc, RAWREPORTPATH)
    ensures r.processed == Get(doc, PROCESSEDREPORTPATH) && r.formatted == Get(doc, FORMATTEDREPORTPATH)
  {
    ImagePaths(Get(doc, NAME), Get(doc, RAWREPORTPATH), Get(doc, PROCESSEDREPORTPATH),
               Get(doc, FORMATTEDREPORTPATH))
  }

  /** Reading a rendering gives back all four fields. */
  lemma ReadRender(p: ImagePaths)
    ensures Read(Render(p)) == p
  {
  }

  /** Rendering what was read gives back a dict that has exactly the four
      keys; any other key is dropped, and a missing key comes back as
      None. */
  lemma RenderRead(doc: map<string, Value>)
    ensures Render(Read(doc)).Keys == {NAME, RAWREPORTPATH, FORMATTEDREPORTPATH, PROCESSEDREPORTPATH}
    ensures doc.Keys == {NAME, RAWREPORTPATH, FORMATTEDREPORTPATH, PROCESSEDREPORTPATH} ==>
      Render(Read(doc)) == doc
  {
    var keys := {NAME, RAWREPORTPATH, FORMATTEDREPORTPATH, PROCESSEDREPORTPATH};
    if doc.Keys == keys {
      var r := Render(Read(doc));
      assert forall k :: k in keys ==> r[k] == doc[k];
    }
  }

  /** A report-paths object: four fields that `fromJson` overwrites. */
  class ReportPaths {
    var imageName: Value
    var rawReportPath: Value
    var processedReportPath: Value
    var formattedReportPath: Value

    /** Every field defaults to None. */
    constructor (imageName: Value := JNull, rawReportPath: Value := JNull,
                 processedReportPath: Value := JNull, formattedReportPath: Value := JNull)
      ensures Fields() == ImagePaths(imageName, rawReportPath, processedReportPath, formattedReportPath)
    {
      this.imageName := imageName;
      this.rawReportPath := rawReportPath;
      this.processedReportPath := processedReportPath;
      this.formattedReportPath := formattedReportPath;
    }

    /** The four fields as a value. */
    function Fields(): ImagePaths
      reads this
    {
      ImagePaths(imageName, rawReportPath, processedReportPath, formattedReportPath)
    }

    /** `toJson`: the rendering of the current fields. */
    function ToJson(): (r: map<string, Value>)
      reads this
      ensures r.Keys == {NAME, RAWREPORTPATH, FORMATTEDREPORTPATH, PROCESSEDREPORTPATH}
      ensures Read(r) == Fields()
    {
      Render(Fields())
    }

    /** `fromJson`: overwrites all four fields from the dict, a missing key
        giving None, and returns this same object. */
    method FromJson(doc: map<string, Value>) returns (r: ReportPaths)
      modifies this
      ensures r == this && Fields() == Read(doc)
    {
      imageName := Get(doc, NAME);
      rawReportPath := Get(doc, RAWREPORTPATH);
      processedReportPath := Get(doc, PROCESSEDREPORTPATH);
      formattedReportPath := Get(doc, FORMATTEDREPORTPATH);
      r := this;
    }

    /** `fromJsonString`: `fromJson` on what the text decodes to. Text that
        does not decode, or that decodes to something other than a dict,
        raises (`json.loads`, or `.get` on the result) before any field is
        written: null here, with the object unchanged. */
    method FromJsonString(text: string, decode: string -> Option<Value>) returns (r: ReportPaths?)
      modifies this
      ensures r != null <==> decode(text).Some? && decode(text).value.JObj?
      ensures r != null ==> r == this && Fields() == Read(decode(text).value.fields)
      ensures r == null ==> Fields() == old(Fields())
    {
      var loaded := decode(text);
      if loaded.None? || !loaded.value.JObj? {
        return null;
      }
      r := FromJson(loaded.value.fields);
    }

    /** `fromJson(toJson())` on any object restores its four fields. */
    method RoundTrip() returns (r: ReportPaths)
      modifies this
      ensures r == this && Fields() == old(Fields())
    {
      ReadRender(Fields());
      r := FromJson(ToJson());
    }
  }
}
