/** The date-time helpers the engine calls: `strptime`/`strftime` with the
    common, Twistlock and BlackDuck formats, and `datetime.fromtimestamp`.
    Their format strings and the local time zone are not part of this model,
    so each helper is a function field of a `Calendar` that every operation
    using dates receives. */
module Dates {

  import opened Json

  /** A naive `datetime` value, kept abstract. */
  datatype DateTime = DateTime(instant: int)

  /** The parsers give None where `strptime` raises; the formatters are the
      `strftime` calls on a real date. `fromTimestamp` gives None where
      `datetime.fromtimestamp` raises (a timestamp out of range). */
  datatype Calendar = Calendar(
    parseCommonDateTime: string -> Option<DateTime>,
    formatCommonDateTime: DateTime -> string,
    parseCommonDate: string -> Option<DateTime>,
    formatCommonDate: DateTime -> string,
    parseCommonTime: string -> Option<DateTime>,
    formatCommonTime: DateTime -> string,
    parseTwistlockDateTime: string -> Option<DateTime>,
    parseBlackduckDateTime: string -> Option<DateTime>,
    fromTimestamp: int -> Option<DateTime>)

  /** A `parse_*` helper applied to a JSON value: `strptime` raises on
      anything that is not a string, and the helper turns every exception
      into None. */
  function ParseValue(parse: string -> Option<DateTime>, v: Value): (r: Option<DateTime>)
    ensures !v.JStr? ==> r == None
    ensures v.JStr? ==> r == parse(v.s)
  {
    if v.JStr? then parse(v.s) else None
  }

  /** A `format_*` helper: `None.strftime` raises and the helper gives the
      empty string instead. */
  function FormatValue(format: DateTime -> string, d: Option<DateTime>): (r: string)
    ensures d == None ==> r == ""
    ensures d.Some? ==> r == format(d.value)
  {
    match d
    case None => ""
    case Some(t) => format(t)
  }

  /** What a real calendar guarantees for the common date-time format: the
      text `strftime` writes parses back, to a date (possibly less precise
      than the one formatted) that formats to the same text; and the empty
      string (what the formatter gives for a missing date) does not parse. */
  ghost predicate CommonFormatSound(cal: Calendar)
  {
    && (forall t :: cal.parseCommonDateTime(cal.formatCommonDateTime(t)).Some? &&
          cal.formatCommonDateTime(cal.parseCommonDateTime(cal.formatCommonDateTime(t)).value)
          == cal.formatCommonDateTime(t))
    && cal.parseCommonDateTime("") == None
  }

  /** Under a sound calendar, re-encoding text that the common formatter
      wrote (or the empty string) gives the same text: formatting is
      idempotent on its own output. */
  lemma ReencodeStable(cal: Calendar, d: Option<DateTime>)
    requires CommonFormatSound(cal)
    ensures var text := FormatValue(cal.formatCommonDateTime, d);
      FormatValue(cal.formatCommonDateTime, ParseValue(cal.parseCommonDateTime, JStr(text))) == text
  {
    if d.Some? {
      var back := cal.parseCommonDateTime(cal.formatCommonDateTime(d.value));
      assert back.Some? && cal.formatCommonDateTime(back.value) == cal.formatCommonDateTime(d.value);
    }
  }
}
