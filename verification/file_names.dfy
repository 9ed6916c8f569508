/**
 Names of the downloaded files: `dashboard-report-`, the date part of an ISO
 timestamp (everything before its first `T`), and the format's extension.
 */
module FileNames {

  datatype ExportFormat = Json | Csv

  function Extension(format: ExportFormat): string {
    match format
    case Json => ".json"
    case Csv => ".csv"
  }

  /**
   `timestamp.split('T')[0]`: the longest prefix of `timestamp` without a `T`,
   which is the whole timestamp when it has none.
   */
  function DatePart(timestamp: string): (date: string)
    ensures date <= timestamp
    ensures 'T' !in date
    ensures |date| < |timestamp| ==> timestamp[|date|] == 'T'
  {
    if timestamp == [] || timestamp[0] == 'T' then ""
    else [timestamp[0]] + DatePart(timestamp[1..])
  }

  /** The three facts above pin the date part down: no other string has them. */
  lemma DatePartUnique(timestamp: string, date: string)
    requires date <= timestamp && 'T' !in date
    requires |date| < |timestamp| ==> timestamp[|date|] == 'T'
    ensures date == DatePart(timestamp)
  {
  }

  /**
   The download name: the fixed stem, then the date part of the timestamp (a
   `T`-free prefix that stops at the first `T` or at the end), then the extension.
   */
  function ExportFileName(timestamp: string, format: ExportFormat): (name: string)
    ensures |name| >= 17 + |Extension(format)|
    ensures name[..17] == "dashboard-report-"
    ensures name[|name| - |Extension(format)|..] == Extension(format)
    ensures var date := name[17..|name| - |Extension(format)|];
      date <= timestamp && 'T' !in date && (|date| < |timestamp| ==> timestamp[|date|] == 'T')
  {
    var date, ext := DatePart(timestamp), Extension(format);
    var name := "dashboard-report-" + date + ext;
    assert name[17..|name| - |ext|] == date;
    name
  }

  /**
   For an ISO-8601 timestamp as `toISOString` writes it (`YYYY-MM-DDTHH:mm:ss.sssZ`),
   the file name embeds exactly its first ten characters, the calendar date.
   */
  lemma IsoFileName(timestamp: string, format: ExportFormat)
    requires |timestamp| > 10 && timestamp[10] == 'T'
    requires forall i :: 0 <= i < 10 ==> timestamp[i] != 'T'
    ensures ExportFileName(timestamp, format) == "dashboard-report-" + timestamp[..10] + Extension(format)
  {
    DatePartUnique(timestamp, timestamp[..10]);
  }
}
