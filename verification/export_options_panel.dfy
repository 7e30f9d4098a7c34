/**
 * The export side panel of the performance analytics page
 * (`ExportOptionsPanel`): its form state, the export and schedule
 * configurations it builds from that state, the recipient list parsed from
 * the comma-separated field, and the order of the callbacks it makes.
 */
module ExportOptionsPanel {
  import opened Wrappers
  import opened Text

  datatype ExportConfig = ExportConfig(
    format: string, includeCharts: bool, includeRawData: bool, includePredictions: bool, timestamp: string)

  datatype ScheduleConfig = ScheduleConfig(
    format: string, frequency: string, recipients: seq<string>,
    includeCharts: bool, includeRawData: bool, includePredictions: bool)

  /** A callback the panel makes, in the order it makes them. */
  datatype Call = OnExport(exportConfig: ExportConfig) | OnSchedule(scheduleConfig: ScheduleConfig) | OnClose

  /** The trimmed pieces of `s` between commas. */
  function TrimAll(parts: seq<string>): (r: seq<string>)
    ensures |r| == |parts|
    ensures forall k :: 0 <= k < |r| ==> r[k] == Trim(parts[k])
  {
    seq(|parts|, k requires 0 <= k < |parts| => Trim(parts[k]))
  }

  /**
   * `emailRecipients.split(',').map(email => email.trim())`: one recipient
   * more than there are commas, none with a comma or with white space at
   * either end; empty pieces are kept, so an empty field gives one empty
   * recipient.
   */
  function Recipients(emailRecipients: string): (r: seq<string>)
    ensures |r| == Occurrences(emailRecipients, ',') + 1
    ensures forall k :: 0 <= k < |r| ==> r[k] == Trim(Split(emailRecipients, ',')[k])
    ensures forall k :: 0 <= k < |r| ==> ',' !in r[k]
    ensures forall k :: 0 <= k < |r| && |r[k]| > 0 ==> !IsJsWhitespace(r[k][0]) && !IsJsWhitespace(r[k][|r[k]| - 1])
    ensures emailRecipients == "" ==> r == [""]
  {
    var parts := Split(emailRecipients, ',');
    var r := TrimAll(parts);
    assert forall k :: 0 <= k < |r| ==> ',' !in r[k] by {
      forall k | 0 <= k < |r| ensures ',' !in r[k] {
        TrimInside(parts[k]);
      }
    }
    r
  }

  /** A comma splits the field: the recipients before it, then those after it. */
  lemma RecipientsAround(a: string, b: string)
    ensures Recipients(a + "," + b) == Recipients(a) + Recipients(b)
  {
    assert a + "," + b == a + [','] + b;
    SplitAround(a, b, ',');
    RecipientsOfPieces(a + "," + b);
    RecipientsOfPieces(a);
    RecipientsOfPieces(b);
    TrimAllAppend(Split(a, ','), Split(b, ','));
  }

  lemma RecipientsOfPieces(s: string)
    ensures Recipients(s) == TrimAll(Split(s, ','))
  {
  }

  lemma TrimAllAppend(x: seq<string>, y: seq<string>)
    ensures TrimAll(x + y) == TrimAll(x) + TrimAll(y)
  {
  }

  /** The trim of a string is a slice of it, so it holds no character the string does not. */
  lemma TrimInside(s: string)
    ensures forall c :: c in Trim(s) ==> c in s
  {
    var t := TrimStart(s);
    var u := TrimEnd(t);
    SliceInside(t, 0, |u|);
    SliceInside(s, |s| - |t|, |s|);
  }

  /** Every character of a slice is a character of the whole. */
  lemma SliceInside(s: string, i: nat, j: nat)
    requires i <= j <= |s|
    ensures forall c :: c in s[i..j] ==> c in s
  {
    forall c | c in s[i..j] ensures c in s {
      var k :| 0 <= k < j - i && s[i..j][k] == c;
      assert s[i + k] == c;
    }
  }

  /** A field with no commas gives its own trimmed text as the one recipient. */
  lemma SingleRecipient(emailRecipients: string)
    requires ',' !in emailRecipients
    ensures Recipients(emailRecipients) == [Trim(emailRecipients)]
  {
    OccurrencesZero(emailRecipients, ',');
    SplitWithoutSeparator(emailRecipients, ',');
  }

  /** What the open panel shows of its state. */
  datatype PanelView = PanelView(format: string, includeCharts: bool, includeRawData: bool, includePredictions: bool)

  /** The panel's form state. */
  class ExportOptionsState {
    var exportFormat: string
    var includeCharts: bool
    var includeRawData: bool
    var includePredictions: bool
    var scheduleFrequency: string
    var emailRecipients: string

    constructor ()
      ensures exportFormat == "pdf" && includeCharts && !includeRawData && includePredictions
      ensures scheduleFrequency == "weekly" && emailRecipients == ""
    {
      exportFormat := "pdf";
      includeCharts := true;
      includeRawData := false;
      includePredictions := true;
      scheduleFrequency := "weekly";
      emailRecipients := "";
    }

    method SetExportFormat(format: string)
      modifies this
      ensures exportFormat == format
      ensures includeCharts == old(includeCharts) && includeRawData == old(includeRawData)
      ensures includePredictions == old(includePredictions) && scheduleFrequency == old(scheduleFrequency)
      ensures emailRecipients == old(emailRecipients)
    {
      exportFormat := format;
    }

    method SetIncludes(charts: bool, rawData: bool, predictions: bool)
      modifies this
      ensures includeCharts == charts && includeRawData == rawData && includePredictions == predictions
      ensures exportFormat == old(exportFormat) && scheduleFrequency == old(scheduleFrequency)
      ensures emailRecipients == old(emailRecipients)
    {
      includeCharts := charts;
      includeRawData := rawData;
      includePredictions := predictions;
    }

    method SetScheduleFrequency(frequency: string)
      modifies this
      ensures scheduleFrequency == frequency
      ensures exportFormat == old(exportFormat) && includeCharts == old(includeCharts)
      ensures includeRawData == old(includeRawData) && includePredictions == old(includePredictions)
      ensures emailRecipients == old(emailRecipients)
    {
      scheduleFrequency := frequency;
    }

    method SetEmailRecipients(text: string)
      modifies this
      ensures emailRecipients == text
      ensures exportFormat == old(exportFormat) && includeCharts == old(includeCharts)
      ensures includeRawData == old(includeRawData) && includePredictions == old(includePredictions)
      ensures scheduleFrequency == old(scheduleFrequency)
    {
      emailRecipients := text;
    }

    /**
     * `handleExport`: the configuration carries the current format and
     * flags and the clock reading `timestamp`; `onExport` gets it when the
     * page passed one, and `onClose` is called last in any case.
     */
    method HandleExport(hasOnExport: bool, timestamp: string) returns (calls: seq<Call>)
      ensures |calls| == (if hasOnExport then 2 else 1) && calls[|calls| - 1] == OnClose
      ensures hasOnExport ==> calls[0] == OnExport(ExportConfig(exportFormat, includeCharts, includeRawData, includePredictions, timestamp))
    {
      var exportConfig := ExportConfig(exportFormat, includeCharts, includeRawData, includePredictions, timestamp);
      calls := [];
      if hasOnExport {
        calls := calls + [OnExport(exportConfig)];
      }
      calls := calls + [OnClose];
    }

    /**
     * `handleSchedule`: the configuration carries the current format,
     * frequency and flags and the parsed recipients; `onSchedule` gets it
     * when the page passed one, and `onClose` is called last in any case.
     */
    method HandleSchedule(hasOnSchedule: bool) returns (calls: seq<Call>)
      ensures |calls| == (if hasOnSchedule then 2 else 1) && calls[|calls| - 1] == OnClose
      ensures hasOnSchedule ==> calls[0].OnSchedule?
      ensures hasOnSchedule ==>
                (calls[0].scheduleConfig ==
                 ScheduleConfig(exportFormat, scheduleFrequency, Recipients(emailRecipients),
                                includeCharts, includeRawData, includePredictions))
    {
      var scheduleConfig := ScheduleConfig(exportFormat, scheduleFrequency, Recipients(emailRecipients),
                                           includeCharts, includeRawData, includePredictions);
      calls := [];
      if hasOnSchedule {
        calls := calls + [OnSchedule(scheduleConfig)];
      }
      calls := calls + [OnClose];
    }

    /** Nothing while the panel is closed; the current choices while it is open. */
    function Render(isOpen: bool): (v: Option<PanelView>)
      reads this
      ensures v.None? <==> !isOpen
      ensures v.Some? ==> v.value.format == exportFormat
    {
      if !isOpen then None else Some(PanelView(exportFormat, includeCharts, includeRawData, includePredictions))
    }
  }
}
