/** The document summarizer page: the input guard before the backend call, the Markdown
    export of a summary and the download name with its extension stripped. The word count
    shown under the input is `Text.WordCount`. */
module DocumentSummarizer {
  import opened Common
  import opened Text

  datatype SummaryData = SummaryData(summary: string, keyInsights: seq<string>, mainTopics: seq<string>, wordCount: int)

  /** Both the content and a summary length are needed before the summarizer is called. */
  predicate InputsComplete(content: string, summaryLength: string)
  {
    content != "" && summaryLength != ""
  }

  /** `fileName || 'Untitled'`. */
  function DisplayName(fileName: string): (r: string)
    ensures r != ""
    ensures fileName != "" ==> r == fileName
  {
    if fileName == "" then "Untitled" else fileName
  }

  function SummaryHeader(fileName: string): string
  {
    "# Tóm tắt tài liệu: " + DisplayName(fileName) + "\n\n"
  }

  function MainSummary(summary: string): string
  {
    "## Tóm tắt chính\n\n" + summary + "\n\n"
  }

  const TopicsHeading: string := "## Chủ đề chính\n\n"

  const InsightsHeading: string := "## Những điểm chính\n\n"

  /** The topics block: empty exactly when there is no topic; otherwise its heading, a
      "- topic" line per topic and a blank line. */
  function TopicsBlock(topics: seq<string>): (r: string)
    ensures r == "" <==> |topics| == 0
    ensures |topics| > 0 ==> TopicsHeading <= r
  {
    if |topics| > 0 then TopicsHeading + Wrapped("- ", topics, "\n") + "\n" else ""
  }

  /** "k. insight" lines numbered from 1, in list order. */
  function Numbered(insights: seq<string>): string
  {
    if |insights| == 0 then ""
    else Numbered(insights[..|insights| - 1]) + NumberedLine(|insights| - 1, insights[|insights| - 1])
  }

  function NumberedLine(k: nat, insight: string): string
  {
    NatToString(k + 1) + ". " + insight + "\n"
  }

  /** The insights block: empty exactly when there is no insight; it ends with the last
      numbered line, with no blank line after it. */
  function InsightsBlock(insights: seq<string>): (r: string)
    ensures r == "" <==> |insights| == 0
    ensures |insights| > 0 ==> InsightsHeading <= r
  {
    if |insights| > 0 then InsightsHeading + Numbered(insights) else ""
  }

  /** The text `exportSummary` builds: the header naming the file and the main summary
      first, the numbered insights last, and nothing after the summary when there are
      neither topics nor insights. */
  function SummaryExport(fileName: string, d: SummaryData): (r: string)
    ensures SummaryHeader(fileName) + MainSummary(d.summary) <= r
    ensures EndsWith(r, InsightsBlock(d.keyInsights))
    ensures |d.mainTopics| == 0 && |d.keyInsights| == 0 ==> r == SummaryHeader(fileName) + MainSummary(d.summary)
  {
    Regroup(SummaryHeader(fileName) + MainSummary(d.summary), TopicsBlock(d.mainTopics), InsightsBlock(d.keyInsights));
    SummaryHeader(fileName) + MainSummary(d.summary) + TopicsBlock(d.mainTopics) + InsightsBlock(d.keyInsights)
  }

  lemma NumberedStep(insights: seq<string>, k: nat)
    requires k < |insights|
    ensures Numbered(insights[..k + 1]) == Numbered(insights[..k]) + NumberedLine(k, insights[k])
  {
    assert insights[..k + 1][..k] == insights[..k];
  }

  lemma {:induction false} NumberedPrefix(insights: seq<string>, n: nat)
    requires n <= |insights|
    ensures Numbered(insights[..n]) <= Numbered(insights)
  {
    if n < |insights| {
      var init := insights[..|insights| - 1];
      NumberedPrefix(init, n);
      assert init[..n] == insights[..n];
      PrefixExtend(Numbered(init[..n]), Numbered(init), NumberedLine(|insights| - 1, insights[|insights| - 1]));
    } else {
      assert insights[..n] == insights;
    }
  }

  /** Insight `k` is written as the line "k+1. insight": the numbering starts at 1 and
      follows the list order. */
  lemma InsightNumbered(insights: seq<string>, k: nat)
    requires k < |insights|
    ensures Occurs(NatToString(k + 1) + ". " + insights[k] + "\n", InsightsBlock(insights))
  {
    var all := Numbered(insights);
    NumberedPrefix(insights, k + 1);
    NumberedStep(insights, k);
    OccursAfterPrefix(Numbered(insights[..k]), NumberedLine(k, insights[k]), all);
    OccursAtEnd(InsightsHeading, all);
    OccursTrans(NumberedLine(k, insights[k]), all, InsightsBlock(insights));
  }

  /** Each topic has its own "- topic" line. */
  lemma TopicListed(topics: seq<string>, k: nat)
    requires k < |topics|
    ensures Occurs("- " + topics[k] + "\n", TopicsBlock(topics))
  {
    var w := Wrapped("- ", topics, "\n");
    WrappedHasItem("- ", topics, "\n", k);
    OccursIn(TopicsHeading, w, "\n");
    OccursTrans("- " + topics[k] + "\n", w, TopicsBlock(topics));
  }

  /** The topics: the heading, one "- topic" line each and a blank line, when there are any. */
  method AppendTopics(text: string, topics: seq<string>) returns (r: string)
    ensures r == text + TopicsBlock(topics)
  {
    r := text;
    if |topics| > 0 {
      r := r + TopicsHeading;
      r := AppendWrapped(r, "- ", topics, "\n");
      r := r + "\n";
      Regroup(text, TopicsHeading, Wrapped("- ", topics, "\n"));
      Regroup(text, TopicsHeading + Wrapped("- ", topics, "\n"), "\n");
    }
  }

  /** The insights: the heading and one numbered line each, when there are any. */
  method AppendInsights(text: string, insights: seq<string>) returns (r: string)
    ensures r == text + InsightsBlock(insights)
  {
    r := text;
    if |insights| > 0 {
      r := r + InsightsHeading;
      var start := r;
      var k := 0;
      while k < |insights|
        invariant 0 <= k <= |insights|
        invariant r == start + Numbered(insights[..k])
      {
        NumberedStep(insights, k);
        Regroup(start, Numbered(insights[..k]), NumberedLine(k, insights[k]));
        r := r + (NatToString(k + 1) + ". " + insights[k] + "\n");
        k := k + 1;
      }
      assert insights[..|insights|] == insights;
      Regroup(text, InsightsHeading, Numbered(insights));
    }
  }

  /** `exportSummary`'s text, built line by line. */
  method ExportSummaryText(fileName: string, d: SummaryData) returns (text: string)
    ensures text == SummaryExport(fileName, d)
  {
    var opening := SummaryHeader(fileName) + MainSummary(d.summary);
    text := AppendTopics(opening, d.mainTopics);
    text := AppendInsights(text, d.keyInsights);
  }

  predicate IsPathBreak(c: char)
  {
    c == '.' || c == '/'
  }

  /** The length of the longest suffix holding neither '.' nor '/'. */
  function TrailingRun(s: string): (n: nat)
    ensures n <= |s|
    ensures forall k | |s| - n <= k < |s| :: !IsPathBreak(s[k])
    ensures n < |s| ==> IsPathBreak(s[|s| - n - 1])
  {
    if |s| == 0 || IsPathBreak(s[|s| - 1]) then 0 else TrailingRun(s[..|s| - 1]) + 1
  }

  /** A file extension: non-empty, and free of '.' and '/'. */
  predicate IsExtension(e: string)
  {
    |e| > 0 && forall k | 0 <= k < |e| :: !IsPathBreak(e[k])
  }

  /** A path break after position `k` keeps `s[k + 1..]` from being an extension. */
  lemma BreakAfter(s: string, k: nat, b: nat)
    requires k < b < |s| && IsPathBreak(s[b])
    ensures !IsExtension(s[k + 1..])
  {
    assert s[k + 1..][b - k - 1] == s[b];
  }

  /** No '.' starts an extension when the last path break is not a '.' followed by a
      non-empty run; `n` is the length of the run after the last break. */
  lemma NoExtensionAfterRun(s: string, n: nat)
    requires n <= |s|
    requires forall k | |s| - n <= k < |s| :: !IsPathBreak(s[k])
    requires n < |s| ==> IsPathBreak(s[|s| - n - 1])
    requires !(0 < n < |s| && s[|s| - n - 1] == '.')
    ensures forall k | 0 <= k < |s| && s[k] == '.' :: !IsExtension(s[k + 1..])
  {
    forall k | 0 <= k < |s| && s[k] == '.'
      ensures !IsExtension(s[k + 1..])
    {
      if k + 1 < |s| {
        assert IsPathBreak(s[k]);
        BreakAfter(s, k, |s| - n - 1);
      }
    }
  }

  lemma NoExtension(s: string)
    requires var n := TrailingRun(s); !(0 < n < |s| && s[|s| - n - 1] == '.')
    ensures forall k | 0 <= k < |s| && s[k] == '.' :: !IsExtension(s[k + 1..])
  {
    var n := TrailingRun(s);
    NoExtensionAfterRun(s, n);
  }

  /** `replace(/\.[^/.]+$/, "")`: the text before a final ".ext" when the name ends with
      one; otherwise the name unchanged, and then no '.' of it starts an extension. */
  function StripExtension(s: string): (r: string)
    ensures r == s || (|r| < |s| && s == r + "." + s[|r| + 1..] && IsExtension(s[|r| + 1..]))
    ensures r == s ==> forall k | 0 <= k < |s| && s[k] == '.' :: !IsExtension(s[k + 1..])
  {
    var n := TrailingRun(s);
    if 0 < n < |s| && s[|s| - n - 1] == '.' then
      var r := s[..|s| - n - 1];
      assert s == r + "." + s[|r| + 1..];
      r
    else
      NoExtension(s);
      s
  }

  lemma {:induction false} TrailingRunOf(p: string, e: string)
    requires forall k | 0 <= k < |e| :: !IsPathBreak(e[k])
    ensures TrailingRun(p + "." + e) == |e|
  {
    var s := p + "." + e;
    if |e| > 0 {
      assert s[..|s| - 1] == p + "." + e[..|e| - 1];
      TrailingRunOf(p, e[..|e| - 1]);
    }
  }

  /** A name ending in ".ext" loses exactly that one extension, however many dots the
      rest of it holds. */
  lemma StripExtensionOf(p: string, e: string)
    requires IsExtension(e)
    ensures StripExtension(p + "." + e) == p
  {
    var s := p + "." + e;
    TrailingRunOf(p, e);
    assert s[|s| - |e| - 1] == '.';
    assert s[..|s| - |e| - 1] == p;
  }

  /** `${stripped || "summary"}_summary.md`. */
  function SummaryFileName(fileName: string): (r: string)
    ensures StripExtension(fileName) != "" ==> r == StripExtension(fileName) + "_summary.md"
    ensures StripExtension(fileName) == "" ==> r == "summary_summary.md"
  {
    var stripped := StripExtension(fileName);
    (if stripped == "" then "summary" else stripped) + "_summary.md"
  }

  datatype SummaryDownload = SummaryDownload(fileName: string, text: string)

  /** The summarizer page's state. */
  class SummarizerState {
    var content: string
    var fileName: string
    var summaryLength: string
    var summaryData: Option<SummaryData>

    constructor()
      ensures content == "" && fileName == "" && summaryLength == "" && summaryData == None
    {
      content := "";
      fileName := "";
      summaryLength := "";
      summaryData := None;
    }

    /** `generateSummary`: without content or a length no call is made and nothing
        changes; a successful call stores the summary, a failed one keeps the old one. */
    method Generate(response: Outcome<SummaryData>) returns (called: bool)
      modifies this
      ensures called <==> InputsComplete(content, summaryLength)
      ensures content == old(content) && fileName == old(fileName) && summaryLength == old(summaryLength)
      ensures summaryData == if called && response.Succeeded? then Some(response.data) else old(summaryData)
    {
      if !InputsComplete(content, summaryLength) {
        return false;
      }
      called := true;
      if response.Succeeded? {
        summaryData := Some(response.data);
      }
    }

    /** `exportSummary`: nothing without summary data; otherwise the export text under the
        stripped file name. */
    method ExportSummary() returns (d: Option<SummaryDownload>)
      ensures d.None? <==> summaryData.None?
      ensures d.Some? ==>
        d.value.text == SummaryExport(fileName, summaryData.value)
        && d.value.fileName == SummaryFileName(fileName)
    {
      if summaryData.None? {
        return None;
      }
      var text := ExportSummaryText(fileName, summaryData.value);
      d := Some(SummaryDownload(SummaryFileName(fileName), text));
    }
  }
}
