/** The full-article edge function: the request defaults, the missing-key error, the plain
    outline text handed to the model, the `max_tokens` clamp and the word count of the
    reply. The model call itself is an opaque success or failure. */
module FullArticle {
  import opened Common
  import opened Text
  import opened OutlineTree
  import ExportWriters

  const DefaultTone: string := "academic"

  const DefaultModel: string := "anthropic/claude-3.5-sonnet"

  /** The request body; `tone` and `model` are absent (undefined) or present. */
  datatype ArticleRequest = ArticleRequest(
    outline: Outline, topic: string, academicLevel: string, wordCount: int,
    tone: Option<string>, model: Option<string>)

  /** The destructuring default: used only when the field is absent, so a present empty
      string is kept. */
  function Tone(req: ArticleRequest): (r: string)
    ensures req.tone.None? ==> r == DefaultTone
    ensures req.tone.Some? ==> r == req.tone.value
  {
    req.tone.GetOr(DefaultTone)
  }

  function Model(req: ArticleRequest): (r: string)
    ensures req.model.None? ==> r == DefaultModel
    ensures req.model.Some? ==> r == req.model.value
  {
    req.model.GetOr(DefaultModel)
  }

  /** `Math.min(4000, Math.max(wordCount * 2, 2000))`. */
  function MaxTokens(wordCount: int): (r: int)
    ensures 2000 <= r <= 4000
    ensures 1000 <= wordCount <= 2000 ==> r == 2 * wordCount
    ensures wordCount <= 1000 ==> r == 2000
    ensures wordCount >= 2000 ==> r == 4000
  {
    var doubled := if wordCount * 2 > 2000 then wordCount * 2 else 2000;
    if doubled < 4000 then doubled else 4000
  }

  /** A longer target never asks for fewer tokens. */
  lemma MaxTokensMonotone(a: int, b: int)
    requires a <= b
    ensures MaxTokens(a) <= MaxTokens(b)
  {
  }

  /** The line of section `i`: "i+1. title". */
  function SectionLine(i: nat, title: string): string
  {
    NatToString(i + 1) + ". " + title + "\n"
  }

  /** The line of subsection `j` of section `i`, indented two spaces: "  i+1.j+1 title". */
  function SubsectionLine(i: nat, j: nat, title: string): string
  {
    "  " + NatToString(i + 1) + "." + NatToString(j + 1) + " " + title + "\n"
  }

  /** One "    - point" line per key point. */
  function PointLines(points: seq<string>): string
  {
    Wrapped("    - ", points, "\n")
  }

  /** A subsection's line followed by its point lines; its evidence is never written. */
  function SubsectionEntry(i: nat, j: nat, sub: Subsection): string
  {
    SubsectionLine(i, j, sub.title) + PointLines(sub.points)
  }

  function SubsectionEntries(i: nat, subs: seq<Subsection>): string
  {
    if |subs| == 0 then ""
    else SubsectionEntries(i, subs[..|subs| - 1]) + SubsectionEntry(i, |subs| - 1, subs[|subs| - 1])
  }

  /** A section's line, its subsection entries and a closing newline. */
  function SectionBlock(i: nat, sec: Section): string
  {
    SectionLine(i, sec.title) + SubsectionEntries(i, sec.subsections) + "\n"
  }

  function SectionBlocks(secs: seq<Section>): string
  {
    if |secs| == 0 then ""
    else SectionBlocks(secs[..|secs| - 1]) + SectionBlock(|secs| - 1, secs[|secs| - 1])
  }

  const ConclusionHeading: string := "Conclusion:\n"

  /** The conclusion block: nothing at all when there is no concluding point, otherwise the
      heading and a "- point" line per point. */
  function ConclusionLines(conclusion: seq<string>): (r: string)
    ensures r == "" <==> |conclusion| == 0
    ensures |conclusion| > 0 ==> ConclusionHeading <= r
  {
    if |conclusion| > 0 then ConclusionHeading + Wrapped("- ", conclusion, "\n") else ""
  }

  /** The outline text placed in the prompt: it opens with the title and a blank line,
      and an outline without sections or conclusion gives nothing more. */
  function OutlineText(o: Outline): (r: string)
    ensures o.title + "\n\n" <= r
    ensures |o.sections| == 0 && |o.conclusion| == 0 ==> r == o.title + "\n\n"
  {
    Regroup(o.title + "\n\n", SectionBlocks(o.sections), ConclusionLines(o.conclusion));
    o.title + "\n\n" + SectionBlocks(o.sections) + ConclusionLines(o.conclusion)
  }

  lemma SubsectionEntriesStep(i: nat, subs: seq<Subsection>, j: nat)
    requires j < |subs|
    ensures SubsectionEntries(i, subs[..j + 1]) == SubsectionEntries(i, subs[..j]) + SubsectionEntry(i, j, subs[j])
  {
    assert subs[..j + 1][..j] == subs[..j];
  }

  lemma SectionBlocksStep(secs: seq<Section>, i: nat)
    requires i < |secs|
    ensures SectionBlocks(secs[..i + 1]) == SectionBlocks(secs[..i]) + SectionBlock(i, secs[i])
  {
    assert secs[..i + 1][..i] == secs[..i];
  }

  /** The subsection loop: each subsection's line, then its points. */
  method AppendSubsectionEntries(text: string, i: nat, subs: seq<Subsection>) returns (r: string)
    ensures r == text + SubsectionEntries(i, subs)
  {
    r := text;
    var j := 0;
    while j < |subs|
      invariant 0 <= j <= |subs|
      invariant r == text + SubsectionEntries(i, subs[..j])
    {
      var line := SubsectionLine(i, j, subs[j].title);
      var before := r;
      r := r + line;
      if |subs[j].points| > 0 {
        r := AppendWrapped(r, "    - ", subs[j].points, "\n");
      }
      Regroup(before, line, PointLines(subs[j].points));
      Regroup(text, SubsectionEntries(i, subs[..j]), SubsectionEntry(i, j, subs[j]));
      SubsectionEntriesStep(i, subs, j);
      j := j + 1;
    }
    assert subs[..|subs|] == subs;
  }

  /** `outlineText`, built with the nested loops of the handler. */
  method BuildOutlineText(o: Outline) returns (text: string)
    ensures text == OutlineText(o)
  {
    var secs := o.sections;
    var head := o.title + "\n\n";
    text := head;
    var i := 0;
    while i < |secs|
      invariant 0 <= i <= |secs|
      invariant text == head + SectionBlocks(secs[..i])
    {
      var done := SectionBlocks(secs[..i]);
      var line := SectionLine(i, secs[i].title);
      var entries := SubsectionEntries(i, secs[i].subsections);
      text := AppendSubsectionEntries(text + line, i, secs[i].subsections);
      text := text + "\n";
      Regroup(head, done, line);
      Regroup(head, done + line, entries);
      Regroup(head, done + line + entries, "\n");
      Regroup(done, line, entries);
      Regroup(done, line + entries, "\n");
      SectionBlocksStep(secs, i);
      i := i + 1;
    }
    assert secs[..|secs|] == secs;
    if |o.conclusion| > 0 {
      var body := text;
      text := text + ConclusionHeading;
      text := AppendWrapped(text, "- ", o.conclusion, "\n");
      Regroup(body, ConclusionHeading, Wrapped("- ", o.conclusion, "\n"));
    }
  }

  /** The text opens with the title and a blank line. */
  lemma {:induction false} SectionBlocksPrefix(secs: seq<Section>, n: nat)
    requires n <= |secs|
    ensures SectionBlocks(secs[..n]) <= SectionBlocks(secs)
  {
    if n < |secs| {
      var init := secs[..|secs| - 1];
      SectionBlocksPrefix(init, n);
      assert init[..n] == secs[..n];
      PrefixExtend(SectionBlocks(init[..n]), SectionBlocks(init), SectionBlock(|secs| - 1, secs[|secs| - 1]));
    } else {
      assert secs[..n] == secs;
    }
  }

  lemma {:induction false} SubsectionEntriesPrefix(i: nat, subs: seq<Subsection>, n: nat)
    requires n <= |subs|
    ensures SubsectionEntries(i, subs[..n]) <= SubsectionEntries(i, subs)
  {
    if n < |subs| {
      var init := subs[..|subs| - 1];
      SubsectionEntriesPrefix(i, init, n);
      assert init[..n] == subs[..n];
      PrefixExtend(SubsectionEntries(i, init[..n]), SubsectionEntries(i, init),
                   SubsectionEntry(i, |subs| - 1, subs[|subs| - 1]));
    } else {
      assert subs[..n] == subs;
    }
  }

  lemma SectionBlocksHaveBlock(secs: seq<Section>, i: nat)
    requires i < |secs|
    ensures Occurs(SectionBlock(i, secs[i]), SectionBlocks(secs))
  {
    SectionBlocksPrefix(secs, i + 1);
    SectionBlocksStep(secs, i);
    OccursAfterPrefix(SectionBlocks(secs[..i]), SectionBlock(i, secs[i]), SectionBlocks(secs));
  }

  /** The block of section `i` (its numbered line first) occurs in the text. */
  lemma SectionBlockOccurs(o: Outline, i: nat)
    requires i < |o.sections|
    ensures Occurs(SectionBlock(i, o.sections[i]), OutlineText(o))
    ensures Occurs(SectionLine(i, o.sections[i].title), OutlineText(o))
  {
    var sec := o.sections[i];
    var all := SectionBlocks(o.sections);
    var block := SectionBlock(i, sec);
    SectionBlocksHaveBlock(o.sections, i);
    OccursIn(o.title + "\n\n", all, ConclusionLines(o.conclusion));
    OccursTrans(block, all, OutlineText(o));
    SectionLineInBlock(i, sec);
    OccursTrans(SectionLine(i, sec.title), block, OutlineText(o));
  }

  lemma SectionLineInBlock(i: nat, sec: Section)
    ensures Occurs(SectionLine(i, sec.title), SectionBlock(i, sec))
  {
    var line := SectionLine(i, sec.title);
    OccursAtStart(line, SubsectionEntries(i, sec.subsections) + "\n");
    Regroup(line, SubsectionEntries(i, sec.subsections), "\n");
  }

  /** Subsection `j` of section `i` is written as its indented numbered line followed by its
      point lines, and that entry occurs in the text. */
  lemma SubsectionEntryOccurs(o: Outline, i: nat, j: nat)
    requires i < |o.sections| && j < |o.sections[i].subsections|
    ensures Occurs(SubsectionEntry(i, j, o.sections[i].subsections[j]), OutlineText(o))
  {
    var sec := o.sections[i];
    var subs := sec.subsections;
    var all := SubsectionEntries(i, subs);
    SubsectionEntriesPrefix(i, subs, j + 1);
    SubsectionEntriesStep(i, subs, j);
    OccursAfterPrefix(SubsectionEntries(i, subs[..j]), SubsectionEntry(i, j, subs[j]), all);
    OccursIn(SectionLine(i, sec.title), all, "\n");
    OccursTrans(SubsectionEntry(i, j, subs[j]), all, SectionBlock(i, sec));
    SectionBlockOccurs(o, i);
    OccursTrans(SubsectionEntry(i, j, subs[j]), SectionBlock(i, sec), OutlineText(o));
  }

  /** Every key point yields its own "    - point" line. */
  lemma PointOccurs(o: Outline, i: nat, j: nat, k: nat)
    requires i < |o.sections| && j < |o.sections[i].subsections|
    requires k < |o.sections[i].subsections[j].points|
    ensures Occurs("    - " + o.sections[i].subsections[j].points[k] + "\n", OutlineText(o))
  {
    var sub := o.sections[i].subsections[j];
    var x := "    - " + sub.points[k] + "\n";
    WrappedHasItem("    - ", sub.points, "\n", k);
    OccursAtEnd(SubsectionLine(i, j, sub.title), PointLines(sub.points));
    OccursTrans(x, PointLines(sub.points), SubsectionEntry(i, j, sub));
    SubsectionEntryOccurs(o, i, j);
    OccursTrans(x, SubsectionEntry(i, j, sub), OutlineText(o));
  }

  /** Every concluding point yields its own "- point" line under the heading. */
  lemma ConclusionPointOccurs(o: Outline, k: nat)
    requires k < |o.conclusion|
    ensures Occurs("- " + o.conclusion[k] + "\n", OutlineText(o))
  {
    var x := "- " + o.conclusion[k] + "\n";
    var w := Wrapped("- ", o.conclusion, "\n");
    WrappedHasItem("- ", o.conclusion, "\n", k);
    OccursAtEnd(ConclusionHeading, w);
    OccursTrans(x, w, ConclusionLines(o.conclusion));
    OccursAtEnd(o.title + "\n\n" + SectionBlocks(o.sections), ConclusionLines(o.conclusion));
    OccursTrans(x, ConclusionLines(o.conclusion), OutlineText(o));
  }

  lemma {:induction false} EntriesEndInNewline(i: nat, subs: seq<Subsection>)
    ensures SubsectionEntries(i, subs) == "" <==> |subs| == 0
    ensures |subs| > 0 ==> EndsWith(SubsectionEntries(i, subs), "\n")
  {
    if |subs| > 0 {
      var sub := subs[|subs| - 1];
      var line := SubsectionLine(i, |subs| - 1, sub.title);
      var pts := PointLines(sub.points);
      var e := SubsectionEntries(i, subs);
      assert e == SubsectionEntries(i, subs[..|subs| - 1]) + (line + pts);
      if |sub.points| == 0 {
        assert line + pts == line;
      } else {
        var ps := sub.points;
        assert pts == Wrapped("    - ", ps[..|ps| - 1], "\n") + ("    - " + ps[|ps| - 1] + "\n");
      }
      assert e[|e| - 1] == '\n';
    }
  }

  /** Every section block ends with a blank line: its last line (the section's own line, or
      its last subsection or point line) is followed by one more newline. */
  lemma SectionBlockEnds(i: nat, sec: Section)
    ensures EndsWith(SectionBlock(i, sec), "\n\n")
  {
    var line := SectionLine(i, sec.title);
    var entries := SubsectionEntries(i, sec.subsections);
    var body := line + entries;
    EntriesEndInNewline(i, sec.subsections);
    if |sec.subsections| == 0 {
      assert body == line;
    }
    assert body[|body| - 1] == '\n';
    var b := SectionBlock(i, sec);
    assert b == body + "\n";
    assert b[|b| - 2..] == [body[|body| - 1], '\n'];
  }

  /** The configuration of the export writers that empties only the evidence lists. */
  const EvidenceOff: ExportWriters.ExportConfig := ExportWriters.ExportConfig(false, true, true, "auto", "spaces")

  lemma {:induction false} EntriesIgnoreEvidence(i: nat, subs: seq<Subsection>)
    ensures SubsectionEntries(i, ExportWriters.HideSubsections(subs, EvidenceOff)) == SubsectionEntries(i, subs)
  {
    if |subs| > 0 {
      var h := ExportWriters.HideSubsections(subs, EvidenceOff);
      var init := subs[..|subs| - 1];
      assert h[..|h| - 1] == ExportWriters.HideSubsections(init, EvidenceOff);
      assert h[|h| - 1] == ExportWriters.HideSubsection(subs[|subs| - 1], EvidenceOff);
      EntriesIgnoreEvidence(i, init);
    }
  }

  lemma {:induction false} BlocksIgnoreEvidence(secs: seq<Section>)
    ensures SectionBlocks(ExportWriters.HideSections(secs, EvidenceOff)) == SectionBlocks(secs)
  {
    if |secs| > 0 {
      var h := ExportWriters.HideSections(secs, EvidenceOff);
      var init := secs[..|secs| - 1];
      var last := secs[|secs| - 1];
      assert h[..|h| - 1] == ExportWriters.HideSections(init, EvidenceOff);
      assert h[|h| - 1] == Section(last.title, ExportWriters.HideSubsections(last.subsections, EvidenceOff));
      BlocksIgnoreEvidence(init);
      EntriesIgnoreEvidence(|secs| - 1, last.subsections);
    }
  }

  /** Evidence never reaches the prompt: emptying every evidence list (and nothing else)
      leaves the outline text unchanged. */
  lemma OutlineTextIgnoresEvidence(o: Outline)
    ensures OutlineText(ExportWriters.Hidden(o, EvidenceOff)) == OutlineText(o)
  {
    BlocksIgnoreEvidence(o.sections);
  }

  /** `generatedArticle.split(' ').length`: one more than the number of spaces, so at least
      one even for an empty article. */
  function ResponseWordCount(article: string): (r: nat)
    ensures r == Count(article, ' ') + 1
    ensures r >= 1
  {
    |SplitOn(article, ' ')|
  }

  /** What is sent to the chat-completion endpoint, with the prompt's fixed wording left
      out: the model, the token budget, and what the prompt embeds (the outline text, the
      topic, the academic level, the target word count and the tone). */
  datatype CompletionRequest = CompletionRequest(
    model: string, maxTokens: int, outlineText: string,
    topic: string, academicLevel: string, wordCount: int, tone: string)

  datatype ArticleResponse =
    | Article(article: string, wordCount: nat, outline: Outline)
    | ServerError(status: nat)

  /** The handler: without an API key it answers 500 before calling the model; otherwise
      it sends one completion request, answers 500 when the call fails, and otherwise returns
      the article, its word count and the outline it was given. */
  method HandleRequest(req: ArticleRequest, apiKey: Option<string>, reply: Outcome<string>)
    returns (sent: Option<CompletionRequest>, resp: ArticleResponse)
    ensures sent.None? <==> (apiKey.None? || apiKey.value == "")
    ensures sent.Some? ==>
      sent.value == CompletionRequest(
        Model(req), MaxTokens(req.wordCount), OutlineText(req.outline),
        req.topic, req.academicLevel, req.wordCount, Tone(req))
    ensures sent.None? ==> resp == ServerError(500)
    ensures resp.Article? <==> sent.Some? && reply.Succeeded?
    ensures resp.Article? ==>
      resp.article == reply.data
      && resp.wordCount == Count(reply.data, ' ') + 1
      && resp.outline == req.outline
    ensures resp.ServerError? ==> resp.status == 500
  {
    if apiKey.None? || apiKey.value == "" {
      return None, ServerError(500);
    }
    var text := BuildOutlineText(req.outline);
    sent := Some(CompletionRequest(
      Model(req), MaxTokens(req.wordCount), text, req.topic, req.academicLevel, req.wordCount, Tone(req)));
    if reply.Failed? {
      return sent, ServerError(500);
    }
    resp := Article(reply.data, ResponseWordCount(reply.data), req.outline);
  }
}
