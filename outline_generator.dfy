/** The outline generator: the input guard before the backend call, the expanded-section
    set, and the Markdown export with its own loops, which always numbers headings and
    shows every non-empty list. */
module OutlineGenerator {
  import opened Common
  import opened Text
  import opened OutlineTree
  import opened ExportWriters
  import EditableOutline
  import ExportOptions

  /** All three inputs are needed before the generator is called. */
  predicate InputsComplete(topic: string, academicLevel: string, wordCount: string)
  {
    topic != "" && academicLevel != "" && wordCount != ""
  }

  /** The Markdown download of the generator. */
  datatype MarkdownDownload = MarkdownDownload(fileName: string, text: string)

  /** The lines of one list: the opening line, "- item" per item, and a blank line. */
  method AppendList(text: string, heading: string, items: seq<string>) returns (r: string)
    ensures r == text + (if |items| > 0 then heading + Wrapped("- ", items, "\n") + "\n" else "")
  {
    r := text;
    if |items| > 0 {
      r := r + heading;
      r := AppendWrapped(r, "- ", items, "\n");
      r := r + "\n";
      Regroup(text, heading, Wrapped("- ", items, "\n"));
      Regroup(text, heading + Wrapped("- ", items, "\n"), "\n");
    }
  }

  /** Subsection `j` of section `i`: the heading "### i+1.j+1 title", then the non-empty
      key-point and evidence lists. */
  method ExportSubsection(text: string, i: nat, j: nat, sub: Subsection) returns (r: string)
    ensures r == text + SubsectionText(MarkdownStyle, DefaultConfig, i, j, sub)
  {
    var h := "### " + NatToString(i + 1) + "." + NatToString(j + 1) + " " + sub.title + "\n\n";
    assert h == SubsectionHeading(MarkdownStyle, DefaultConfig, i, j, sub.title) by {
      var n := NatToString(i + 1) + "." + NatToString(j + 1);
      Regroup("### ", n, " ");
      Regroup("### ", NatToString(i + 1) + ".", NatToString(j + 1));
      Regroup("### ", NatToString(i + 1), ".");
    }
    var b1 := Block(MarkdownStyle, PointsList, true, sub.points);
    var b2 := Block(MarkdownStyle, EvidenceList, true, sub.evidence);
    r := AppendList(text + h, "**Key Points:**\n", sub.points);
    r := AppendList(r, "**Evidence Needed:**\n", sub.evidence);
    Regroup(text, h, b1);
    Regroup(text, h + b1, b2);
  }

  /** The subsections of section `i`, in order. */
  method ExportSubsections(text: string, i: nat, subs: seq<Subsection>) returns (r: string)
    ensures r == text + SubsectionsText(MarkdownStyle, DefaultConfig, i, subs)
  {
    r := text;
    var j := 0;
    while j < |subs|
      invariant 0 <= j <= |subs|
      invariant r == text + SubsectionsText(MarkdownStyle, DefaultConfig, i, subs[..j])
    {
      var before := r;
      r := ExportSubsection(r, i, j, subs[j]);
      SubsectionsAppended(text, MarkdownStyle, DefaultConfig, i, subs, j, before, r);
      j := j + 1;
    }
    assert subs[..|subs|] == subs;
  }

  /** Section `i`: the heading "## i+1. title", then its subsections. */
  method ExportSection(text: string, i: nat, sec: Section) returns (r: string)
    ensures r == text + SectionText(MarkdownStyle, DefaultConfig, i, sec)
  {
    var heading := "## " + NatToString(i + 1) + ". " + sec.title + "\n\n";
    assert heading == SectionHeading(MarkdownStyle, DefaultConfig, i, sec.title) by {
      Regroup("## ", NatToString(i + 1), ". ");
    }
    r := ExportSubsections(text + heading, i, sec.subsections);
    Regroup(text, heading, SubsectionsText(MarkdownStyle, DefaultConfig, i, sec.subsections));
  }

  /** The sections, in order. */
  method ExportSections(text: string, secs: seq<Section>) returns (r: string)
    ensures r == text + SectionsText(MarkdownStyle, DefaultConfig, secs)
  {
    r := text;
    var i := 0;
    while i < |secs|
      invariant 0 <= i <= |secs|
      invariant r == text + SectionsText(MarkdownStyle, DefaultConfig, secs[..i])
    {
      var before := r;
      r := ExportSection(r, i, secs[i]);
      SectionsAppended(text, MarkdownStyle, DefaultConfig, secs, i, before, r);
      i := i + 1;
    }
    assert secs[..|secs|] == secs;
  }

  /** `exportOutline`'s text: the same document the export dialog's Markdown writer makes
      with automatic numbering and every list included. */
  method ExportText(o: Outline) returns (text: string)
    ensures text == Document(MarkdownStyle, o, DefaultConfig)
  {
    var head := "# " + o.title + "\n\n";
    text := ExportSections(head, o.sections);
    var body := text;
    if |o.conclusion| > 0 {
      text := text + "## Conclusion\n\n";
      text := AppendWrapped(text, "- ", o.conclusion, "\n");
      Regroup(body, "## Conclusion\n\n", Wrapped("- ", o.conclusion, "\n"));
    }
    assert text == Document(MarkdownStyle, o, DefaultConfig) by {
      var b := Block(MarkdownStyle, ConclusionList, DefaultConfig.includeConclusion, o.conclusion);
      assert |o.conclusion| > 0 ==> b == "## Conclusion\n\n" + Wrapped("- ", o.conclusion, "\n") + "";
    }
  }

  /** The generator page's state. */
  class GeneratorState {
    var topic: string
    var academicLevel: string
    var wordCount: string
    var outline: Option<Outline>
    var expanded: set<int>

    constructor()
      ensures topic == "" && academicLevel == "" && wordCount == ""
      ensures outline == None && expanded == {}
    {
      topic := "";
      academicLevel := "";
      wordCount := "";
      outline := None;
      expanded := {};
    }

    /** `generateOutline`: without all three inputs there is no call and nothing changes;
        a successful call stores the outline and expands exactly section 0; a failed one
        leaves the state as it was. */
    method Generate(response: Outcome<Outline>) returns (called: bool)
      modifies this
      ensures called <==> InputsComplete(topic, academicLevel, wordCount)
      ensures topic == old(topic) && academicLevel == old(academicLevel) && wordCount == old(wordCount)
      ensures called && response.Succeeded? ==> outline == Some(response.data) && expanded == {0}
      ensures !(called && response.Succeeded?) ==> outline == old(outline) && expanded == old(expanded)
    {
      if !InputsComplete(topic, academicLevel, wordCount) {
        return false;
      }
      called := true;
      if response.Succeeded? {
        outline := Some(response.data);
        expanded := {0};
      }
    }

    /** `toggleSection`, on a copy of the set. */
    method ToggleSection(index: int)
      modifies this
      ensures expanded == EditableOutline.Toggle(old(expanded), index)
      ensures outline == old(outline)
      ensures topic == old(topic) && academicLevel == old(academicLevel) && wordCount == old(wordCount)
    {
      var copy := expanded;
      if index in copy {
        copy := copy - {index};
      } else {
        copy := copy + {index};
      }
      expanded := copy;
    }

    /** `exportOutline`: nothing without an outline; otherwise the Markdown text under the
        sanitised title with "_outline.md". */
    method ExportOutline() returns (d: Option<MarkdownDownload>)
      ensures d.None? <==> outline.None?
      ensures d.Some? ==>
        d.value.text == Document(MarkdownStyle, outline.value, DefaultConfig)
        && d.value.fileName == ExportOptions.Sanitize(outline.value.title) + "_outline.md"
    {
      if outline.None? {
        return None;
      }
      var text := ExportText(outline.value);
      d := Some(MarkdownDownload(ExportOptions.Sanitize(outline.value.title) + "_outline.md", text));
    }
  }
}
