/** The three writers of the export dialog that walk the outline tree the same way: a
    document head, for each section a heading and for each of its subsections a heading
    followed by the key-point and evidence lists, then the conclusion list and a document
    foot. Markdown, HTML and LaTeX differ only in the text of those pieces, which `Style`
    selects. The XML branch, written as nested `map(...).join('')`, is here too. */
module ExportWriters {
  import opened Text
  import opened OutlineTree

  /** The export settings: which lists to include and whether to number headings. */
  datatype ExportConfig = ExportConfig(
    includeEvidence: bool, includePoints: bool, includeConclusion: bool,
    numbering: string, indentation: string)

  const DefaultConfig: ExportConfig := ExportConfig(true, true, true, "auto", "spaces")

  predicate AutoNumbered(cfg: ExportConfig)
  {
    cfg.numbering == "auto"
  }

  /** "i+1. " before a section title under automatic numbering. */
  function SectionNumber(cfg: ExportConfig, i: nat): string
  {
    if AutoNumbered(cfg) then NatToString(i + 1) + ". " else ""
  }

  /** "i+1.j+1 " before a subsection title under automatic numbering. */
  function SubsectionNumber(cfg: ExportConfig, i: nat, j: nat): string
  {
    if AutoNumbered(cfg) then NatToString(i + 1) + "." + NatToString(j + 1) + " " else ""
  }

  datatype Style = MarkdownStyle | HtmlStyle | LatexStyle

  datatype ListKind = PointsList | EvidenceList | ConclusionList

  const HtmlHeadBeforeTitle: string := "<!DOCTYPE html>\n<html lang=\"vi\">\n<head>\n    <meta charset=\"UTF-8\">\n    <meta name=\"viewport\" content=\"width=device-width, initial-scale=1.0\">\n    <title>"

  const HtmlHeadBetweenTitles: string := "</title>\n    <style>\n        body { \n            font-family: 'Segoe UI', Tahoma, Geneva, Verdana, sans-serif; \n            max-width: 800px; \n            margin: 0 auto; \n            padding: 40px 20px;\n            line-height: 1.6;\n            color: #333;\n        }\n        h1 { \n            color: #2c3e50; \n            border-bottom: 3px solid #3498db; \n            padding-bottom: 10px; \n            margin-bottom: 30px;\n        }\n        h2 { \n            color: #34495e; \n            margin-top: 30px;\n            margin-bottom: 15px;\n        }\n        h3 { \n            color: #7f8c8d; \n            margin-top: 20px;\n            margin-bottom: 10px;\n        }\n        .points, .evidence { \n            background: #f8f9fa; \n            padding: 15px; \n            border-radius: 5px; \n            margin: 15px 0; \n            border-left: 4px solid #3498db;\n        }\n        .evidence { border-left-color: #e74c3c; }\n        ul { margin: 0; }\n        li { margin-bottom: 5px; }\n        .conclusion { \n            background: #e8f5e8; \n            padding: 20px; \n            border-radius: 8px; \n            margin-top: 30px;\n            border-left: 4px solid #27ae60;\n        }\n    </style>\n</head>\n<body>\n    <h1>"

  const LatexPreambleBeforeTitle: string := "\\documentclass[12pt,a4paper]{article}\n\\usepackage[utf8]{inputenc}\n\\usepackage[vietnamese]{babel}\n\\usepackage{amsmath}\n\\usepackage{amsfonts}\n\\usepackage{amssymb}\n\\usepackage{enumitem}\n\\usepackage{geometry}\n\\geometry{margin=2.5cm}\n\n\\title{"

  const LatexPreambleAfterTitle: string := "}\n\\author{Academic AI Assistant}\n\\date{\\today}\n\n\\begin{document}\n\n\\maketitle\n\n"

  function DocumentHead(style: Style, title: string): string
  {
    match style
    case MarkdownStyle => "# " + title + "\n\n"
    case HtmlStyle => HtmlHeadBeforeTitle + title + HtmlHeadBetweenTitles + title + "</h1>"
    case LatexStyle => LatexPreambleBeforeTitle + title + LatexPreambleAfterTitle
  }

  function DocumentFoot(style: Style): string
  {
    match style
    case MarkdownStyle => ""
    case HtmlStyle => "</body>\n</html>"
    case LatexStyle => "\\end{document}"
  }

  /** LaTeX headings are never numbered; the other two follow the numbering setting. */
  function SectionHeading(style: Style, cfg: ExportConfig, i: nat, title: string): string
  {
    match style
    case MarkdownStyle => "## " + SectionNumber(cfg, i) + title + "\n\n"
    case HtmlStyle => "    <h2>" + SectionNumber(cfg, i) + title + "</h2>\n"
    case LatexStyle => "\\section{" + title + "}\n\n"
  }

  function SubsectionHeading(style: Style, cfg: ExportConfig, i: nat, j: nat, title: string): string
  {
    match style
    case MarkdownStyle => "### " + SubsectionNumber(cfg, i, j) + title + "\n\n"
    case HtmlStyle => "    <h3>" + SubsectionNumber(cfg, i, j) + title + "</h3>\n"
    case LatexStyle => "\\subsection{" + title + "}\n\n"
  }

  /** The opening of a list block: its caption, and in HTML and LaTeX the opening of the
      list environment that `ListClose` closes. */
  function ListOpen(style: Style, kind: ListKind): string
  {
    match (style, kind)
    case (MarkdownStyle, PointsList) => "**Key Points:**\n"
    case (MarkdownStyle, EvidenceList) => "**Evidence Needed:**\n"
    case (MarkdownStyle, ConclusionList) => "## Conclusion\n\n"
    case (HtmlStyle, PointsList) => "    <div class=\"points\">\n        <strong>Key Points:</strong>\n        <ul>\n"
    case (HtmlStyle, EvidenceList) => "    <div class=\"evidence\">\n        <strong>Evidence Needed:</strong>\n        <ul>\n"
    case (HtmlStyle, ConclusionList) => "    <div class=\"conclusion\">\n        <h2>Conclusion</h2>\n        <ul>\n"
    case (LatexStyle, PointsList) => "\\textbf{Key Points:}\n\\begin{itemize}\n"
    case (LatexStyle, EvidenceList) => "\\textbf{Evidence Needed:}\n\\begin{itemize}\n"
    case (LatexStyle, ConclusionList) => "\\section{Conclusion}\n\\begin{itemize}\n"
  }

  function ItemOpen(style: Style): string
  {
    match style
    case MarkdownStyle => "- "
    case HtmlStyle => "            <li>"
    case LatexStyle => "    \\item "
  }

  function ItemClose(style: Style): string
  {
    match style
    case MarkdownStyle => "\n"
    case HtmlStyle => "</li>\n"
    case LatexStyle => "\n"
  }

  /** Markdown closes the conclusion with nothing, the other lists with a blank line. */
  function ListClose(style: Style, kind: ListKind): string
  {
    match style
    case MarkdownStyle => if kind == ConclusionList then "" else "\n"
    case HtmlStyle => "        </ul>\n    </div>\n"
    case LatexStyle => "\\end{itemize}\n\n"
  }

  /** A list block: present only when its flag is set and the list is non-empty, and then
      the opening, one line per item, and the closing. */
  function Block(style: Style, kind: ListKind, shown: bool, items: seq<string>): (r: string)
    ensures r != "" <==> shown && |items| > 0
  {
    if shown && |items| > 0 then
      ListOpen(style, kind) + Wrapped(ItemOpen(style), items, ItemClose(style)) + ListClose(style, kind)
    else ""
  }

  function SubsectionText(style: Style, cfg: ExportConfig, i: nat, j: nat, sub: Subsection): string
  {
    SubsectionHeading(style, cfg, i, j, sub.title)
    + Block(style, PointsList, cfg.includePoints, sub.points)
    + Block(style, EvidenceList, cfg.includeEvidence, sub.evidence)
  }

  /** The blocks of the subsections of section `i`, in order. */
  function SubsectionsText(style: Style, cfg: ExportConfig, i: nat, subs: seq<Subsection>): string
  {
    if |subs| == 0 then ""
    else SubsectionsText(style, cfg, i, subs[..|subs| - 1])
         + SubsectionText(style, cfg, i, |subs| - 1, subs[|subs| - 1])
  }

  function SectionText(style: Style, cfg: ExportConfig, i: nat, sec: Section): string
  {
    SectionHeading(style, cfg, i, sec.title) + SubsectionsText(style, cfg, i, sec.subsections)
  }

  function SectionsText(style: Style, cfg: ExportConfig, secs: seq<Section>): string
  {
    if |secs| == 0 then ""
    else SectionsText(style, cfg, secs[..|secs| - 1]) + SectionText(style, cfg, |secs| - 1, secs[|secs| - 1])
  }

  /** The whole document a writer produces: it opens with the style's head, which carries
      the title, and closes with the style's foot. */
  function Document(style: Style, o: Outline, cfg: ExportConfig): (r: string)
    ensures DocumentHead(style, o.title) <= r
    ensures EndsWith(r, DocumentFoot(style))
  {
    DocumentHead(style, o.title)
    + SectionsText(style, cfg, o.sections)
    + Block(style, ConclusionList, cfg.includeConclusion, o.conclusion)
    + DocumentFoot(style)
  }

  /** The opening, the items and the closing of a shown block, appended in turn. */
  method AppendBlock(content: string, style: Style, kind: ListKind, shown: bool, items: seq<string>)
    returns (r: string)
    ensures r == content + Block(style, kind, shown, items)
  {
    r := content;
    if shown && |items| > 0 {
      var open, close := ListOpen(style, kind), ListClose(style, kind);
      r := r + open;
      r := AppendWrapped(r, ItemOpen(style), items, ItemClose(style));
      var body := Wrapped(ItemOpen(style), items, ItemClose(style));
      assert r == (content + open) + body;
      r := r + close;
      Regroup(content, open, body);
      Regroup(content, open + body, close);
    }
  }

  /** One subsection: its heading, then its key points and its evidence. */
  method AppendSubsection(content: string, style: Style, cfg: ExportConfig, i: nat, j: nat, sub: Subsection)
    returns (r: string)
    ensures r == content + SubsectionText(style, cfg, i, j, sub)
  {
    var h := SubsectionHeading(style, cfg, i, j, sub.title);
    var b1 := Block(style, PointsList, cfg.includePoints, sub.points);
    var b2 := Block(style, EvidenceList, cfg.includeEvidence, sub.evidence);
    r := AppendBlock(content + h, style, PointsList, cfg.includePoints, sub.points);
    r := AppendBlock(r, style, EvidenceList, cfg.includeEvidence, sub.evidence);
    Regroup(content, h, b1);
    Regroup(content, h + b1, b2);
  }

  /** The inner loop: the subsections of section `i`, in order. */
  method AppendSubsections(content: string, style: Style, cfg: ExportConfig, i: nat, subs: seq<Subsection>)
    returns (r: string)
    ensures r == content + SubsectionsText(style, cfg, i, subs)
  {
    r := content;
    var j := 0;
    while j < |subs|
      invariant 0 <= j <= |subs|
      invariant r == content + SubsectionsText(style, cfg, i, subs[..j])
    {
      var before := r;
      r := AppendSubsection(r, style, cfg, i, j, subs[j]);
      SubsectionsAppended(content, style, cfg, i, subs, j, before, r);
      j := j + 1;
    }
    assert subs[..|subs|] == subs;
  }

  /** Appending subsection `j` to the text of the first `j` extends it by one. */
  lemma SubsectionsAppended(content: string, style: Style, cfg: ExportConfig, i: nat, subs: seq<Subsection>,
                            j: nat, before: string, r: string)
    requires j < |subs|
    requires before == content + SubsectionsText(style, cfg, i, subs[..j])
    requires r == before + SubsectionText(style, cfg, i, j, subs[j])
    ensures r == content + SubsectionsText(style, cfg, i, subs[..j + 1])
  {
    SubsectionsTextStep(style, cfg, i, subs, j);
    Regroup(content, SubsectionsText(style, cfg, i, subs[..j]), SubsectionText(style, cfg, i, j, subs[j]));
  }

  lemma SectionsTextStep(style: Style, cfg: ExportConfig, secs: seq<Section>, i: nat)
    requires i < |secs|
    ensures SectionsText(style, cfg, secs[..i + 1])
              == SectionsText(style, cfg, secs[..i]) + SectionText(style, cfg, i, secs[i])
  {
    assert secs[..i + 1][..i] == secs[..i];
  }

  /** One section: its heading, then its subsections. */
  method AppendSection(content: string, style: Style, cfg: ExportConfig, i: nat, sec: Section)
    returns (r: string)
    ensures r == content + SectionText(style, cfg, i, sec)
  {
    var heading := SectionHeading(style, cfg, i, sec.title);
    r := AppendSubsections(content + heading, style, cfg, i, sec.subsections);
    Regroup(content, heading, SubsectionsText(style, cfg, i, sec.subsections));
  }

  /** Appending section `i` to the text of the first `i` extends it by one. */
  lemma SectionsAppended(content: string, style: Style, cfg: ExportConfig, secs: seq<Section>, i: nat,
                         before: string, r: string)
    requires i < |secs|
    requires before == content + SectionsText(style, cfg, secs[..i])
    requires r == before + SectionText(style, cfg, i, secs[i])
    ensures r == content + SectionsText(style, cfg, secs[..i + 1])
  {
    SectionsTextStep(style, cfg, secs, i);
    Regroup(content, SectionsText(style, cfg, secs[..i]), SectionText(style, cfg, i, secs[i]));
  }

  /** The outer loop: the sections, in order. */
  method AppendSections(content: string, style: Style, cfg: ExportConfig, secs: seq<Section>)
    returns (r: string)
    ensures r == content + SectionsText(style, cfg, secs)
  {
    r := content;
    var i := 0;
    while i < |secs|
      invariant 0 <= i <= |secs|
      invariant r == content + SectionsText(style, cfg, secs[..i])
    {
      var before := r;
      r := AppendSection(r, style, cfg, i, secs[i]);
      SectionsAppended(content, style, cfg, secs, i, before, r);
      i := i + 1;
    }
    assert secs[..|secs|] == secs;
  }

  /** The head, the sections, the conclusion and the foot, appended in turn. */
  method Render(style: Style, o: Outline, cfg: ExportConfig) returns (content: string)
    ensures content == Document(style, o, cfg)
  {
    content := DocumentHead(style, o.title);
    content := AppendSections(content, style, cfg, o.sections);
    content := AppendBlock(content, style, ConclusionList, cfg.includeConclusion, o.conclusion);
    content := content + DocumentFoot(style);
  }

  /** `generateMarkdown`: opens with "# " and the title and a blank line. */
  method GenerateMarkdown(o: Outline, cfg: ExportConfig) returns (content: string)
    ensures content == Document(MarkdownStyle, o, cfg)
    ensures "# " + o.title + "\n\n" <= content
  {
    content := Render(MarkdownStyle, o, cfg);
  }

  /** `generateHTML`: the fixed head with the title, and the closing body and html tags. */
  method GenerateHtml(o: Outline, cfg: ExportConfig) returns (content: string)
    ensures content == Document(HtmlStyle, o, cfg)
    ensures HtmlHeadBeforeTitle + o.title + HtmlHeadBetweenTitles + o.title + "</h1>" <= content
    ensures EndsWith(content, "</body>\n</html>")
  {
    content := Render(HtmlStyle, o, cfg);
  }

  /** `generateLaTeX`: the preamble with the title, and always "\end{document}" last. */
  method GenerateLatex(o: Outline, cfg: ExportConfig) returns (content: string)
    ensures content == Document(LatexStyle, o, cfg)
    ensures LatexPreambleBeforeTitle + o.title + LatexPreambleAfterTitle <= content
    ensures EndsWith(content, "\\end{document}")
  {
    content := Render(LatexStyle, o, cfg);
  }

  lemma SubsectionsTextStep(style: Style, cfg: ExportConfig, i: nat, subs: seq<Subsection>, j: nat)
    requires j < |subs|
    ensures SubsectionsText(style, cfg, i, subs[..j + 1])
              == SubsectionsText(style, cfg, i, subs[..j]) + SubsectionText(style, cfg, i, j, subs[j])
  {
    assert subs[..j + 1][..j] == subs[..j];
  }

  lemma {:induction false} SectionsTextPrefix(style: Style, cfg: ExportConfig, secs: seq<Section>, n: nat)
    requires n <= |secs|
    ensures SectionsText(style, cfg, secs[..n]) <= SectionsText(style, cfg, secs)
  {
    if n < |secs| {
      var init := secs[..|secs| - 1];
      SectionsTextPrefix(style, cfg, init, n);
      assert init[..n] == secs[..n];
      PrefixExtend(SectionsText(style, cfg, init[..n]), SectionsText(style, cfg, init),
                   SectionText(style, cfg, |secs| - 1, secs[|secs| - 1]));
    } else {
      assert secs[..n] == secs;
    }
  }

  lemma {:induction false} SubsectionsTextPrefix(style: Style, cfg: ExportConfig, i: nat, subs: seq<Subsection>, n: nat)
    requires n <= |subs|
    ensures SubsectionsText(style, cfg, i, subs[..n]) <= SubsectionsText(style, cfg, i, subs)
  {
    if n < |subs| {
      var init := subs[..|subs| - 1];
      SubsectionsTextPrefix(style, cfg, i, init, n);
      assert init[..n] == subs[..n];
      PrefixExtend(SubsectionsText(style, cfg, i, init[..n]), SubsectionsText(style, cfg, i, init),
                   SubsectionText(style, cfg, i, |subs| - 1, subs[|subs| - 1]));
    } else {
      assert subs[..n] == subs;
    }
  }

  lemma SectionsHaveSection(style: Style, cfg: ExportConfig, secs: seq<Section>, i: nat)
    requires i < |secs|
    ensures Occurs(SectionText(style, cfg, i, secs[i]), SectionsText(style, cfg, secs))
  {
    SectionsTextPrefix(style, cfg, secs, i + 1);
    SectionsTextStep(style, cfg, secs, i);
    OccursAfterPrefix(SectionsText(style, cfg, secs[..i]), SectionText(style, cfg, i, secs[i]),
                      SectionsText(style, cfg, secs));
  }

  lemma SubsectionsHaveSubsection(style: Style, cfg: ExportConfig, i: nat, subs: seq<Subsection>, j: nat)
    requires j < |subs|
    ensures Occurs(SubsectionText(style, cfg, i, j, subs[j]), SubsectionsText(style, cfg, i, subs))
  {
    SubsectionsTextPrefix(style, cfg, i, subs, j + 1);
    SubsectionsTextStep(style, cfg, i, subs, j);
    OccursAfterPrefix(SubsectionsText(style, cfg, i, subs[..j]), SubsectionText(style, cfg, i, j, subs[j]),
                      SubsectionsText(style, cfg, i, subs));
  }

  lemma DocumentHasSections(style: Style, o: Outline, cfg: ExportConfig)
    ensures Occurs(SectionsText(style, cfg, o.sections), Document(style, o, cfg))
  {
    var head := DocumentHead(style, o.title);
    var all := SectionsText(style, cfg, o.sections);
    var conclusion := Block(style, ConclusionList, cfg.includeConclusion, o.conclusion);
    Regroup(head + all, conclusion, DocumentFoot(style));
    OccursIn(head, all, conclusion + DocumentFoot(style));
  }

  /** The text of section `i` occurs in the document, and so does its heading. */
  lemma SectionOccurs(style: Style, o: Outline, cfg: ExportConfig, i: nat)
    requires i < |o.sections|
    ensures Occurs(SectionText(style, cfg, i, o.sections[i]), Document(style, o, cfg))
    ensures Occurs(SectionHeading(style, cfg, i, o.sections[i].title), Document(style, o, cfg))
  {
    var sec := o.sections[i];
    var doc := Document(style, o, cfg);
    var st := SectionText(style, cfg, i, sec);
    SectionsHaveSection(style, cfg, o.sections, i);
    DocumentHasSections(style, o, cfg);
    OccursTrans(st, SectionsText(style, cfg, o.sections), doc);
    OccursAtStart(SectionHeading(style, cfg, i, sec.title), SubsectionsText(style, cfg, i, sec.subsections));
    OccursTrans(SectionHeading(style, cfg, i, sec.title), st, doc);
  }

  /** The block of subsection `j` of section `i` (its heading, key points and evidence as
      the configuration shows them) occurs in the document. */
  lemma SubsectionOccurs(style: Style, o: Outline, cfg: ExportConfig, i: nat, j: nat)
    requires i < |o.sections| && j < |o.sections[i].subsections|
    ensures Occurs(SubsectionText(style, cfg, i, j, o.sections[i].subsections[j]), Document(style, o, cfg))
  {
    var sec := o.sections[i];
    var x := SubsectionText(style, cfg, i, j, sec.subsections[j]);
    var all := SubsectionsText(style, cfg, i, sec.subsections);
    SubsectionsHaveSubsection(style, cfg, i, sec.subsections, j);
    OccursAtEnd(SectionHeading(style, cfg, i, sec.title), all);
    OccursTrans(x, all, SectionText(style, cfg, i, sec));
    SectionOccurs(style, o, cfg, i);
    OccursTrans(x, SectionText(style, cfg, i, sec), Document(style, o, cfg));
  }

  /** A subsection with the lists the configuration leaves out emptied. */
  function HideSubsection(sub: Subsection, cfg: ExportConfig): Subsection
  {
    Subsection(sub.title,
               if cfg.includePoints then sub.points else [],
               if cfg.includeEvidence then sub.evidence else [])
  }

  function HideSubsections(subs: seq<Subsection>, cfg: ExportConfig): (r: seq<Subsection>)
    ensures |r| == |subs|
  {
    if |subs| == 0 then []
    else HideSubsections(subs[..|subs| - 1], cfg) + [HideSubsection(subs[|subs| - 1], cfg)]
  }

  function HideSections(secs: seq<Section>, cfg: ExportConfig): (r: seq<Section>)
    ensures |r| == |secs|
  {
    if |secs| == 0 then []
    else
      var last := secs[|secs| - 1];
      HideSections(secs[..|secs| - 1], cfg) + [Section(last.title, HideSubsections(last.subsections, cfg))]
  }

  /** The outline with every list the configuration leaves out emptied. */
  function Hidden(o: Outline, cfg: ExportConfig): Outline
  {
    Outline(o.title, HideSections(o.sections, cfg), if cfg.includeConclusion then o.conclusion else [])
  }

  lemma {:induction false} SubsectionsIgnoreHidden(style: Style, cfg: ExportConfig, i: nat, subs: seq<Subsection>)
    ensures SubsectionsText(style, cfg, i, HideSubsections(subs, cfg)) == SubsectionsText(style, cfg, i, subs)
  {
    if |subs| > 0 {
      var h := HideSubsections(subs, cfg);
      var init := subs[..|subs| - 1];
      assert h[..|h| - 1] == HideSubsections(init, cfg);
      assert h[|h| - 1] == HideSubsection(subs[|subs| - 1], cfg);
      SubsectionsIgnoreHidden(style, cfg, i, init);
    }
  }

  lemma {:induction false} SectionsIgnoreHidden(style: Style, cfg: ExportConfig, secs: seq<Section>)
    ensures SectionsText(style, cfg, HideSections(secs, cfg)) == SectionsText(style, cfg, secs)
  {
    if |secs| > 0 {
      var h := HideSections(secs, cfg);
      var init := secs[..|secs| - 1];
      var last := secs[|secs| - 1];
      assert h[..|h| - 1] == HideSections(init, cfg);
      assert h[|h| - 1] == Section(last.title, HideSubsections(last.subsections, cfg));
      SectionsIgnoreHidden(style, cfg, init);
      SubsectionsIgnoreHidden(style, cfg, |secs| - 1, last.subsections);
    }
  }

  /** A list the configuration leaves out leaves no trace: the document is the same as that
      of the outline with those lists emptied. */
  lemma DocumentIgnoresHidden(style: Style, o: Outline, cfg: ExportConfig)
    ensures Document(style, Hidden(o, cfg), cfg) == Document(style, o, cfg)
  {
    SectionsIgnoreHidden(style, cfg, o.sections);
  }

  /** `<points>` with one `<point>` per key point, or nothing when points are left out;
      unlike the writers above, an empty list still gets its pair of tags. */
  function XmlPoints(cfg: ExportConfig, points: seq<string>): string
  {
    if cfg.includePoints then "<points>" + Wrapped("<point>", points, "</point>") + "</points>" else ""
  }

  function XmlEvidence(cfg: ExportConfig, evidence: seq<string>): string
  {
    if cfg.includeEvidence then "<evidence>" + Wrapped("<item>", evidence, "</item>") + "</evidence>" else ""
  }

  function XmlConclusion(cfg: ExportConfig, conclusion: seq<string>): string
  {
    if cfg.includeConclusion then "<conclusion>" + Wrapped("<point>", conclusion, "</point>") + "</conclusion>" else ""
  }

  /** One `<subsection>` element, always numbered "i+1.j+1" whatever the numbering setting. */
  function XmlSubsection(cfg: ExportConfig, i: nat, j: nat, sub: Subsection): string
  {
    "\n        <subsection id=\"" + NatToString(i + 1) + "." + NatToString(j + 1) + "\">\n          <title>"
    + sub.title + "</title>\n          " + XmlPoints(cfg, sub.points) + "\n          "
    + XmlEvidence(cfg, sub.evidence) + "\n        </subsection>"
  }

  function XmlSubsections(cfg: ExportConfig, i: nat, subs: seq<Subsection>): string
  {
    if |subs| == 0 then ""
    else XmlSubsections(cfg, i, subs[..|subs| - 1]) + XmlSubsection(cfg, i, |subs| - 1, subs[|subs| - 1])
  }

  function XmlSection(cfg: ExportConfig, i: nat, sec: Section): string
  {
    "\n    <section id=\"" + NatToString(i + 1) + "\">\n      <title>" + sec.title
    + "</title>\n      <subsections>\n        " + XmlSubsections(cfg, i, sec.subsections)
    + "\n      </subsections>\n    </section>"
  }

  function XmlSections(cfg: ExportConfig, secs: seq<Section>): string
  {
    if |secs| == 0 then ""
    else XmlSections(cfg, secs[..|secs| - 1]) + XmlSection(cfg, |secs| - 1, secs[|secs| - 1])
  }

  const XmlDeclaration: string := "<?xml version=\"1.0\" encoding=\"UTF-8\"?>\n"

  /** The XML branch of the export: the declaration, the `<outline>` root with the title,
      the sections and the conclusion. */
  function Xml(o: Outline, cfg: ExportConfig): (r: string)
    ensures XmlDeclaration + "<outline>\n  <title>" + o.title + "</title>" <= r
    ensures EndsWith(r, "\n</outline>")
  {
    var close := "\n</outline>";
    var r := XmlDeclaration + "<outline>\n  <title>" + o.title + "</title>\n  <sections>\n    "
             + XmlSections(cfg, o.sections) + "\n  </sections>\n  "
             + XmlConclusion(cfg, o.conclusion) + close;
    assert r[|r| - |close|..] == close;
    r
  }

  lemma {:induction false} XmlSubsectionsIgnoreHidden(cfg: ExportConfig, i: nat, subs: seq<Subsection>)
    ensures XmlSubsections(cfg, i, HideSubsections(subs, cfg)) == XmlSubsections(cfg, i, subs)
  {
    if |subs| > 0 {
      var h := HideSubsections(subs, cfg);
      var init := subs[..|subs| - 1];
      assert h[..|h| - 1] == HideSubsections(init, cfg);
      assert h[|h| - 1] == HideSubsection(subs[|subs| - 1], cfg);
      XmlSubsectionsIgnoreHidden(cfg, i, init);
    }
  }

  lemma {:induction false} XmlSectionsIgnoreHidden(cfg: ExportConfig, secs: seq<Section>)
    ensures XmlSections(cfg, HideSections(secs, cfg)) == XmlSections(cfg, secs)
  {
    if |secs| > 0 {
      var h := HideSections(secs, cfg);
      var init := secs[..|secs| - 1];
      var last := secs[|secs| - 1];
      assert h[..|h| - 1] == HideSections(init, cfg);
      assert h[|h| - 1] == Section(last.title, HideSubsections(last.subsections, cfg));
      XmlSectionsIgnoreHidden(cfg, init);
      XmlSubsectionsIgnoreHidden(cfg, |secs| - 1, last.subsections);
    }
  }

  /** The XML, too, shows nothing of a list the configuration leaves out. */
  lemma XmlIgnoresHidden(o: Outline, cfg: ExportConfig)
    ensures Xml(Hidden(o, cfg), cfg) == Xml(o, cfg)
  {
    XmlSectionsIgnoreHidden(cfg, o.sections);
  }

  /** With points included, a subsection without points still carries an empty `<points>`
      element in the XML, where the Markdown, HTML and LaTeX writers show no block. */
  lemma XmlKeepsEmptyPoints(style: Style, cfg: ExportConfig, i: nat, j: nat, sub: Subsection)
    requires cfg.includePoints && sub.points == []
    ensures Occurs("<points></points>", XmlSubsection(cfg, i, j, sub))
    ensures Block(style, PointsList, cfg.includePoints, sub.points) == ""
  {
    var pre := "\n        <subsection id=\"" + NatToString(i + 1) + "." + NatToString(j + 1) + "\">\n          <title>"
               + sub.title + "</title>\n          ";
    var post := "\n          " + XmlEvidence(cfg, sub.evidence) + "\n        </subsection>";
    assert XmlPoints(cfg, sub.points) == "<points></points>";
    assert XmlSubsection(cfg, i, j, sub) == pre + "<points></points>" + post;
    OccursIn(pre, "<points></points>", post);
  }
}

