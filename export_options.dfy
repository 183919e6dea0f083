/** The export dialog around the writers: the table of eight formats and its grouping by
    category, the choice of writer for a format id, the structured-text variant, the data
    the JSON export serialises, the download name and the MIME type. */
module ExportOptions {
  import opened Common
  import opened Text
  import opened OutlineTree
  import opened ExportWriters
  import opened ExportCsv

  datatype Category = DocumentCategory | DataCategory | WebCategory

  datatype ExportFormat = ExportFormat(id: string, name: string, extension: string, category: Category)

  const ExportFormats: seq<ExportFormat> := [
    ExportFormat("markdown", "Markdown", "md", DocumentCategory),
    ExportFormat("html", "HTML", "html", WebCategory),
    ExportFormat("json", "JSON", "json", DataCategory),
    ExportFormat("csv", "CSV", "csv", DataCategory),
    ExportFormat("xml", "XML", "xml", DataCategory),
    ExportFormat("docx_simple", "Word (Simple)", "docx", DocumentCategory),
    ExportFormat("latex", "LaTeX", "tex", DocumentCategory),
    ExportFormat("txt_structured", "Structured Text", "txt", DocumentCategory)
  ]

  /** `exportFormats.filter(f => f.category === c)`, in table order. */
  function ByCategory(formats: seq<ExportFormat>, c: Category): (r: seq<ExportFormat>)
    ensures |r| <= |formats|
    ensures forall k | 0 <= k < |r| :: r[k].category == c && r[k] in formats
    ensures forall f | f in formats && f.category == c :: f in r
  {
    if |formats| == 0 then []
    else
      var last := formats[|formats| - 1];
      ByCategory(formats[..|formats| - 1], c) + (if last.category == c then [last] else [])
  }

  /** The number of formats of a category, counted independently of the filter. */
  function CountCategory(formats: seq<ExportFormat>, c: Category): nat
  {
    if |formats| == 0 then 0
    else (if formats[0].category == c then 1 else 0) + CountCategory(formats[1..], c)
  }

  lemma {:induction false} ByCategoryCount(formats: seq<ExportFormat>, c: Category)
    ensures |ByCategory(formats, c)| == CountCategory(formats, c)
  {
    if |formats| > 0 {
      var init := formats[..|formats| - 1];
      ByCategoryCount(init, c);
      CountCategorySnoc(init, formats[|formats| - 1], c);
      assert init + [formats[|formats| - 1]] == formats;
    }
  }

  lemma {:induction false} CountCategorySnoc(formats: seq<ExportFormat>, f: ExportFormat, c: Category)
    ensures CountCategory(formats + [f], c) == CountCategory(formats, c) + (if f.category == c then 1 else 0)
  {
    if |formats| > 0 {
      assert (formats + [f])[1..] == formats[1..] + [f];
      CountCategorySnoc(formats[1..], f, c);
    } else {
      assert ([] + [f])[1..] == [];
    }
  }

  lemma {:induction false} CategoriesCover(formats: seq<ExportFormat>)
    ensures CountCategory(formats, DocumentCategory) + CountCategory(formats, DataCategory)
            + CountCategory(formats, WebCategory) == |formats|
  {
    if |formats| > 0 {
      CategoriesCover(formats[1..]);
    }
  }

  /** `formatsByCategory`: each of the eight formats is in the list of its own category and
      in no other, and the three lists together hold eight entries. */
  lemma FormatsByCategoryPartition()
    ensures forall f, c | f in ExportFormats :: f in ByCategory(ExportFormats, c) <==> f.category == c
    ensures |ByCategory(ExportFormats, DocumentCategory)| + |ByCategory(ExportFormats, DataCategory)|
            + |ByCategory(ExportFormats, WebCategory)| == |ExportFormats|
  {
    ByCategoryCount(ExportFormats, DocumentCategory);
    ByCategoryCount(ExportFormats, DataCategory);
    ByCategoryCount(ExportFormats, WebCategory);
    CategoriesCover(ExportFormats);
  }

  /** `exportFormats.find(f => f.id === id)`. */
  function FindFormat(formats: seq<ExportFormat>, id: string): (r: Option<ExportFormat>)
    ensures r.Some? ==> r.value in formats && r.value.id == id
    ensures r.None? ==> forall f | f in formats :: f.id != id
  {
    if |formats| == 0 then None
    else if formats[0].id == id then Some(formats[0])
    else FindFormat(formats[1..], id)
  }

  /** `s.replace(/[#*]/g, "")`. */
  function StripMarks(s: string): (r: string)
    ensures forall k | 0 <= k < |r| :: r[k] != '#' && r[k] != '*'
    ensures |r| <= |s|
    ensures (forall k | 0 <= k < |s| :: s[k] != '#' && s[k] != '*') ==> r == s
  {
    if |s| == 0 then ""
    else (if s[0] == '#' || s[0] == '*' then "" else [s[0]]) + StripMarks(s[1..])
  }

  lemma {:induction false} StripMarksAppend(a: string, b: string)
    ensures StripMarks(a + b) == StripMarks(a) + StripMarks(b)
  {
    if |a| > 0 {
      assert (a + b)[1..] == a[1..] + b;
      StripMarksAppend(a[1..], b);
    } else {
      assert a + b == b;
    }
  }

  /** Removing the marks twice removes nothing more. */
  lemma StripMarksIdempotent(s: string)
    ensures StripMarks(StripMarks(s)) == StripMarks(s)
  {
  }

  /** The structured-text export: the Markdown with every '#' and '*' removed. */
  function StructuredText(o: Outline, cfg: ExportConfig): (r: string)
    ensures forall k | 0 <= k < |r| :: r[k] != '#' && r[k] != '*'
    ensures |r| <= |Document(MarkdownStyle, o, cfg)|
  {
    StripMarks(Document(MarkdownStyle, o, cfg))
  }

  /** The structured text holds neither mark, and it opens with the title (its marks
      removed) after the single space the heading "# " leaves behind. */
  lemma StructuredTextShape(o: Outline, cfg: ExportConfig)
    ensures forall k | 0 <= k < |StructuredText(o, cfg)| ::
      StructuredText(o, cfg)[k] != '#' && StructuredText(o, cfg)[k] != '*'
    ensures " " + StripMarks(o.title) + "\n\n" <= StructuredText(o, cfg)
  {
    var doc := Document(MarkdownStyle, o, cfg);
    var rest := SectionsText(MarkdownStyle, cfg, o.sections)
                + Block(MarkdownStyle, ConclusionList, cfg.includeConclusion, o.conclusion) + DocumentFoot(MarkdownStyle);
    assert doc == "# " + o.title + "\n\n" + rest by {
      Regroup("# " + o.title + "\n\n", SectionsText(MarkdownStyle, cfg, o.sections),
              Block(MarkdownStyle, ConclusionList, cfg.includeConclusion, o.conclusion));
      Regroup("# " + o.title + "\n\n",
              SectionsText(MarkdownStyle, cfg, o.sections) + Block(MarkdownStyle, ConclusionList, cfg.includeConclusion, o.conclusion),
              DocumentFoot(MarkdownStyle));
    }
    StripMarksAppend("# " + o.title + "\n\n", rest);
    StripMarksAppend("# " + o.title, "\n\n");
    StripMarksAppend("# ", o.title);
    assert StripMarks("# ") == " ";
    assert StripMarks("\n\n") == "\n\n";
  }

  /** What `generateJSON` serialises, before `JSON.stringify` and without the export date:
      a list is present exactly when its include flag is set. */
  datatype JsonSubsection = JsonSubsection(
    id: string, title: string, keyPoints: Option<seq<string>>, evidenceNeeded: Option<seq<string>>)

  datatype JsonSection = JsonSection(id: nat, title: string, subsections: seq<JsonSubsection>)

  datatype JsonOutline = JsonOutline(
    title: string, totalSections: nat, totalSubsections: nat,
    structure: seq<JsonSection>, conclusion: Option<seq<string>>)

  function Included(flag: bool, items: seq<string>): Option<seq<string>>
  {
    if flag then Some(items) else None
  }

  function JsonSubsections(cfg: ExportConfig, i: nat, subs: seq<Subsection>): (r: seq<JsonSubsection>)
    ensures |r| == |subs|
    ensures forall j | 0 <= j < |subs| ::
      r[j] == JsonSubsection(NatToString(i + 1) + "." + NatToString(j + 1), subs[j].title,
                             Included(cfg.includePoints, subs[j].points),
                             Included(cfg.includeEvidence, subs[j].evidence))
  {
    if |subs| == 0 then []
    else
      var j := |subs| - 1;
      JsonSubsections(cfg, i, subs[..j])
      + [JsonSubsection(NatToString(i + 1) + "." + NatToString(j + 1), subs[j].title,
                        Included(cfg.includePoints, subs[j].points),
                        Included(cfg.includeEvidence, subs[j].evidence))]
  }

  function JsonStructure(cfg: ExportConfig, secs: seq<Section>): (r: seq<JsonSection>)
    ensures |r| == |secs|
    ensures forall i | 0 <= i < |secs| ::
      r[i] == JsonSection(i + 1, secs[i].title, JsonSubsections(cfg, i, secs[i].subsections))
  {
    if |secs| == 0 then []
    else
      var i := |secs| - 1;
      JsonStructure(cfg, secs[..i]) + [JsonSection(i + 1, secs[i].title, JsonSubsections(cfg, i, secs[i].subsections))]
  }

  /** The data `generateJSON` serialises: the title, the counts, the structure with one
      entry per section, and the conclusion only when it is included. */
  function JsonData(o: Outline, cfg: ExportConfig): (r: JsonOutline)
    ensures r.title == o.title
    ensures r.totalSections == |r.structure| == |o.sections|
    ensures r.totalSubsections == TotalSubsections(o.sections)
    ensures r.conclusion.Some? <==> cfg.includeConclusion
    ensures r.conclusion.Some? ==> r.conclusion.value == o.conclusion
  {
    JsonOutline(o.title, |o.sections|, TotalSubsections(o.sections),
                JsonStructure(cfg, o.sections), Included(cfg.includeConclusion, o.conclusion))
  }

  /** The subsections of a JSON structure, counted over its sections. */
  function StructureSubsections(structure: seq<JsonSection>): nat
  {
    if |structure| == 0 then 0
    else StructureSubsections(structure[..|structure| - 1]) + |structure[|structure| - 1].subsections|
  }

  lemma {:induction false} StructureCounts(cfg: ExportConfig, secs: seq<Section>)
    ensures StructureSubsections(JsonStructure(cfg, secs)) == TotalSubsections(secs)
  {
    if |secs| > 0 {
      var s := JsonStructure(cfg, secs);
      assert s[..|s| - 1] == JsonStructure(cfg, secs[..|secs| - 1]);
      StructureCounts(cfg, secs[..|secs| - 1]);
    }
  }

  /** The metadata agrees with the structure it describes: one entry per section, and the
      subsection total is the number of subsection entries. */
  lemma JsonMetadataMatchesStructure(o: Outline, cfg: ExportConfig)
    ensures JsonData(o, cfg).totalSections == |JsonData(o, cfg).structure|
    ensures JsonData(o, cfg).totalSubsections == StructureSubsections(JsonData(o, cfg).structure)
  {
    StructureCounts(cfg, o.sections);
  }

  /** The content of an export: text, or the data the JSON export serialises. */
  datatype ExportContent = TextContent(text: string) | JsonContent(data: JsonOutline)

  /** `generateContent`: the writer for the id, with Markdown for "docx_simple" and for
      any id it does not know. */
  function ContentFor(formatId: string, o: Outline, cfg: ExportConfig): (e: ExportContent)
    ensures e.JsonContent? <==> formatId == "json"
    ensures formatId !in {"html", "json", "csv", "latex", "txt_structured", "xml"} ==>
      e == TextContent(Document(MarkdownStyle, o, cfg))
    ensures formatId == "latex" ==> EndsWith(e.text, "\\end{document}")
  {
    if formatId == "markdown" then TextContent(Document(MarkdownStyle, o, cfg))
    else if formatId == "html" then TextContent(Document(HtmlStyle, o, cfg))
    else if formatId == "json" then JsonContent(JsonData(o, cfg))
    else if formatId == "csv" then TextContent(Csv(o, cfg))
    else if formatId == "latex" then
      var t := Document(LatexStyle, o, cfg);
      var foot := DocumentFoot(LatexStyle);
      Regroup(DocumentHead(LatexStyle, o.title) + SectionsText(LatexStyle, cfg, o.sections),
              Block(LatexStyle, ConclusionList, cfg.includeConclusion, o.conclusion), foot);
      assert t[|t| - |foot|..] == foot;
      TextContent(t)
    else if formatId == "txt_structured" then TextContent(StructuredText(o, cfg))
    else if formatId == "xml" then TextContent(Xml(o, cfg))
    else TextContent(Document(MarkdownStyle, o, cfg))
  }

  /** `generateContent` running the writers' loops. */
  method GenerateContent(formatId: string, o: Outline, cfg: ExportConfig) returns (e: ExportContent)
    ensures e == ContentFor(formatId, o, cfg)
  {
    if formatId == "html" {
      var t := GenerateHtml(o, cfg);
      e := TextContent(t);
    } else if formatId == "json" {
      e := JsonContent(JsonData(o, cfg));
    } else if formatId == "csv" {
      var t := GenerateCsv(o, cfg);
      e := TextContent(t);
    } else if formatId == "latex" {
      var t := GenerateLatex(o, cfg);
      e := TextContent(t);
    } else if formatId == "txt_structured" {
      var t := GenerateMarkdown(o, cfg);
      e := TextContent(StripMarks(t));
    } else if formatId == "xml" {
      e := TextContent(Xml(o, cfg));
    } else {
      var t := GenerateMarkdown(o, cfg);
      e := TextContent(t);
    }
  }

  predicate IsAsciiAlnum(c: char)
  {
    'a' <= c <= 'z' || 'A' <= c <= 'Z' || '0' <= c <= '9'
  }

  /** One character of `replace(/[^a-z0-9]/gi, '_').toLowerCase()`. */
  function SanitizeChar(c: char): (r: char)
    ensures 'a' <= r <= 'z' || '0' <= r <= '9' || r == '_'
    ensures r == '_' <==> !IsAsciiAlnum(c)
    ensures 'A' <= c <= 'Z' ==> r as int == c as int - 'A' as int + 'a' as int
    ensures ('a' <= c <= 'z' || '0' <= c <= '9') ==> r == c
  {
    if 'A' <= c <= 'Z' then (c as int - 'A' as int + 'a' as int) as char
    else if IsAsciiAlnum(c) then c
    else '_'
  }

  /** The title made safe for a file name, position by position. */
  function Sanitize(s: string): (r: string)
    ensures |r| == |s|
    ensures forall k | 0 <= k < |s| :: r[k] == SanitizeChar(s[k])
  {
    if |s| == 0 then "" else [SanitizeChar(s[0])] + Sanitize(s[1..])
  }

  /** The name uses only lower-case letters, digits and '_', keeps letters and digits in
      place (lower-cased), and sanitising it again changes nothing. */
  lemma SanitizeShape(s: string)
    ensures forall k | 0 <= k < |s| :: 'a' <= Sanitize(s)[k] <= 'z' || '0' <= Sanitize(s)[k] <= '9' || Sanitize(s)[k] == '_'
    ensures forall k | 0 <= k < |s| && ('a' <= s[k] <= 'z' || '0' <= s[k] <= '9') :: Sanitize(s)[k] == s[k]
    ensures Sanitize(Sanitize(s)) == Sanitize(s)
  {
    var r := Sanitize(s);
    var rr := Sanitize(r);
    assert forall k | 0 <= k < |r| :: rr[k] == SanitizeChar(r[k]) == r[k];
  }

  /** The download name: the sanitised title, "_outline." and the format's extension. */
  function ExportFileName(title: string, f: ExportFormat): (r: string)
    ensures |r| == |title| + |"_outline."| + |f.extension|
    ensures r[..|title|] == Sanitize(title)
    ensures forall k | 0 <= k < |title| :: 'a' <= r[k] <= 'z' || '0' <= r[k] <= '9' || r[k] == '_'
    ensures r[|title|..|title| + |"_outline."|] == "_outline."
    ensures EndsWith(r, f.extension)
  {
    SanitizeShape(title);
    var r := Sanitize(title) + "_outline." + f.extension;
    assert forall k | 0 <= k < |title| :: r[k] == Sanitize(title)[k];
    assert r[..|title|] == Sanitize(title);
    r
  }

  datatype Download = Download(fileName: string, content: ExportContent, mimeType: string)

  /** `handleExport`: nothing for an id outside the table; otherwise the content of the
      format under the sanitised name, typed "application/json" exactly for JSON. */
  method HandleExport(selectedFormat: string, o: Outline, cfg: ExportConfig) returns (d: Option<Download>)
    ensures d.None? <==> FindFormat(ExportFormats, selectedFormat).None?
    ensures d.Some? ==>
      d.value.content == ContentFor(selectedFormat, o, cfg)
      && d.value.fileName == ExportFileName(o.title, FindFormat(ExportFormats, selectedFormat).value)
      && (d.value.mimeType == "application/json" <==> selectedFormat == "json")
  {
    var format := FindFormat(ExportFormats, selectedFormat);
    if format.None? {
      return None;
    }
    var content := GenerateContent(selectedFormat, o, cfg);
    var mime := if selectedFormat == "json" then "application/json" else "text/plain";
    d := Some(Download(ExportFileName(o.title, format.value), content, mime));
  }
}
