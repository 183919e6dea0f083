/** The CSV writer of the export dialog: a header line, then for every subsection a title
    row followed by one row per key point and per evidence item, then one row per concluding
    point. Every field is quoted; the text of points, evidence and conclusion has each '"'
    doubled, the rule of section 2 (rule 7) of RFC 4180, while titles are inserted raw. */
module ExportCsv {
  import opened Text
  import opened OutlineTree
  import opened ExportWriters

  const CsvHeader: string := "Section,Subsection,Type,Content\n"

  /** `s.replace(/"/g, '""')`. */
  function EscapeQuotes(s: string): (r: string)
    ensures |r| == |s| + Count(s, '"')
  {
    if |s| == 0 then "" else (if s[0] == '"' then "\"\"" else [s[0]]) + EscapeQuotes(s[1..])
  }

  /** Every '"' of `s`, read from the left, is the first of a pair of quotes. */
  predicate DoubledQuotes(s: string)
  {
    if |s| == 0 then true
    else if s[0] == '"' then |s| >= 2 && s[1] == '"' && DoubledQuotes(s[2..])
    else DoubledQuotes(s[1..])
  }

  /** Each pair of quotes read back as one. */
  function UnescapeQuotes(s: string): string
    requires DoubledQuotes(s)
  {
    if |s| == 0 then ""
    else if s[0] == '"' then "\"" + UnescapeQuotes(s[2..])
    else [s[0]] + UnescapeQuotes(s[1..])
  }

  /** Escaping yields pairs only, and un-doubling them recovers the text. */
  lemma {:induction false} EscapeRoundTrip(s: string)
    ensures DoubledQuotes(EscapeQuotes(s))
    ensures UnescapeQuotes(EscapeQuotes(s)) == s
  {
    if |s| > 0 {
      EscapeRoundTrip(s[1..]);
      var e := EscapeQuotes(s);
      if s[0] == '"' {
        assert e[2..] == EscapeQuotes(s[1..]);
      } else {
        assert e[1..] == EscapeQuotes(s[1..]);
      }
    }
  }

  /** Conversely, a field whose quotes all come in pairs is the escape of its un-doubling. */
  lemma {:induction false} UnescapeRoundTrip(s: string)
    requires DoubledQuotes(s)
    ensures EscapeQuotes(UnescapeQuotes(s)) == s
  {
    if |s| > 0 {
      var u := UnescapeQuotes(s);
      if s[0] == '"' {
        UnescapeRoundTrip(s[2..]);
        assert u[1..] == UnescapeQuotes(s[2..]);
        assert s == "\"\"" + s[2..];
      } else {
        UnescapeRoundTrip(s[1..]);
        assert u[1..] == UnescapeQuotes(s[1..]);
        assert s == [s[0]] + s[1..];
      }
    }
  }

  /** The first column's number: "i+1" under automatic numbering, otherwise empty. */
  function CsvSectionNumber(cfg: ExportConfig, i: nat): string
  {
    if AutoNumbered(cfg) then NatToString(i + 1) else ""
  }

  function CsvSubsectionNumber(cfg: ExportConfig, i: nat, j: nat): string
  {
    if AutoNumbered(cfg) then NatToString(i + 1) + "." + NatToString(j + 1) else ""
  }

  /** The first two quoted fields of every row of subsection `j` of section `i`. */
  function RowLead(cfg: ExportConfig, i: nat, j: nat, sectionTitle: string, subsectionTitle: string): string
  {
    "\"" + CsvSectionNumber(cfg, i) + " " + sectionTitle + "\",\""
    + CsvSubsectionNumber(cfg, i, j) + " " + subsectionTitle + "\","
  }

  const ConclusionLead: string := "\"Conclusion\",\"\","

  function Row(lead: string, kind: string, content: string): string
  {
    lead + "\"" + kind + "\",\"" + content + "\"\n"
  }

  /** One row per item, in order, with the item's quotes doubled. */
  function ItemRows(lead: string, kind: string, items: seq<string>): (r: seq<string>)
    ensures |r| == |items|
    ensures forall k | 0 <= k < |items| :: r[k] == Row(lead, kind, EscapeQuotes(items[k]))
  {
    if |items| == 0 then []
    else ItemRows(lead, kind, items[..|items| - 1]) + [Row(lead, kind, EscapeQuotes(items[|items| - 1]))]
  }

  /** The title row, carrying the title raw, then the point and evidence rows the
      configuration includes; empty lists are not tested for, they just add no rows. */
  function SubsectionRows(cfg: ExportConfig, i: nat, j: nat, sectionTitle: string, sub: Subsection): seq<string>
  {
    var lead := RowLead(cfg, i, j, sectionTitle, sub.title);
    [Row(lead, "Title", sub.title)]
    + (if cfg.includePoints then ItemRows(lead, "Point", sub.points) else [])
    + (if cfg.includeEvidence then ItemRows(lead, "Evidence", sub.evidence) else [])
  }

  function SubsectionsRows(cfg: ExportConfig, i: nat, sectionTitle: string, subs: seq<Subsection>): seq<string>
  {
    if |subs| == 0 then []
    else SubsectionsRows(cfg, i, sectionTitle, subs[..|subs| - 1])
         + SubsectionRows(cfg, i, |subs| - 1, sectionTitle, subs[|subs| - 1])
  }

  function SectionsRows(cfg: ExportConfig, secs: seq<Section>): seq<string>
  {
    if |secs| == 0 then []
    else SectionsRows(cfg, secs[..|secs| - 1])
         + SubsectionsRows(cfg, |secs| - 1, secs[|secs| - 1].title, secs[|secs| - 1].subsections)
  }

  function ConclusionRows(cfg: ExportConfig, conclusion: seq<string>): seq<string>
  {
    if cfg.includeConclusion && |conclusion| > 0 then ItemRows(ConclusionLead, "Conclusion", conclusion) else []
  }

  /** The header line, every subsection's rows, and the conclusion rows. */
  function CsvRows(o: Outline, cfg: ExportConfig): seq<string>
  {
    [CsvHeader] + SectionsRows(cfg, o.sections) + ConclusionRows(cfg, o.conclusion)
  }

  /** The CSV text: its rows one after another, the header line first. */
  function Csv(o: Outline, cfg: ExportConfig): (r: string)
    ensures CsvHeader <= r
  {
    var rest := SectionsRows(cfg, o.sections) + ConclusionRows(cfg, o.conclusion);
    assert CsvRows(o, cfg) == [CsvHeader] + rest;
    ConcatAppend([CsvHeader], rest);
    assert Concat([CsvHeader]) == CsvHeader by {
      assert [CsvHeader][..0] == [];
    }
    Concat(CsvRows(o, cfg))
  }

  /** The number of items in the lists of one kind over a run of subsections. */
  function SubsectionsItems(subs: seq<Subsection>, kind: ListKind): nat
  {
    if |subs| == 0 then 0
    else
      var last := subs[|subs| - 1];
      SubsectionsItems(subs[..|subs| - 1], kind) + (if kind == PointsList then |last.points| else |last.evidence|)
  }

  function SectionsItems(secs: seq<Section>, kind: ListKind): nat
  {
    if |secs| == 0 then 0
    else SectionsItems(secs[..|secs| - 1], kind) + SubsectionsItems(secs[|secs| - 1].subsections, kind)
  }

  lemma {:induction false} SubsectionsRowCount(cfg: ExportConfig, i: nat, title: string, subs: seq<Subsection>)
    ensures |SubsectionsRows(cfg, i, title, subs)|
            == |subs| + (if cfg.includePoints then SubsectionsItems(subs, PointsList) else 0)
               + (if cfg.includeEvidence then SubsectionsItems(subs, EvidenceList) else 0)
  {
    if |subs| > 0 {
      SubsectionsRowCount(cfg, i, title, subs[..|subs| - 1]);
    }
  }

  lemma {:induction false} SectionsRowCount(cfg: ExportConfig, secs: seq<Section>)
    ensures |SectionsRows(cfg, secs)|
            == TotalSubsections(secs) + (if cfg.includePoints then SectionsItems(secs, PointsList) else 0)
               + (if cfg.includeEvidence then SectionsItems(secs, EvidenceList) else 0)
  {
    if |secs| > 0 {
      SectionsRowCount(cfg, secs[..|secs| - 1]);
      var last := secs[|secs| - 1];
      SubsectionsRowCount(cfg, |secs| - 1, last.title, last.subsections);
    }
  }

  /** The header line, one title row per subsection, one row per point when points are
      included, per evidence item when evidence is included, and per concluding point when
      the conclusion is included. */
  lemma CsvRowCount(o: Outline, cfg: ExportConfig)
    ensures |CsvRows(o, cfg)|
            == 1 + TotalSubsections(o.sections)
               + (if cfg.includePoints then SectionsItems(o.sections, PointsList) else 0)
               + (if cfg.includeEvidence then SectionsItems(o.sections, EvidenceList) else 0)
               + (if cfg.includeConclusion then |o.conclusion| else 0)
    ensures CsvRows(o, cfg)[0] == CsvHeader
  {
    SectionsRowCount(cfg, o.sections);
  }

  lemma ItemRowsStep(lead: string, kind: string, items: seq<string>, k: nat)
    requires k < |items|
    ensures ItemRows(lead, kind, items[..k + 1])
              == ItemRows(lead, kind, items[..k]) + [Row(lead, kind, EscapeQuotes(items[k]))]
  {
    assert items[..k + 1][..k] == items[..k];
  }

  /** `items.forEach(x => csv += row(x))`. */
  method AppendItemRows(csv: string, lead: string, kind: string, items: seq<string>) returns (r: string)
    ensures r == csv + Concat(ItemRows(lead, kind, items))
  {
    r := csv;
    var k := 0;
    while k < |items|
      invariant 0 <= k <= |items|
      invariant r == csv + Concat(ItemRows(lead, kind, items[..k]))
    {
      var done := ItemRows(lead, kind, items[..k]);
      var row := Row(lead, kind, EscapeQuotes(items[k]));
      ItemRowsStep(lead, kind, items, k);
      ConcatSnoc(done, row);
      Regroup(csv, Concat(done), row);
      r := r + row;
      k := k + 1;
    }
    assert items[..|items|] == items;
  }

  /** The rows of one subsection, appended. */
  method AppendSubsectionRows(csv: string, cfg: ExportConfig, i: nat, j: nat, sectionTitle: string, sub: Subsection)
    returns (r: string)
    ensures r == csv + Concat(SubsectionRows(cfg, i, j, sectionTitle, sub))
  {
    var lead := RowLead(cfg, i, j, sectionTitle, sub.title);
    var title := Row(lead, "Title", sub.title);
    var points: seq<string> := if cfg.includePoints then ItemRows(lead, "Point", sub.points) else [];
    var evidence: seq<string> := if cfg.includeEvidence then ItemRows(lead, "Evidence", sub.evidence) else [];
    r := csv + title;
    if cfg.includePoints {
      r := AppendItemRows(r, lead, "Point", sub.points);
    }
    if cfg.includeEvidence {
      r := AppendItemRows(r, lead, "Evidence", sub.evidence);
    }
    assert Concat([title]) == title by {
      assert [title][..0] == [];
    }
    ConcatAppend([title], points);
    ConcatAppend([title] + points, evidence);
    Regroup(csv, title, Concat(points));
    Regroup(csv, title + Concat(points), Concat(evidence));
  }

  /** The inner loop over the subsections of section `i`. */
  method AppendSubsectionsRows(csv: string, cfg: ExportConfig, i: nat, sectionTitle: string, subs: seq<Subsection>)
    returns (r: string)
    ensures r == csv + Concat(SubsectionsRows(cfg, i, sectionTitle, subs))
  {
    r := csv;
    var j := 0;
    while j < |subs|
      invariant 0 <= j <= |subs|
      invariant r == csv + Concat(SubsectionsRows(cfg, i, sectionTitle, subs[..j]))
    {
      var done := SubsectionsRows(cfg, i, sectionTitle, subs[..j]);
      var rows := SubsectionRows(cfg, i, j, sectionTitle, subs[j]);
      assert subs[..j + 1][..j] == subs[..j];
      ConcatAppend(done, rows);
      Regroup(csv, Concat(done), Concat(rows));
      r := AppendSubsectionRows(r, cfg, i, j, sectionTitle, subs[j]);
      j := j + 1;
    }
    assert subs[..|subs|] == subs;
  }

  /** `generateCSV`: the nested loops over sections and subsections, then the conclusion. */
  method GenerateCsv(o: Outline, cfg: ExportConfig) returns (csv: string)
    ensures csv == Csv(o, cfg)
  {
    var secs := o.sections;
    csv := CsvHeader;
    assert Concat([CsvHeader]) == CsvHeader by {
      assert [CsvHeader][..0] == [];
    }
    var i := 0;
    while i < |secs|
      invariant 0 <= i <= |secs|
      invariant csv == Concat([CsvHeader] + SectionsRows(cfg, secs[..i]))
    {
      var done := [CsvHeader] + SectionsRows(cfg, secs[..i]);
      var rows := SubsectionsRows(cfg, i, secs[i].title, secs[i].subsections);
      assert secs[..i + 1][..i] == secs[..i];
      assert [CsvHeader] + SectionsRows(cfg, secs[..i + 1]) == done + rows;
      ConcatAppend(done, rows);
      csv := AppendSubsectionsRows(csv, cfg, i, secs[i].title, secs[i].subsections);
      i := i + 1;
    }
    assert secs[..|secs|] == secs;
    var before := [CsvHeader] + SectionsRows(cfg, secs);
    ConcatAppend(before, ConclusionRows(cfg, o.conclusion));
    if cfg.includeConclusion && |o.conclusion| > 0 {
      csv := AppendItemRows(csv, ConclusionLead, "Conclusion", o.conclusion);
    }
  }
}
