/** The outline editor: indexed updates, appends and deletions on the nested outline, the
    set of expanded sections, and the textareas that hold one item per line. Every edit
    matches indices with `===`, so an index outside the sequence changes nothing. */
module EditableOutline {
  import opened Text
  import opened OutlineTree

  const NewSectionTitle: string := "Phần mới"
  const NewSubsectionTitle: string := "Tiểu mục mới"

  const NewSubsection: Subsection := Subsection(NewSubsectionTitle, [], [])

  function UpdateTitle(o: Outline, newTitle: string): (r: Outline)
    ensures r.title == newTitle
    ensures r.sections == o.sections && r.conclusion == o.conclusion
  {
    o.(title := newTitle)
  }

  /** Only the title of section `si` changes; out of range, nothing does. */
  function UpdateSectionTitle(o: Outline, si: int, newTitle: string): (r: Outline)
    ensures r.title == o.title && r.conclusion == o.conclusion
    ensures |r.sections| == |o.sections|
    ensures forall k | 0 <= k < |o.sections| ::
      r.sections[k].subsections == o.sections[k].subsections
      && r.sections[k].title == (if k == si then newTitle else o.sections[k].title)
    ensures !(0 <= si < |o.sections|) ==> r == o
  {
    if 0 <= si < |o.sections| then
      o.(sections := o.sections[si := o.sections[si].(title := newTitle)])
    else o
  }

  predicate InRange(o: Outline, si: int, sj: int)
  {
    0 <= si < |o.sections| && 0 <= sj < |o.sections[si].subsections|
  }

  /** The outline with subsection (si, sj) replaced. */
  function SetSubsection(o: Outline, si: int, sj: int, sub: Subsection): (r: Outline)
    requires InRange(o, si, sj)
    ensures r.title == o.title && r.conclusion == o.conclusion
    ensures |r.sections| == |o.sections|
    ensures forall k | 0 <= k < |o.sections| && k != si :: r.sections[k] == o.sections[k]
    ensures r.sections[si].title == o.sections[si].title
    ensures |r.sections[si].subsections| == |o.sections[si].subsections|
    ensures r.sections[si].subsections[sj] == sub
    ensures forall m | 0 <= m < |o.sections[si].subsections| && m != sj ::
      r.sections[si].subsections[m] == o.sections[si].subsections[m]
  {
    var sec := o.sections[si];
    o.(sections := o.sections[si := sec.(subsections := sec.subsections[sj := sub])])
  }

  /** Everything but subsection (si, sj) is as before: the titles, the conclusion, every
      section title and subsection count, and every other subsection. */
  predicate OnlySubsectionChanged(o: Outline, r: Outline, si: int, sj: int)
  {
    && r.title == o.title && r.conclusion == o.conclusion
    && |r.sections| == |o.sections|
    && (forall k | 0 <= k < |o.sections| ::
          r.sections[k].title == o.sections[k].title
          && |r.sections[k].subsections| == |o.sections[k].subsections|)
    && (forall k, m | 0 <= k < |o.sections| && 0 <= m < |o.sections[k].subsections| && (k, m) != (si, sj) ::
          r.sections[k].subsections[m] == o.sections[k].subsections[m])
  }

  function UpdateSubsectionTitle(o: Outline, si: int, sj: int, newTitle: string): (r: Outline)
    ensures OnlySubsectionChanged(o, r, si, sj)
    ensures InRange(o, si, sj) ==>
      r.sections[si].subsections[sj] == o.sections[si].subsections[sj].(title := newTitle)
    ensures !InRange(o, si, sj) ==> r == o
  {
    if InRange(o, si, sj) then
      SetSubsection(o, si, sj, o.sections[si].subsections[sj].(title := newTitle))
    else o
  }

  /** Replaces the points of one subsection; its title and evidence stay. */
  function UpdatePoints(o: Outline, si: int, sj: int, newPoints: seq<string>): (r: Outline)
    ensures OnlySubsectionChanged(o, r, si, sj)
    ensures InRange(o, si, sj) ==>
      var before := o.sections[si].subsections[sj];
      r.sections[si].subsections[sj] == Subsection(before.title, newPoints, before.evidence)
    ensures !InRange(o, si, sj) ==> r == o
  {
    if InRange(o, si, sj) then
      SetSubsection(o, si, sj, o.sections[si].subsections[sj].(points := newPoints))
    else o
  }

  /** Replaces the evidence of one subsection; its title and points stay. */
  function UpdateEvidence(o: Outline, si: int, sj: int, newEvidence: seq<string>): (r: Outline)
    ensures OnlySubsectionChanged(o, r, si, sj)
    ensures InRange(o, si, sj) ==>
      var before := o.sections[si].subsections[sj];
      r.sections[si].subsections[sj] == Subsection(before.title, before.points, newEvidence)
    ensures !InRange(o, si, sj) ==> r == o
  {
    if InRange(o, si, sj) then
      SetSubsection(o, si, sj, o.sections[si].subsections[sj].(evidence := newEvidence))
    else o
  }

  function UpdateConclusion(o: Outline, newConclusion: seq<string>): (r: Outline)
    ensures r.conclusion == newConclusion
    ensures r.title == o.title && r.sections == o.sections
  {
    o.(conclusion := newConclusion)
  }

  /** Appends "Phần mới" holding the single empty subsection "Tiểu mục mới". */
  function AddSection(o: Outline): (r: Outline)
    ensures r.title == o.title && r.conclusion == o.conclusion
    ensures |r.sections| == |o.sections| + 1
    ensures r.sections[..|o.sections|] == o.sections
    ensures r.sections[|o.sections|] == Section(NewSectionTitle, [NewSubsection])
  {
    o.(sections := o.sections + [Section(NewSectionTitle, [NewSubsection])])
  }

  /** Appends one empty "Tiểu mục mới" to section `si` only. */
  function AddSubsection(o: Outline, si: int): (r: Outline)
    ensures r.title == o.title && r.conclusion == o.conclusion
    ensures |r.sections| == |o.sections|
    ensures forall k | 0 <= k < |o.sections| && k != si :: r.sections[k] == o.sections[k]
    ensures 0 <= si < |o.sections| ==>
      r.sections[si].title == o.sections[si].title
      && r.sections[si].subsections == o.sections[si].subsections + [NewSubsection]
    ensures !(0 <= si < |o.sections|) ==> r == o
  {
    if 0 <= si < |o.sections| then
      var sec := o.sections[si];
      o.(sections := o.sections[si := sec.(subsections := sec.subsections + [NewSubsection])])
    else o
  }

  /** Removes section `si` and keeps the others in order; one fewer section exactly when
      `si` is an index. */
  function DeleteSection(o: Outline, si: int): (r: Outline)
    ensures r.title == o.title && r.conclusion == o.conclusion
    ensures r.sections == if 0 <= si < |o.sections| then o.sections[..si] + o.sections[si + 1..] else o.sections
    ensures |r.sections| == if 0 <= si < |o.sections| then |o.sections| - 1 else |o.sections|
  {
    WithoutIsSplice(o.sections, si);
    o.(sections := Without(o.sections, si))
  }

  /** Removes subsection `sj` of section `si` and nothing else. */
  function DeleteSubsection(o: Outline, si: int, sj: int): (r: Outline)
    ensures r.title == o.title && r.conclusion == o.conclusion
    ensures |r.sections| == |o.sections|
    ensures forall k | 0 <= k < |o.sections| && k != si :: r.sections[k] == o.sections[k]
    ensures 0 <= si < |o.sections| ==>
      var subs := o.sections[si].subsections;
      r.sections[si].title == o.sections[si].title
      && r.sections[si].subsections == (if 0 <= sj < |subs| then subs[..sj] + subs[sj + 1..] else subs)
      && |r.sections[si].subsections| == (if 0 <= sj < |subs| then |subs| - 1 else |subs|)
    ensures !(0 <= si < |o.sections|) ==> r == o
  {
    if 0 <= si < |o.sections| then
      var sec := o.sections[si];
      WithoutIsSplice(sec.subsections, sj);
      o.(sections := o.sections[si := sec.(subsections := Without(sec.subsections, sj))])
    else o
  }

  lemma TotalSubsectionsSingle(sec: Section)
    ensures TotalSubsections([sec]) == |sec.subsections|
  {
    assert [sec][..0] == [];
  }

  /** Replacing section `k` changes the total by the difference of the two counts. */
  lemma TotalSubsectionsUpdate(secs: seq<Section>, k: nat, sec: Section)
    requires k < |secs|
    ensures TotalSubsections(secs[k := sec]) + |secs[k].subsections| == TotalSubsections(secs) + |sec.subsections|
  {
    var pre := secs[..k];
    var post := secs[k + 1..];
    assert secs == pre + [secs[k]] + post;
    assert secs[k := sec] == pre + [sec] + post;
    TotalSubsectionsAppend(pre + [secs[k]], post);
    TotalSubsectionsAppend(pre, [secs[k]]);
    TotalSubsectionsAppend(pre + [sec], post);
    TotalSubsectionsAppend(pre, [sec]);
    TotalSubsectionsSingle(secs[k]);
    TotalSubsectionsSingle(sec);
  }

  /** The subsection total (the figure the JSON export reports) after each structural edit:
      one more after adding a section or a subsection in range, one fewer after deleting a
      subsection in range, and the section's own count fewer after deleting a section. */
  lemma EditsAndSubsectionTotal(o: Outline, si: int, sj: int)
    ensures TotalSubsections(AddSection(o).sections) == TotalSubsections(o.sections) + 1
    ensures TotalSubsections(AddSubsection(o, si).sections)
              == TotalSubsections(o.sections) + (if 0 <= si < |o.sections| then 1 else 0)
    ensures TotalSubsections(DeleteSubsection(o, si, sj).sections) + (if InRange(o, si, sj) then 1 else 0)
              == TotalSubsections(o.sections)
    ensures 0 <= si < |o.sections| ==>
      TotalSubsections(DeleteSection(o, si).sections) + |o.sections[si].subsections| == TotalSubsections(o.sections)
  {
    var secs := o.sections;
    assert AddSection(o).sections == secs + [Section(NewSectionTitle, [NewSubsection])];
    TotalSubsectionsAppend(secs, [Section(NewSectionTitle, [NewSubsection])]);
    TotalSubsectionsSingle(Section(NewSectionTitle, [NewSubsection]));
    if 0 <= si < |secs| {
      assert AddSubsection(o, si).sections == secs[si := AddSubsection(o, si).sections[si]];
      TotalSubsectionsUpdate(secs, si, AddSubsection(o, si).sections[si]);
      assert DeleteSubsection(o, si, sj).sections == secs[si := DeleteSubsection(o, si, sj).sections[si]];
      TotalSubsectionsUpdate(secs, si, DeleteSubsection(o, si, sj).sections[si]);
      var pre := secs[..si];
      var post := secs[si + 1..];
      assert secs == pre + [secs[si]] + post;
      TotalSubsectionsAppend(pre + [secs[si]], post);
      TotalSubsectionsAppend(pre, [secs[si]]);
      TotalSubsectionsAppend(pre, post);
      TotalSubsectionsSingle(secs[si]);
    }
  }

  /** Membership of `i` flips and nothing else changes. */
  function Toggle(s: set<int>, i: int): (r: set<int>)
    ensures i in r <==> i !in s
    ensures forall k :: k != i ==> (k in r <==> k in s)
  {
    if i in s then s - {i} else s + {i}
  }

  lemma ToggleTwice(s: set<int>, i: int)
    ensures Toggle(Toggle(s, i), i) == s
  {
  }

  /** What a textarea shows: the items, one per line. */
  function ShowLines(items: seq<string>): string
  {
    Join(items, "\n")
  }

  /** What a textarea edit stores: `value.split('\n').filter(p => p.trim())`. No item is
      blank and no item holds a line break. */
  function ParseLines(text: string): (items: seq<string>)
    ensures forall i | 0 <= i < |items| :: !IsBlank(items[i])
    ensures forall i | 0 <= i < |items| :: '\n' !in items[i]
    ensures forall x :: x in items <==> x in SplitOn(text, '\n') && !IsBlank(x)
  {
    var pieces := SplitOn(text, '\n');
    var items := KeepNonBlank(pieces);
    assert forall i | 0 <= i < |items| :: items[i] in pieces;
    items
  }

  /** Reading two blocks of lines joined by a line break reads each block in turn: every
      non-blank line is kept, in its order, whatever blank lines lie between. */
  lemma ParseLinesJoin(a: string, b: string)
    ensures ParseLines(a + "\n" + b) == ParseLines(a) + ParseLines(b)
  {
    SplitOnSeparator(a, b, '\n');
    KeepNonBlankAppend(SplitOn(a, '\n'), SplitOn(b, '\n'));
  }

  lemma {:induction false} KeepNonBlankKeepsAll(xs: seq<string>)
    requires forall i | 0 <= i < |xs| :: !IsBlank(xs[i])
    ensures KeepNonBlank(xs) == xs
  {
    if |xs| > 0 {
      TrimEmptyIffBlank(xs[0]);
      KeepNonBlankKeepsAll(xs[1..]);
      assert [xs[0]] + xs[1..] == xs;
    }
  }

  /** Showing a list and reading it back gives the list, whenever its items are non-blank
      single lines: every list the editor stores is of that kind. */
  lemma ShowParseRoundTrip(items: seq<string>)
    requires forall i | 0 <= i < |items| :: !IsBlank(items[i]) && '\n' !in items[i]
    ensures ParseLines(ShowLines(items)) == items
  {
    if |items| == 0 {
      assert SplitOn("", '\n') == [""];
      assert IsBlank("");
      TrimEmptyIffBlank("");
    } else {
      SplitJoin(items, '\n');
      KeepNonBlankKeepsAll(items);
    }
  }

  /** Parsing is idempotent through the textarea: a stored list shows and re-reads as itself. */
  lemma ParseShowParse(text: string)
    ensures ParseLines(ShowLines(ParseLines(text))) == ParseLines(text)
  {
    ShowParseRoundTrip(ParseLines(text));
  }

  /** The editor's state: the outline being edited and the expanded section indices. */
  class OutlineEditor {
    var outline: Outline
    var expanded: set<int>

    /** The editor starts from the generated outline with the first section expanded. */
    constructor(initial: Outline)
      ensures outline == initial && expanded == {0}
    {
      outline := initial;
      expanded := {0};
    }

    /** Flip one section between collapsed and expanded, on a copy of the set. */
    method ToggleSection(index: int)
      modifies this
      ensures expanded == Toggle(old(expanded), index)
      ensures outline == old(outline)
    {
      var copy := expanded;
      if index in copy {
        copy := copy - {index};
      } else {
        copy := copy + {index};
      }
      expanded := copy;
    }

    method EditTitle(newTitle: string)
      modifies this
      ensures outline == UpdateTitle(old(outline), newTitle) && expanded == old(expanded)
    {
      outline := UpdateTitle(outline, newTitle);
    }

    method EditSectionTitle(si: int, newTitle: string)
      modifies this
      ensures outline == UpdateSectionTitle(old(outline), si, newTitle) && expanded == old(expanded)
    {
      outline := UpdateSectionTitle(outline, si, newTitle);
    }

    method EditSubsectionTitle(si: int, sj: int, newTitle: string)
      modifies this
      ensures outline == UpdateSubsectionTitle(old(outline), si, sj, newTitle) && expanded == old(expanded)
    {
      outline := UpdateSubsectionTitle(outline, si, sj, newTitle);
    }

    /** The points textarea of subsection (si, sj) changed to `text`. */
    method EditPoints(si: int, sj: int, text: string)
      modifies this
      ensures outline == UpdatePoints(old(outline), si, sj, ParseLines(text)) && expanded == old(expanded)
    {
      outline := UpdatePoints(outline, si, sj, ParseLines(text));
    }

    /** The evidence textarea of subsection (si, sj) changed to `text`. */
    method EditEvidence(si: int, sj: int, text: string)
      modifies this
      ensures outline == UpdateEvidence(old(outline), si, sj, ParseLines(text)) && expanded == old(expanded)
    {
      outline := UpdateEvidence(outline, si, sj, ParseLines(text));
    }

    /** The conclusion textarea changed to `text`. */
    method EditConclusion(text: string)
      modifies this
      ensures outline == UpdateConclusion(old(outline), ParseLines(text)) && expanded == old(expanded)
    {
      outline := UpdateConclusion(outline, ParseLines(text));
    }

    method AppendSection()
      modifies this
      ensures outline == AddSection(old(outline)) && expanded == old(expanded)
    {
      outline := AddSection(outline);
    }

    method AppendSubsection(si: int)
      modifies this
      ensures outline == AddSubsection(old(outline), si) && expanded == old(expanded)
    {
      outline := AddSubsection(outline, si);
    }

    method RemoveSection(si: int)
      modifies this
      ensures outline == DeleteSection(old(outline), si) && expanded == old(expanded)
    {
      outline := DeleteSection(outline, si);
    }

    method RemoveSubsection(si: int, sj: int)
      modifies this
      ensures outline == DeleteSubsection(old(outline), si, sj) && expanded == old(expanded)
    {
      outline := DeleteSubsection(outline, si, sj);
    }
  }
}
