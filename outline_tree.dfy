/** The outline an author edits and exports: a title, sections of subsections each holding
    key points and evidence, and a list of concluding points. The same shape is declared by
    the outline editor, the export dialog and the outline generator. */
module OutlineTree {

  datatype Subsection = Subsection(title: string, points: seq<string>, evidence: seq<string>)

  datatype Section = Section(title: string, subsections: seq<Subsection>)

  datatype Outline = Outline(title: string, sections: seq<Section>, conclusion: seq<string>)

  /** `xs.filter((_, k) => k !== i)`, scanning the indices in order. */
  function Without<T>(xs: seq<T>, i: int): seq<T>
  {
    if |xs| == 0 then []
    else Without(xs[..|xs| - 1], i) + (if |xs| - 1 == i then [] else [xs[|xs| - 1]])
  }

  /** The filter removes exactly the element at `i` when `i` is an index and nothing
      otherwise; the other elements keep their order. */
  lemma {:induction false} WithoutIsSplice<T>(xs: seq<T>, i: int)
    ensures Without(xs, i) == if 0 <= i < |xs| then xs[..i] + xs[i + 1..] else xs
  {
    if |xs| > 0 {
      var init := xs[..|xs| - 1];
      WithoutIsSplice(init, i);
      if 0 <= i < |xs| - 1 {
        assert init[..i] + init[i + 1..] + [xs[|xs| - 1]] == xs[..i] + xs[i + 1..];
      } else if i == |xs| - 1 {
        assert init == xs[..i];
        assert xs[i + 1..] == [];
      } else {
        assert init + [xs[|xs| - 1]] == xs;
      }
    }
  }

  /** The number of subsections over all sections, as the JSON export's reduce adds them. */
  function TotalSubsections(sections: seq<Section>): nat
  {
    if |sections| == 0 then 0
    else TotalSubsections(sections[..|sections| - 1]) + |sections[|sections| - 1].subsections|
  }

  lemma {:induction false} TotalSubsectionsAppend(a: seq<Section>, b: seq<Section>)
    ensures TotalSubsections(a + b) == TotalSubsections(a) + TotalSubsections(b)
  {
    if |b| > 0 {
      assert (a + b)[..|a + b| - 1] == a + b[..|b| - 1];
      TotalSubsectionsAppend(a, b[..|b| - 1]);
    } else {
      assert a + b == a;
    }
  }
}
