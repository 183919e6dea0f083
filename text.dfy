/** String operations the components rely on, stated with JavaScript's semantics over Dafny
    characters: the `\s` class and `trim()`, `split` by a one-character string and by a
    regular expression of the form `/[class]+/`, decimal rendering of `index + 1`, and the
    concatenations that `+=` loops build. */
module Text {

  /** ECMAScript WhiteSpace and LineTerminator: the characters `\s` matches and `trim()`
      removes (tab, line feed, vertical tab, form feed, carriage return, space, no-break
      space, the Unicode space separators, line and paragraph separators, and the BOM). */
  predicate IsWhitespace(c: char)
  {
    || c == '\t' || c == '\n' || c == '\U{000B}' || c == '\U{000C}' || c == '\r' || c == ' '
    || c == '\U{00A0}' || c == '\U{1680}' || ('\U{2000}' <= c <= '\U{200A}')
    || c == '\U{2028}' || c == '\U{2029}' || c == '\U{202F}' || c == '\U{205F}'
    || c == '\U{3000}' || c == '\U{FEFF}'
  }

  predicate IsBlank(s: string)
  {
    forall i | 0 <= i < |s| :: IsWhitespace(s[i])
  }

  /** Leading whitespace removed: what is left is a suffix that is empty or starts with a
      non-whitespace character, and what was removed is all whitespace. */
  function TrimStart(s: string): (r: string)
    ensures |r| <= |s| && r == s[|s| - |r|..]
    ensures IsBlank(s[..|s| - |r|])
    ensures r == [] || !IsWhitespace(r[0])
  {
    if |s| > 0 && IsWhitespace(s[0]) then
      var r := TrimStart(s[1..]);
      TrimStartStep(s, r);
      r
    else s
  }

  /** Trimming the rest of `s` trims `s` when `s` starts with whitespace. */
  lemma TrimStartStep(s: string, r: string)
    requires |s| > 0 && IsWhitespace(s[0])
    requires |r| <= |s| - 1 && r == s[1..][|s| - 1 - |r|..]
    requires IsBlank(s[1..][..|s| - 1 - |r|])
    ensures r == s[|s| - |r|..]
    ensures IsBlank(s[..|s| - |r|])
  {
    var m := |s| - |r|;
    assert s[1..][m - 1..] == s[m..];
    BlankAppend([s[0]], s[1..][..m - 1]);
    assert s[..m] == [s[0]] + s[1..][..m - 1];
  }

  lemma BlankAppend(a: string, b: string)
    requires IsBlank(a) && IsBlank(b)
    ensures IsBlank(a + b)
  {
    forall i | 0 <= i < |a + b|
      ensures IsWhitespace((a + b)[i])
    {
      if i >= |a| {
        assert (a + b)[i] == b[i - |a|];
      }
    }
  }

  /** Trailing whitespace removed, symmetrically. */
  function TrimEnd(s: string): (r: string)
    ensures |r| <= |s| && r == s[..|r|]
    ensures IsBlank(s[|r|..])
    ensures r == [] || !IsWhitespace(r[|r| - 1])
  {
    if |s| > 0 && IsWhitespace(s[|s| - 1]) then
      var r := TrimEnd(s[..|s| - 1]);
      TrimEndStep(s, r);
      r
    else s
  }

  /** Trimming all but the last character trims `s` when `s` ends with whitespace. */
  lemma TrimEndStep(s: string, r: string)
    requires |s| > 0 && IsWhitespace(s[|s| - 1])
    requires |r| <= |s| - 1 && r == s[..|s| - 1][..|r|]
    requires IsBlank(s[..|s| - 1][|r|..])
    ensures r == s[..|r|]
    ensures IsBlank(s[|r|..])
  {
    assert s[..|s| - 1][..|r|] == s[..|r|];
    BlankAppend(s[..|s| - 1][|r|..], [s[|s| - 1]]);
    assert s[|r|..] == s[..|s| - 1][|r|..] + [s[|s| - 1]];
  }

  /** `String.prototype.trim`. */
  function Trim(s: string): string
  {
    TrimEnd(TrimStart(s))
  }

  /** `s.trim()` is falsy exactly when `s` is blank. */
  lemma TrimEmptyIffBlank(s: string)
    ensures Trim(s) == "" <==> IsBlank(s)
  {
    var t := TrimStart(s);
    if IsBlank(s) {
      assert IsBlank(t) by {
        assert t == s[|s| - |t|..];
      }
    }
    if Trim(s) == "" {
      assert IsBlank(t[0..]);
      assert t == [];
      forall i | 0 <= i < |s| ensures IsWhitespace(s[i]) {
        assert s[..|s|][i] == s[i];
      }
    }
  }

  function Count(s: string, c: char): nat
  {
    if |s| == 0 then 0 else (if s[0] == c then 1 else 0) + Count(s[1..], c)
  }

  function DigitChar(d: nat): char
    requires d < 10
  {
    "0123456789"[d]
  }

  /** Decimal rendering of a non-negative number, as a template literal `${n}` gives it:
      at least one digit, only digits, and no leading zero. */
  function NatToString(n: nat): (r: string)
    ensures |r| >= 1
    ensures forall i | 0 <= i < |r| :: '0' <= r[i] <= '9'
    ensures r[0] == '0' <==> n == 0
  {
    if n < 10 then [DigitChar(n)] else NatToString(n / 10) + [DigitChar(n % 10)]
  }

  /** `s.split(c)` for a one-character separator: one more piece than there are
      separators, and no piece contains the separator. */
  function SplitOn(s: string, c: char): (r: seq<string>)
    ensures |r| == Count(s, c) + 1
    ensures forall i | 0 <= i < |r| :: c !in r[i]
  {
    if |s| == 0 then [""]
    else
      var rest := SplitOn(s[1..], c);
      if s[0] == c then [""] + rest else [[s[0]] + rest[0]] + rest[1..]
  }

  /** `xs.join(sep)`. */
  function Join(xs: seq<string>, sep: string): string
  {
    if |xs| == 0 then "" else if |xs| == 1 then xs[0] else xs[0] + sep + Join(xs[1..], sep)
  }

  lemma {:induction false} SplitOnPrefix(a: string, t: string, c: char)
    requires c !in a
    ensures SplitOn(a + t, c) == [a + SplitOn(t, c)[0]] + SplitOn(t, c)[1..]
  {
    if |a| == 0 {
      var r := SplitOn(t, c);
      assert a + t == t && a + r[0] == r[0];
      assert r == [r[0]] + r[1..];
    } else {
      assert (a + t)[1..] == a[1..] + t;
      SplitOnPrefix(a[1..], t, c);
      assert [a[0]] + (a[1..] + SplitOn(t, c)[0]) == a + SplitOn(t, c)[0];
    }
  }

  /** Splitting a join recovers the pieces, provided no piece holds the separator. */
  lemma {:induction false} SplitJoin(xs: seq<string>, c: char)
    requires |xs| > 0
    requires forall i | 0 <= i < |xs| :: c !in xs[i]
    ensures SplitOn(Join(xs, [c]), c) == xs
  {
    if |xs| == 1 {
      SplitOnPrefix(xs[0], "", c);
      assert xs[0] + "" == xs[0];
    } else {
      var j := Join(xs[1..], [c]);
      SplitJoin(xs[1..], c);
      assert ([c] + j)[1..] == j;
      assert SplitOn([c] + j, c) == [""] + xs[1..];
      assert xs[0] + [c] + j == xs[0] + ([c] + j);
      SplitOnPrefix(xs[0], [c] + j, c);
      assert xs[0] + "" == xs[0];
    }
  }

  /** `xs.filter(x => x.trim())`: the items that are not blank, in order. */
  function KeepNonBlank(xs: seq<string>): (r: seq<string>)
    ensures |r| <= |xs|
    ensures forall i | 0 <= i < |r| :: !IsBlank(r[i])
    ensures forall i | 0 <= i < |r| :: r[i] in xs
    ensures forall x :: x in r <==> x in xs && !IsBlank(x)
  {
    if |xs| == 0 then []
    else
      TrimEmptyIffBlank(xs[0]);
      var rest := KeepNonBlank(xs[1..]);
      TailMembers(xs, rest);
      KeepMembersStep(xs, rest);
      if Trim(xs[0]) != "" then [xs[0]] + rest else rest
  }

  /** One step of the filter's membership: the head joins the kept tail exactly when it is
      not blank. */
  lemma KeepMembersStep(xs: seq<string>, rest: seq<string>)
    requires |xs| > 0
    requires forall x :: x in rest <==> x in xs[1..] && !IsBlank(x)
    ensures !IsBlank(xs[0]) ==> forall x :: x in [xs[0]] + rest <==> x in xs && !IsBlank(x)
    ensures IsBlank(xs[0]) ==> forall x :: x in rest <==> x in xs && !IsBlank(x)
  {
    assert xs == [xs[0]] + xs[1..];
  }

  /** The filter keeps order: filtering a concatenation filters each part. */
  lemma {:induction false} KeepNonBlankAppend(a: seq<string>, b: seq<string>)
    ensures KeepNonBlank(a + b) == KeepNonBlank(a) + KeepNonBlank(b)
  {
    if |a| == 0 {
      assert a + b == b;
    } else {
      assert (a + b)[0] == a[0];
      assert (a + b)[1..] == a[1..] + b;
      KeepNonBlankAppend(a[1..], b);
    }
  }

  /** One unfolding of `split`: a separator first starts a new piece, any other
      character extends the first piece. */
  lemma SplitOnUnfold(s: string, c: char)
    requires |s| > 0
    ensures SplitOn(s, c) == if s[0] == c then [""] + SplitOn(s[1..], c)
      else [[s[0]] + SplitOn(s[1..], c)[0]] + SplitOn(s[1..], c)[1..]
  {
  }

  /** The same first character applied to pieces `ra + rb` and to pieces `ra` leaves `rb`
      as the common suffix. */
  lemma PiecesStep(h: char, c: char, x: seq<string>, ra: seq<string>, rb: seq<string>)
    requires x == ra + rb && |ra| > 0
    ensures (if h == c then [""] + x else [[h] + x[0]] + x[1..])
      == (if h == c then [""] + ra else [[h] + ra[0]] + ra[1..]) + rb
  {
    if h != c {
      assert x[0] == ra[0];
      assert x[1..] == ra[1..] + rb;
    } else {
      assert [""] + x == ([""] + ra) + rb;
    }
  }

  /** Splitting at one separator splits each side apart. */
  lemma {:induction false} SplitOnSeparator(a: string, b: string, c: char)
    ensures SplitOn(a + [c] + b, c) == SplitOn(a, c) + SplitOn(b, c)
  {
    var s := a + [c] + b;
    if |a| == 0 {
      assert s[1..] == b;
      SplitOnUnfold(s, c);
    } else {
      assert s[1..] == a[1..] + [c] + b;
      SplitOnSeparator(a[1..], b, c);
      SplitOnUnfold(s, c);
      SplitOnUnfold(a, c);
      PiecesStep(a[0], c, SplitOn(s[1..], c), SplitOn(a[1..], c), SplitOn(b, c));
    }
  }

  /** Items drawn from the tail of `xs` are items of `xs`. */
  lemma TailMembers(xs: seq<string>, ys: seq<string>)
    requires |xs| > 0
    requires forall i | 0 <= i < |ys| :: ys[i] in xs[1..]
    ensures forall i | 0 <= i < |ys| :: ys[i] in xs
  {
    forall i | 0 <= i < |ys|
      ensures ys[i] in xs
    {
      var j :| 0 <= j < |xs| - 1 && xs[1..][j] == ys[i];
      assert xs[j + 1] == ys[i];
    }
  }

  /** `xs.filter(x => x.length > 0)`. */
  function NonEmpty(xs: seq<string>): (r: seq<string>)
    ensures |r| <= |xs|
    ensures forall i | 0 <= i < |r| :: r[i] != ""
  {
    if |xs| == 0 then [] else if xs[0] != "" then [xs[0]] + NonEmpty(xs[1..]) else NonEmpty(xs[1..])
  }

  /** The two character classes the components split on with `/[class]+/`. */
  datatype CharClass = Whitespace | SentenceEnd

  predicate InClass(c: char, k: CharClass)
  {
    match k
    case Whitespace => IsWhitespace(c)
    case SentenceEnd => c == '.' || c == '!' || c == '?'
  }

  /** Length of the run of class characters that starts `s`. */
  function RunEnd(s: string, k: CharClass): (n: nat)
    ensures 0 < |s| && InClass(s[0], k) ==> n > 0
    ensures n <= |s|
    ensures forall i | 0 <= i < n :: InClass(s[i], k)
    ensures n == |s| || !InClass(s[n], k)
  {
    if |s| > 0 && InClass(s[0], k) then 1 + RunEnd(s[1..], k) else 0
  }

  /** `s.split(/[class]+/)`: the pieces between maximal runs of class characters. There is
      always at least one piece, none contains a class character, and the first piece is
      empty exactly when `s` is empty or starts with a class character. */
  function SplitRuns(s: string, k: CharClass): (r: seq<string>)
    ensures |r| >= 1
    ensures forall i, j | 0 <= i < |r| && 0 <= j < |r[i]| :: !InClass(r[i][j], k)
    ensures r[0] == "" <==> (|s| == 0 || InClass(s[0], k))
    decreases |s|
  {
    if |s| == 0 then [""]
    else if !InClass(s[0], k) then
      var rest := SplitRuns(s[1..], k);
      [[s[0]] + rest[0]] + rest[1..]
    else
      [""] + SplitRuns(s[RunEnd(s, k)..], k)
  }

  /** A left-to-right scanner, independent of SplitRuns: the number of positions where a
      maximal run of characters whose class membership equals `member` begins; `prevIn`
      says whether the character before `s` already belonged to such a run. */
  function CountRuns(s: string, k: CharClass, member: bool, prevIn: bool): nat
  {
    if |s| == 0 then 0
    else
      (if InClass(s[0], k) == member && !prevIn then 1 else 0)
      + CountRuns(s[1..], k, member, InClass(s[0], k) == member)
  }

  lemma {:induction false} InsideRun(t: string, k: CharClass, member: bool, n: nat)
    requires n <= |t|
    requires forall i | 0 <= i < n :: InClass(t[i], k) == member
    requires n == |t| || InClass(t[n], k) != member
    ensures CountRuns(t, k, member, true) == CountRuns(t[n..], k, member, false)
  {
    if n > 0 {
      InsideRun(t[1..], k, member, n - 1);
      assert t[1..][n - 1..] == t[n..];
    }
  }

  lemma {:induction false} SkipOthers(t: string, k: CharClass, member: bool, n: nat, prevIn: bool)
    requires n <= |t|
    requires n > 0 || !prevIn
    requires forall i | 0 <= i < n :: InClass(t[i], k) != member
    ensures CountRuns(t, k, member, prevIn) == CountRuns(t[n..], k, member, false)
  {
    if n > 0 {
      SkipOthers(t[1..], k, member, n - 1, false);
      assert t[1..][n - 1..] == t[n..];
    }
  }

  /** `s.split(/[class]+/).length` is one more than the number of separator runs. */
  lemma {:induction false} SplitRunsLength(s: string, k: CharClass)
    ensures |SplitRuns(s, k)| == 1 + CountRuns(s, k, true, false)
    decreases |s|
  {
    if |s| > 0 {
      if !InClass(s[0], k) {
        SplitRunsLength(s[1..], k);
      } else {
        var n := RunEnd(s, k);
        SplitRunsLength(s[n..], k);
        InsideRun(s[1..], k, true, n - 1);
        assert s[1..][n - 1..] == s[n..];
      }
    }
  }

  /** The non-empty pieces of `s.split(/[class]+/)` are the maximal runs of the other
      characters: their number is what the scanner counts. */
  lemma {:induction false} SplitRunsPieces(s: string, k: CharClass)
    ensures |NonEmpty(SplitRuns(s, k))| == CountRuns(s, k, false, false)
    decreases |s|
  {
    if |s| > 0 {
      if !InClass(s[0], k) {
        var rest := SplitRuns(s[1..], k);
        SplitRunsPieces(s[1..], k);
        assert ([[s[0]] + rest[0]] + rest[1..])[1..] == rest[1..];
        assert rest == [rest[0]] + rest[1..];
      } else {
        var n := RunEnd(s, k);
        SplitRunsPieces(s[n..], k);
        SkipOthers(s, k, false, n, false);
      }
    }
  }

  lemma {:induction false} BlankHasNoWords(s: string, prevIn: bool)
    requires IsBlank(s)
    ensures CountRuns(s, Whitespace, false, prevIn) == 0
  {
    if |s| > 0 {
      assert IsWhitespace(s[0]);
      BlankHasNoWords(s[1..], false);
    }
  }

  lemma BlankWordCount(s: string)
    ensures IsBlank(s) ==> CountRuns(s, Whitespace, false, false) == 0
  {
    if IsBlank(s) {
      BlankHasNoWords(s, false);
    }
  }

  /** `s.split(/\s+/).filter(w => w.length > 0).length`: the number of maximal runs of
      non-whitespace characters, 0 for blank text, and never more than the unfiltered
      number of pieces. */
  function WordCount(s: string): (r: nat)
    ensures r == CountRuns(s, Whitespace, false, false)
    ensures IsBlank(s) ==> r == 0
    ensures r <= |SplitRuns(s, Whitespace)|
  {
    SplitRunsPieces(s, Whitespace);
    BlankWordCount(s);
    |NonEmpty(SplitRuns(s, Whitespace))|
  }

  /** String concatenation regrouped. The append loops call it to move from
      `(text + done) + next` to `text + (done + next)`, the form their invariants state;
      on strings the solver does not always find this step by itself. */
  lemma Regroup(a: string, b: string, c: string)
    ensures (a + b) + c == a + (b + c)
  {
  }

  /** Concatenation of parts, defined by its last part so that a loop appending one part
      per step follows it. */
  function Concat(parts: seq<string>): string
  {
    if |parts| == 0 then "" else Concat(parts[..|parts| - 1]) + parts[|parts| - 1]
  }

  lemma ConcatSnoc(parts: seq<string>, p: string)
    ensures Concat(parts + [p]) == Concat(parts) + p
  {
    assert (parts + [p])[..|parts|] == parts;
  }

  lemma {:induction false} ConcatAppend(a: seq<string>, b: seq<string>)
    ensures Concat(a + b) == Concat(a) + Concat(b)
  {
    if |b| > 0 {
      var b' := b[..|b| - 1];
      assert a + b == (a + b') + [b[|b| - 1]];
      ConcatAppend(a, b');
      ConcatSnoc(a + b', b[|b| - 1]);
    } else {
      assert a + b == a;
    }
  }

  /** `items.forEach(x => content += pre + x + post)`, as the text it appends. */
  function Wrapped(pre: string, items: seq<string>, post: string): string
  {
    if |items| == 0 then ""
    else Wrapped(pre, items[..|items| - 1], post) + (pre + items[|items| - 1] + post)
  }

  /** The loop behind Wrapped. */
  method AppendWrapped(content: string, pre: string, items: seq<string>, post: string)
    returns (r: string)
    ensures r == content + Wrapped(pre, items, post)
  {
    r := content;
    var k := 0;
    while k < |items|
      invariant 0 <= k <= |items|
      invariant r == content + Wrapped(pre, items[..k], post)
    {
      assert items[..k + 1][..k] == items[..k];
      r := r + (pre + items[k] + post);
      k := k + 1;
    }
    assert items[..|items|] == items;
  }

  predicate EndsWith(s: string, suffix: string)
  {
    |suffix| <= |s| && s[|s| - |suffix|..] == suffix
  }

  /** `x` occurs somewhere in `s`. */
  predicate Occurs(x: string, s: string)
  {
    exists p: nat :: p <= |s| && x <= s[p..]
  }

  lemma OccursIn(a: string, x: string, b: string)
    ensures Occurs(x, a + x + b)
  {
    var p: nat := |a|;
    assert (a + x + b)[p..] == x + b;
  }

  /** A prefix of `b` stays a prefix when `b` is extended. */
  lemma PrefixExtend(a: string, b: string, x: string)
    requires a <= b
    ensures a <= b + x
  {
    assert (b + x)[..|b|] == b;
    assert (b + x)[..|a|] == b[..|a|];
  }

  /** A piece that follows a prefix of `s` occurs in `s`. */
  lemma OccursAfterPrefix(a: string, x: string, s: string)
    requires a + x <= s
    ensures Occurs(x, s)
  {
    var p: nat := |a|;
    assert s[p..][..|x|] == (a + x)[p..];
  }

  lemma OccursTrans(x: string, s: string, t: string)
    requires Occurs(x, s) && Occurs(s, t)
    ensures Occurs(x, t)
  {
    var p: nat :| p <= |s| && x <= s[p..];
    var q: nat :| q <= |t| && s <= t[q..];
    assert p + |x| <= |s| && q + |s| <= |t|;
    var r: nat := q + p;
    forall k | 0 <= k < |x|
      ensures t[r + k] == x[k]
    {
      assert x[k] == s[p + k];
      assert s[p + k] == t[q..][p + k];
    }
    assert t[r..][..|x|] == x;
  }

  lemma OccursAtStart(x: string, b: string)
    ensures Occurs(x, x + b)
  {
    var p: nat := 0;
    assert (x + b)[p..] == x + b;
  }

  lemma OccursAtEnd(a: string, x: string)
    ensures Occurs(x, a + x)
  {
    var p: nat := |a|;
    assert (a + x)[p..] == x;
  }

  lemma WrappedStep(pre: string, items: seq<string>, post: string, k: nat)
    requires k < |items|
    ensures Wrapped(pre, items[..k + 1], post) == Wrapped(pre, items[..k], post) + (pre + items[k] + post)
  {
    assert items[..k + 1][..k] == items[..k];
  }

  lemma {:induction false} WrappedPrefix(pre: string, items: seq<string>, post: string, n: nat)
    requires n <= |items|
    ensures Wrapped(pre, items[..n], post) <= Wrapped(pre, items, post)
  {
    if n < |items| {
      var init := items[..|items| - 1];
      WrappedPrefix(pre, init, post, n);
      assert init[..n] == items[..n];
      PrefixExtend(Wrapped(pre, init[..n], post), Wrapped(pre, init, post),
                   pre + items[|items| - 1] + post);
    } else {
      assert items[..n] == items;
    }
  }

  /** Every item appears wrapped, as one piece, in the text. */
  lemma WrappedHasItem(pre: string, items: seq<string>, post: string, k: nat)
    requires k < |items|
    ensures Occurs(pre + items[k] + post, Wrapped(pre, items, post))
  {
    WrappedPrefix(pre, items, post, k + 1);
    WrappedStep(pre, items, post, k);
    OccursAfterPrefix(Wrapped(pre, items[..k], post), pre + items[k] + post, Wrapped(pre, items, post));
  }
}
