/**
 * `SortIncludes` and `SortIncludeBatch` of IncludeToolbox/Formatter/IncludeFormatter.cs: the
 * include lines are cut into batches at preprocessor directives that are not includes, and each
 * batch is sorted, deduplicated, grouped by precedence regex and written back around the lines
 * that are not includes.
 */
module BatchSorter {
  import Seqs
  import Strings
  import Ordering
  import Options
  import IncludeLines
  import Host

  type Line = IncludeLines.IncludeLineInfo

  predicate IsActive(line: Line)
  {
    line.containsActiveInclude
  }

  predicate IsPreserved(line: Line)
  {
    line.shouldBePreserved
  }

  /** A line whose text is not blank. */
  predicate NotBlank(line: Line)
  {
    !Strings.IsNullOrWhiteSpace(line.RawLine())
  }

  /** `OrderBy(x => x.IncludeContent)` under the host's string order. */
  function ContentRank(host: Host.Host): Line -> real
  {
    (x: Line) => host.rank(x.includeContent)
  }

  /** `includeBatch.Where(x => x.ContainsActiveInclude).OrderBy(x => x.IncludeContent)`. */
  function SortedIncludeLines(host: Host.Host, includeBatch: seq<Line>): seq<Line>
  {
    Ordering.SortBy(Seqs.Filter(includeBatch, IsActive), ContentRank(host))
  }

  // ---- RemoveDuplicates -----------------------------------------------------------------

  /** The key duplicates are recognised by: the include with its delimiters. */
  function DedupKey(line: Line): string
  {
    line.GetIncludeContentWithDelimiters()
  }

  /**
   * `RemoveAll(x => !x.ShouldBePreserved && !uniqueIncludes.Add(DedupKey(x)))` over `xs`, with the
   * keys in `seen` already added: a preserved line is neither tested nor added.
   */
  function Deduplicated(xs: seq<Line>, seen: set<string>): seq<Line>
    decreases |xs|
  {
    if xs == [] then []
    else if xs[0].shouldBePreserved then [xs[0]] + Deduplicated(xs[1..], seen)
    else if DedupKey(xs[0]) in seen then Deduplicated(xs[1..], seen)
    else [xs[0]] + Deduplicated(xs[1..], seen + {DedupKey(xs[0])})
  }

  /** `includeLines` after the optional removal of duplicates. */
  function UniqueIncludeLines(host: Host.Host, settings: Options.Settings, includeBatch: seq<Line>): seq<Line>
  {
    var includeLines := SortedIncludeLines(host, includeBatch);
    if settings.removeDuplicates then Deduplicated(includeLines, {}) else includeLines
  }

  /** The removal only drops lines and keeps the order of the rest. */
  lemma {:induction false} DeduplicatedSubsequence(xs: seq<Line>, seen: set<string>)
    ensures Seqs.IsSubsequence(Deduplicated(xs, seen), xs)
    decreases |xs|
  {
    if xs != [] {
      DeduplicatedSubsequence(xs[1..], seen + {DedupKey(xs[0])});
      DeduplicatedSubsequence(xs[1..], seen);
      var r := Deduplicated(xs, seen);
      if !xs[0].shouldBePreserved && DedupKey(xs[0]) in seen {
        Seqs.SubsequenceOfTail(r, xs);
      } else {
        assert r[0] == xs[0] && r[1..] == Deduplicated(xs[1..], if xs[0].shouldBePreserved then seen else seen + {DedupKey(xs[0])});
      }
    }
  }

  /** No two lines that are not preserved share a key. */
  predicate UniqueKeys(lines: seq<Line>)
  {
    forall i, j :: 0 <= i < j < |lines| && !lines[i].shouldBePreserved && !lines[j].shouldBePreserved ==>
      DedupKey(lines[i]) != DedupKey(lines[j])
  }

  /** No two surviving lines that are not preserved share a key, nor does any of them have a key seen before. */
  lemma {:induction false} DeduplicatedUnique(xs: seq<Line>, seen: set<string>)
    ensures forall y :: y in Deduplicated(xs, seen) && !y.shouldBePreserved ==> DedupKey(y) !in seen
    ensures UniqueKeys(Deduplicated(xs, seen))
    decreases |xs|
  {
    if xs != [] {
      var r := Deduplicated(xs, seen);
      var seen' := if xs[0].shouldBePreserved || DedupKey(xs[0]) in seen then seen else seen + {DedupKey(xs[0])};
      DeduplicatedUnique(xs[1..], seen');
      var rest := Deduplicated(xs[1..], seen');
      if !xs[0].shouldBePreserved && DedupKey(xs[0]) in seen {
        assert r == rest;
      } else {
        assert r == [xs[0]] + rest;
        forall i, j | 0 <= i < j < |r| && !r[i].shouldBePreserved && !r[j].shouldBePreserved
          ensures DedupKey(r[i]) != DedupKey(r[j])
        {
          assert r[j] == rest[j - 1] && r[j] in rest;
          if i > 0 {
            assert r[i] == rest[i - 1];
          } else {
            assert DedupKey(r[j]) !in seen';
          }
        }
      }
    }
  }

  /** Preserved lines are never removed, and keep their order. */
  lemma {:induction false} DeduplicatedKeepsPreserved(xs: seq<Line>, seen: set<string>)
    ensures Seqs.Filter(Deduplicated(xs, seen), IsPreserved) == Seqs.Filter(xs, IsPreserved)
    decreases |xs|
  {
    if xs != [] {
      DeduplicatedKeepsPreserved(xs[1..], seen);
      DeduplicatedKeepsPreserved(xs[1..], seen + {DedupKey(xs[0])});
      var r := Deduplicated(xs, seen);
      if xs[0].shouldBePreserved || DedupKey(xs[0]) !in seen {
        assert r[0] == xs[0] && r[1..] == Deduplicated(xs[1..], if xs[0].shouldBePreserved then seen else seen + {DedupKey(xs[0])});
      }
    }
  }

  /** Every key of a line that is not preserved still has a line that is not preserved. */
  lemma {:induction false} DeduplicatedKeepsKeys(xs: seq<Line>, seen: set<string>)
    ensures forall x :: x in xs && !x.shouldBePreserved && DedupKey(x) !in seen ==>
              exists y :: y in Deduplicated(xs, seen) && !y.shouldBePreserved && DedupKey(y) == DedupKey(x)
    decreases |xs|
  {
    if xs != [] {
      var r := Deduplicated(xs, seen);
      if xs[0].shouldBePreserved || DedupKey(xs[0]) in seen {
        DeduplicatedKeepsKeys(xs[1..], seen);
        assert forall y :: y in Deduplicated(xs[1..], seen) ==> y in r;
      } else {
        var seen' := seen + {DedupKey(xs[0])};
        DeduplicatedKeepsKeys(xs[1..], seen');
        assert xs[0] in r;
        assert forall y :: y in Deduplicated(xs[1..], seen') ==> y in r;
        assert forall x :: x in xs ==> x == xs[0] || x in xs[1..];
      }
    }
  }

  /** The `RemoveDuplicates` branch of `SortIncludeBatch`, a `HashSet` filled as the list is scanned. */
  method RemoveDuplicates(includeLines: seq<Line>) returns (kept: seq<Line>)
    ensures kept == Deduplicated(includeLines, {})
  {
    var uniqueIncludes: set<string> := {};
    kept := [];
    for i := 0 to |includeLines|
      invariant Deduplicated(includeLines, {}) == kept + Deduplicated(includeLines[i..], uniqueIncludes)
    {
      var x := includeLines[i];
      assert includeLines[i..][0] == x && includeLines[i..][1..] == includeLines[i + 1..];
      ghost var before := uniqueIncludes;
      var remove := false;
      if !x.shouldBePreserved {
        var added := DedupKey(x) !in uniqueIncludes;
        uniqueIncludes := uniqueIncludes + {DedupKey(x)};
        remove := !added;
        if added {
          assert Deduplicated(includeLines[i..], before) == [x] + Deduplicated(includeLines[i + 1..], uniqueIncludes);
        } else {
          assert uniqueIncludes == before;
        }
      }
      if !remove {
        kept := kept + [x];
      }
    }
  }

  // ---- Precedence groups ----------------------------------------------------------------

  /** The text the precedence regexes are matched against. */
  function MatchedText(line: Line, regexIncludeDelimiter: bool): string
  {
    if regexIncludeDelimiter then line.GetIncludeContentWithDelimiters() else line.includeContent
  }

  /** The first regex from `from` on that matches `text`, or `|regexes|` when none does. */
  function FirstMatch(host: Host.Host, text: string, regexes: seq<string>, from: nat): (k: nat)
    requires from <= |regexes|
    ensures from <= k <= |regexes|
    ensures k < |regexes| ==> host.regexMatch(text, regexes[k])
    ensures forall j :: from <= j < k ==> !host.regexMatch(text, regexes[j])
    decreases |regexes| - from
  {
    if from == |regexes| then from
    else if host.regexMatch(text, regexes[from]) then from
    else FirstMatch(host, text, regexes, from + 1)
  }

  /** The key of `GroupBy`: the index of the first precedence regex the line matches. */
  function GroupIndex(host: Host.Host, regexes: seq<string>, regexIncludeDelimiter: bool, line: Line): nat
  {
    FirstMatch(host, MatchedText(line, regexIncludeDelimiter), regexes, 0)
  }

  function GroupOf(host: Host.Host, regexes: seq<string>, regexIncludeDelimiter: bool): Line -> nat
  {
    (x: Line) => GroupIndex(host, regexes, regexIncludeDelimiter, x)
  }

  /** The key selector of `GroupBy` in `SortIncludeBatch`, the loop over the regexes. */
  method GroupIndexOf(host: Host.Host, precedenceRegexes: seq<string>, regexIncludeDelimiter: bool, x: Line)
    returns (precedence: nat)
    ensures precedence <= |precedenceRegexes|
    ensures precedence < |precedenceRegexes| ==>
              host.regexMatch(MatchedText(x, regexIncludeDelimiter), precedenceRegexes[precedence])
    ensures forall j :: 0 <= j < precedence ==>
              !host.regexMatch(MatchedText(x, regexIncludeDelimiter), precedenceRegexes[j])
    ensures precedence == GroupIndex(host, precedenceRegexes, regexIncludeDelimiter, x)
  {
    var includeContent := if regexIncludeDelimiter then x.GetIncludeContentWithDelimiters() else x.includeContent;
    for p := 0 to |precedenceRegexes|
      invariant forall j :: 0 <= j < p ==> !host.regexMatch(includeContent, precedenceRegexes[j])
    {
      if host.regexMatch(includeContent, precedenceRegexes[p]) {
        return p;
      }
    }
    return |precedenceRegexes|;
  }

  /** The identities of the first line of every group. */
  function GroupStartIds(xs: seq<Line>, group: Line -> nat, n: nat): set<int>
  {
    set k: nat | k <= n && Seqs.Filter(xs, Ordering.InGroup(group, k)) != [] ::
      Seqs.Filter(xs, Ordering.InGroup(group, k))[0].id
  }

  /** `foreach (var grouping in includeGroups) groupStarts.Add(grouping.First())`. */
  method CollectGroupStarts(includeLines: seq<Line>, group: Line -> nat, n: nat) returns (groupStarts: set<int>)
    ensures groupStarts == GroupStartIds(includeLines, group, n)
  {
    groupStarts := {};
    for k := 0 to n + 1
      invariant groupStarts == set j: nat | j < k && Seqs.Filter(includeLines, Ordering.InGroup(group, j)) != [] ::
                                 Seqs.Filter(includeLines, Ordering.InGroup(group, j))[0].id
    {
      var grouping := Seqs.Filter(includeLines, Ordering.InGroup(group, k));
      if grouping != [] {
        groupStarts := groupStarts + {grouping[0].id};
      }
    }
  }

  // ---- Sorting by delimiter type --------------------------------------------------------

  /** `OrderBy(x => x.LineDelimiterType == first ? 0 : 1)`. */
  function DelimiterRank(first: IncludeLines.DelimiterType): Line -> real
  {
    (x: Line) => if x.delimiter == first then 0.0 else 1.0
  }

  function TypeSorted(xs: seq<Line>, typeSorting: Options.TypeSorting): seq<Line>
  {
    match typeSorting
    case None => xs
    case AngleBracketsFirst => Ordering.SortBy(xs, DelimiterRank(IncludeLines.AngleBrackets))
    case QuotedFirst => Ordering.SortBy(xs, DelimiterRank(IncludeLines.Quotes))
  }

  /** The delimiter type chosen first comes first; each type keeps its order, and no line is lost. */
  lemma TypeSortedOrder(xs: seq<Line>, first: IncludeLines.DelimiterType)
    ensures var typeSorting := if first == IncludeLines.AngleBrackets then Options.AngleBracketsFirst else Options.QuotedFirst;
            var r := TypeSorted(xs, typeSorting);
            && multiset(r) == multiset(xs)
            && (forall i, j :: 0 <= i < j < |r| && r[j].delimiter == first ==> r[i].delimiter == first)
            && Seqs.Filter(r, Ordering.HasKey(DelimiterRank(first), 0.0))
               == Seqs.Filter(xs, Ordering.HasKey(DelimiterRank(first), 0.0))
            && Seqs.Filter(r, Ordering.HasKey(DelimiterRank(first), 1.0))
               == Seqs.Filter(xs, Ordering.HasKey(DelimiterRank(first), 1.0))
  {
    var rank := DelimiterRank(first);
    Ordering.SortBySorted(xs, rank);
    Ordering.SortByStable(xs, rank, 0.0);
    Ordering.SortByStable(xs, rank, 1.0);
    var r := Ordering.SortBy(xs, rank);
    assert forall i, j :: 0 <= i < j < |r| ==> rank(r[i]) <= rank(r[j]);
  }

  /** `sortedIncludes`: the includes of the batch in the order they are written back. */
  function ProcessedIncludes(host: Host.Host, settings: Options.Settings, regexes: seq<string>,
                             includeBatch: seq<Line>): seq<Line>
  {
    var includeLines := UniqueIncludeLines(host, settings, includeBatch);
    var includeGroups := Ordering.Grouped(includeLines, GroupOf(host, regexes, settings.regexIncludeDelimiter), |regexes|);
    TypeSorted(includeGroups, settings.sortByType)
  }

  /** `groupStarts`, left empty unless blank lines are asked for, there are regexes and more than one include. */
  function BatchGroupStarts(host: Host.Host, settings: Options.Settings, regexes: seq<string>,
                            includeBatch: seq<Line>): set<int>
  {
    var includeLines := UniqueIncludeLines(host, settings, includeBatch);
    if settings.blankAfterRegexGroupMatch && |regexes| > 0 && |includeLines| > 1 then
      GroupStartIds(includeLines, GroupOf(host, regexes, settings.regexIncludeDelimiter), |regexes|)
    else
      {}
  }

  // ---- Merging with the other lines -----------------------------------------------------

  /**
   * `includeBatch.Select(...)` with the shared enumerator over `sorted`: each include line takes the
   * next sorted include, or a new empty line once they have run out; every other line stays.
   */
  function Merged(includeBatch: seq<Line>, sorted: seq<Line>): (r: seq<Line>)
    ensures |r| == |includeBatch|
    decreases |includeBatch|
  {
    if includeBatch == [] then []
    else if !includeBatch[0].containsActiveInclude then [includeBatch[0]] + Merged(includeBatch[1..], sorted)
    else if sorted == [] then [IncludeLines.EmptyLine()] + Merged(includeBatch[1..], [])
    else [sorted[0]] + Merged(includeBatch[1..], sorted[1..])
  }

  /**
   * Lines that are not includes keep their positions; the include at position `i` is replaced by
   * the sorted include whose index is the number of includes before `i`, or by an empty line.
   */
  lemma {:induction false} MergedAt(includeBatch: seq<Line>, sorted: seq<Line>, i: nat)
    requires i < |includeBatch|
    ensures !includeBatch[i].containsActiveInclude ==> Merged(includeBatch, sorted)[i] == includeBatch[i]
    ensures includeBatch[i].containsActiveInclude ==>
              var c := Seqs.CountWhere(includeBatch[..i], IsActive);
              Merged(includeBatch, sorted)[i] == if c < |sorted| then sorted[c] else IncludeLines.EmptyLine()
    decreases i
  {
    if i > 0 {
      var head := includeBatch[0];
      var tail := includeBatch[1..];
      var sorted' := if !head.containsActiveInclude then sorted else if sorted == [] then [] else sorted[1..];
      MergedAt(tail, sorted', i - 1);
      assert includeBatch[..i] == [head] + tail[..i - 1];
      assert includeBatch[..i][1..] == tail[..i - 1];
    }
  }

  /** When there are no more sorted includes than include lines, the includes of the result are exactly `sorted`. */
  lemma {:induction false} MergedIncludes(includeBatch: seq<Line>, sorted: seq<Line>)
    requires forall x :: x in sorted ==> x.containsActiveInclude
    requires |sorted| <= Seqs.CountWhere(includeBatch, IsActive)
    ensures Seqs.Filter(Merged(includeBatch, sorted), IsActive) == sorted
    decreases |includeBatch|
  {
    if includeBatch == [] {
      assert Seqs.Filter(includeBatch, IsActive) == [];
    } else if !includeBatch[0].containsActiveInclude {
      MergedIncludes(includeBatch[1..], sorted);
      FilterSkipsHead(includeBatch[0], Merged(includeBatch[1..], sorted));
    } else if sorted == [] {
      MergedIncludes(includeBatch[1..], []);
      FilterSkipsHead(IncludeLines.EmptyLine(), Merged(includeBatch[1..], []));
    } else {
      MergedIncludes(includeBatch[1..], sorted[1..]);
      assert Seqs.Filter(includeBatch, IsActive)[1..] == Seqs.Filter(includeBatch[1..], IsActive);
      FilterKeepsHead(sorted[0], Merged(includeBatch[1..], sorted[1..]));
    }
  }

  lemma FilterSkipsHead(x: Line, rest: seq<Line>)
    requires !x.containsActiveInclude
    ensures Seqs.Filter([x] + rest, IsActive) == Seqs.Filter(rest, IsActive)
  {
    assert ([x] + rest)[1..] == rest;
  }

  lemma FilterKeepsHead(x: Line, rest: seq<Line>)
    requires x.containsActiveInclude
    ensures Seqs.Filter([x] + rest, IsActive) == [x] + Seqs.Filter(rest, IsActive)
  {
    assert ([x] + rest)[1..] == rest;
  }

  /** A line that is not an include is kept by the merge. */
  lemma MergeKeeps(includeBatch: seq<Line>, sorted: seq<Line>, i: nat, next: nat, written: seq<Line>)
    requires i < |includeBatch| && next <= |sorted|
    requires !includeBatch[i].containsActiveInclude
    requires Merged(includeBatch, sorted) == written + Merged(includeBatch[i..], sorted[next..])
    ensures Merged(includeBatch, sorted) == written + [includeBatch[i]] + Merged(includeBatch[i + 1..], sorted[next..])
  {
    assert includeBatch[i..][0] == includeBatch[i] && includeBatch[i..][1..] == includeBatch[i + 1..];
    Seqs.ConcatAssociative(written, [includeBatch[i]], Merged(includeBatch[i + 1..], sorted[next..]));
  }

  /** An include takes the next sorted include while there is one. */
  lemma MergeTakes(includeBatch: seq<Line>, sorted: seq<Line>, i: nat, next: nat, written: seq<Line>)
    requires i < |includeBatch| && next < |sorted|
    requires includeBatch[i].containsActiveInclude
    requires Merged(includeBatch, sorted) == written + Merged(includeBatch[i..], sorted[next..])
    ensures Merged(includeBatch, sorted) == written + [sorted[next]] + Merged(includeBatch[i + 1..], sorted[next + 1..])
  {
    assert includeBatch[i..][0] == includeBatch[i] && includeBatch[i..][1..] == includeBatch[i + 1..];
    assert sorted[next..][0] == sorted[next] && sorted[next..][1..] == sorted[next + 1..];
    Seqs.ConcatAssociative(written, [sorted[next]], Merged(includeBatch[i + 1..], sorted[next + 1..]));
  }

  /** Once the sorted includes have run out, an include becomes an empty line. */
  lemma MergeEmpties(includeBatch: seq<Line>, sorted: seq<Line>, i: nat, written: seq<Line>)
    requires i < |includeBatch|
    requires includeBatch[i].containsActiveInclude
    requires Merged(includeBatch, sorted) == written + Merged(includeBatch[i..], [])
    ensures Merged(includeBatch, sorted) == written + [IncludeLines.EmptyLine()] + Merged(includeBatch[i + 1..], [])
  {
    assert includeBatch[i..][0] == includeBatch[i] && includeBatch[i..][1..] == includeBatch[i + 1..];
    Seqs.ConcatAssociative(written, [IncludeLines.EmptyLine()], Merged(includeBatch[i + 1..], []));
  }

  /** The merge of `SortIncludeBatch`, advancing the enumerator over `sortedIncludes`. */
  method MergeSorted(includeBatch: seq<Line>, sortedIncludes: seq<Line>) returns (sortedLines: seq<Line>)
    ensures sortedLines == Merged(includeBatch, sortedIncludes)
  {
    var next := 0;
    sortedLines := [];
    for i := 0 to |includeBatch|
      invariant next <= |sortedIncludes|
      invariant Merged(includeBatch, sortedIncludes) == sortedLines + Merged(includeBatch[i..], sortedIncludes[next..])
    {
      var originalLine := includeBatch[i];
      if originalLine.containsActiveInclude {
        if next < |sortedIncludes| {
          MergeTakes(includeBatch, sortedIncludes, i, next, sortedLines);
          sortedLines := sortedLines + [sortedIncludes[next]];
          next := next + 1;
        } else {
          assert sortedIncludes[next..] == [];
          MergeEmpties(includeBatch, sortedIncludes, i, sortedLines);
          sortedLines := sortedLines + [IncludeLines.EmptyLine()];
        }
      } else {
        MergeKeeps(includeBatch, sortedIncludes, i, next, sortedLines);
        sortedLines := sortedLines + [originalLine];
      }
    }
    assert includeBatch[|includeBatch|..] == [];
  }

  // ---- Blank lines between groups -------------------------------------------------------

  /**
   * A blank line goes before line `i` when it starts a group, is not the first line written, and
   * the line written before it is an include.
   */
  predicate BlankBefore(lines: seq<Line>, groupStarts: set<int>, i: nat)
    requires i < |lines|
  {
    i > 0 && lines[i].id in groupStarts && lines[i - 1].containsActiveInclude
  }

  function Pieces(lines: seq<Line>, groupStarts: set<int>): (ps: seq<seq<Line>>)
    ensures |ps| == |lines|
  {
    seq(|lines|, i requires 0 <= i < |lines| =>
          (if BlankBefore(lines, groupStarts, i) then [IncludeLines.EmptyLine()] else []) + [lines[i]])
  }

  /** The lines as `SortIncludeBatch` appends them, each preceded by a blank line where one is due. */
  function Separated(lines: seq<Line>, groupStarts: set<int>): seq<Line>
  {
    Seqs.Flatten(Pieces(lines, groupStarts))
  }

  /** Leaving out the last lines leaves the pieces of the others as they are. */
  lemma PiecesPrefix(lines: seq<Line>, groupStarts: set<int>, n: nat)
    requires n <= |lines|
    ensures Pieces(lines, groupStarts)[..n] == Pieces(lines[..n], groupStarts)
  {
    var front := lines[..n];
    forall i | 0 <= i < n
      ensures Pieces(lines, groupStarts)[i] == Pieces(front, groupStarts)[i]
    {
      assert front[i] == lines[i];
      if i > 0 {
        assert front[i - 1] == lines[i - 1];
      }
    }
  }

  /** The includes of one piece: its line, if that is an include. */
  lemma PieceIncludes(lines: seq<Line>, groupStarts: set<int>, n: nat)
    requires n < |lines|
    ensures Seqs.Filter(Pieces(lines, groupStarts)[n], IsActive) == Seqs.Filter([lines[n]], IsActive)
  {
    if BlankBefore(lines, groupStarts, n) {
      Seqs.FilterConcat([IncludeLines.EmptyLine()], [lines[n]], IsActive);
    }
  }

  /** The inserted blank lines are no includes: the includes are those of `lines`, in order. */
  lemma {:induction false} SeparatedIncludes(lines: seq<Line>, groupStarts: set<int>)
    ensures Seqs.Filter(Separated(lines, groupStarts), IsActive) == Seqs.Filter(lines, IsActive)
    decreases |lines|
  {
    if lines != [] {
      var n := |lines| - 1;
      var front := lines[..n];
      PiecesPrefix(lines, groupStarts, n);
      SeparatedIncludes(front, groupStarts);
      Seqs.FilterConcat(Separated(front, groupStarts), Pieces(lines, groupStarts)[n], IsActive);
      PieceIncludes(lines, groupStarts, n);
      Seqs.FilterConcat(front, [lines[n]], IsActive);
      assert lines == front + [lines[n]];
    }
  }

  /** Without group starts nothing is inserted. */
  lemma {:induction false} SeparatedWithoutStarts(lines: seq<Line>)
    ensures Separated(lines, {}) == lines
    decreases |lines|
  {
    if lines != [] {
      var n := |lines| - 1;
      assert Pieces(lines, {})[..n] == Pieces(lines[..n], {});
      SeparatedWithoutStarts(lines[..n]);
      assert lines == lines[..n] + [lines[n]];
    }
  }

  /**
   * Writing one more line: a blank line goes before it exactly when it starts a group, it is not
   * the first line, and the line written before it is an include.
   */
  lemma SeparatedSnoc(lines: seq<Line>, groupStarts: set<int>, x: Line)
    ensures Separated(lines + [x], groupStarts)
            == Separated(lines, groupStarts)
               + (if lines != [] && x.id in groupStarts && lines[|lines| - 1].containsActiveInclude
                  then [IncludeLines.EmptyLine()] else [])
               + [x]
  {
    var all := lines + [x];
    PiecesPrefix(all, groupStarts, |lines|);
    assert all[..|lines|] == lines;
    Seqs.ConcatAssociative(Separated(lines, groupStarts),
                           if BlankBefore(all, groupStarts, |lines|) then [IncludeLines.EmptyLine()] else [], [x]);
  }

  /** The first line written for a batch is its first line, never a blank one. */
  lemma {:induction false} SeparatedFirst(lines: seq<Line>, groupStarts: set<int>)
    requires lines != []
    ensures Separated(lines, groupStarts) != [] && Separated(lines, groupStarts)[0] == lines[0]
    decreases |lines|
  {
    var n := |lines| - 1;
    SeparatedSnoc(lines[..n], groupStarts, lines[n]);
    assert lines[..n] + [lines[n]] == lines;
    if n > 0 {
      SeparatedFirst(lines[..n], groupStarts);
    }
  }

  /** The final loop of `SortIncludeBatch`, appending to `outSortedList` with the `firstLine` flag. */
  method EmitLines(outSortedList: seq<Line>, sortedLines: seq<Line>, groupStarts: set<int>) returns (out: seq<Line>)
    ensures out == outSortedList + Separated(sortedLines, groupStarts)
  {
    out := outSortedList;
    var firstLine := true;
    for i := 0 to |sortedLines|
      invariant firstLine == (i == 0)
      invariant out == outSortedList + Seqs.Flatten(Pieces(sortedLines, groupStarts)[..i])
      invariant i > 0 ==> |out| > 0 && out[|out| - 1] == sortedLines[i - 1]
    {
      var sortedLine := sortedLines[i];
      var ps := Pieces(sortedLines, groupStarts);
      assert ps[..i + 1][..i] == ps[..i];
      if sortedLine.id in groupStarts && !firstLine && out[|out| - 1].containsActiveInclude {
        out := out + [IncludeLines.EmptyLine()];
      }
      out := out + [sortedLine];
      firstLine := false;
    }
    assert Pieces(sortedLines, groupStarts)[..|sortedLines|] == Pieces(sortedLines, groupStarts);
  }

  // ---- SortIncludeBatch -----------------------------------------------------------------

  /** The lines `SortIncludeBatch` appends for one batch. */
  function SortedBatch(host: Host.Host, settings: Options.Settings, regexes: seq<string>,
                       includeBatch: seq<Line>): seq<Line>
  {
    var sortedLines := Merged(includeBatch, ProcessedIncludes(host, settings, regexes, includeBatch));
    var kept := if settings.removeEmptyLines then Seqs.Filter(sortedLines, NotBlank) else sortedLines;
    Separated(kept, BatchGroupStarts(host, settings, regexes, includeBatch))
  }

  /** An empty batch adds no line. */
  lemma EmptyBatchWritesNothing(host: Host.Host, settings: Options.Settings, regexes: seq<string>)
    ensures SortedBatch(host, settings, regexes, []) == []
  {
    assert Pieces([], BatchGroupStarts(host, settings, regexes, [])) == [];
  }

  /**
   * `SortIncludeBatch`: `more` is false exactly for an empty batch, and the sorted batch is
   * appended to the lines already written.
   */
  method SortIncludeBatch(host: Host.Host, settings: Options.Settings, precedenceRegexes: seq<string>,
                          outSortedList: seq<Line>, includeBatch: seq<Line>)
    returns (more: bool, out: seq<Line>)
    ensures more == (includeBatch != [])
    ensures out == outSortedList + SortedBatch(host, settings, precedenceRegexes, includeBatch)
  {
    if includeBatch == [] {
      assert Pieces([], BatchGroupStarts(host, settings, precedenceRegexes, includeBatch)) == [];
      return false, outSortedList;
    }
    var includeLines := SortedIncludeLines(host, includeBatch);
    if settings.removeDuplicates {
      includeLines := RemoveDuplicates(includeLines);
    }
    var group := GroupOf(host, precedenceRegexes, settings.regexIncludeDelimiter);
    var includeGroups := Ordering.Grouped(includeLines, group, |precedenceRegexes|);

    var groupStarts: set<int> := {};
    if settings.blankAfterRegexGroupMatch && |precedenceRegexes| > 0 && |includeLines| > 1 {
      groupStarts := CollectGroupStarts(includeLines, group, |precedenceRegexes|);
    }

    var sortedIncludes := TypeSorted(includeGroups, settings.sortByType);
    var sortedLines := MergeSorted(includeBatch, sortedIncludes);
    if settings.removeEmptyLines {
      sortedLines := Seqs.Filter(sortedLines, NotBlank);
    }
    out := EmitLines(outSortedList, sortedLines, groupStarts);
    more := true;
  }

  // ---- What a sorted batch holds --------------------------------------------------------

  /** Every group key is at most the number of regexes. */
  lemma GroupKeysBounded(host: Host.Host, regexes: seq<string>, regexIncludeDelimiter: bool, xs: seq<Line>)
    ensures forall x :: x in xs ==> GroupOf(host, regexes, regexIncludeDelimiter)(x) <= |regexes|
  {
  }

  /** Grouping and sorting by delimiter type only rearrange the lines. */
  lemma GroupedAndTypeSortedPermutation(host: Host.Host, settings: Options.Settings, regexes: seq<string>,
                                        includeLines: seq<Line>)
    ensures multiset(TypeSorted(Ordering.Grouped(includeLines, GroupOf(host, regexes, settings.regexIncludeDelimiter), |regexes|),
                                settings.sortByType))
            == multiset(includeLines)
  {
    var group := GroupOf(host, regexes, settings.regexIncludeDelimiter);
    GroupKeysBounded(host, regexes, settings.regexIncludeDelimiter, includeLines);
    Ordering.GroupedPermutation(includeLines, group, |regexes|);
    var includeGroups := Ordering.Grouped(includeLines, group, |regexes|);
    match settings.sortByType
    case None =>
    case AngleBracketsFirst => Ordering.SortBySorted(includeGroups, DelimiterRank(IncludeLines.AngleBrackets));
    case QuotedFirst => Ordering.SortBySorted(includeGroups, DelimiterRank(IncludeLines.Quotes));
  }

  /** The lines left after the optional removal of duplicates are active includes of the batch; all of them when none are removed. */
  lemma UniqueIncludeLinesFromBatch(host: Host.Host, settings: Options.Settings, includeBatch: seq<Line>)
    ensures multiset(UniqueIncludeLines(host, settings, includeBatch)) <= multiset(Seqs.Filter(includeBatch, IsActive))
    ensures !settings.removeDuplicates ==>
              multiset(UniqueIncludeLines(host, settings, includeBatch)) == multiset(Seqs.Filter(includeBatch, IsActive))
  {
    var sorted := SortedIncludeLines(host, includeBatch);
    Ordering.SortBySorted(Seqs.Filter(includeBatch, IsActive), ContentRank(host));
    if settings.removeDuplicates {
      DeduplicatedSubsequence(sorted, {});
      Seqs.SubsequenceMultiset(Deduplicated(sorted, {}), sorted);
    }
  }

  /**
   * The includes written back are the active includes of the batch, rearranged, less the removed
   * duplicates: all of them when duplicates are kept.
   */
  lemma ProcessedIncludesPermutation(host: Host.Host, settings: Options.Settings, regexes: seq<string>,
                                     includeBatch: seq<Line>)
    ensures multiset(ProcessedIncludes(host, settings, regexes, includeBatch))
            == multiset(UniqueIncludeLines(host, settings, includeBatch))
    ensures multiset(UniqueIncludeLines(host, settings, includeBatch)) <= multiset(Seqs.Filter(includeBatch, IsActive))
    ensures !settings.removeDuplicates ==>
              multiset(ProcessedIncludes(host, settings, regexes, includeBatch))
              == multiset(Seqs.Filter(includeBatch, IsActive))
  {
    GroupedAndTypeSortedPermutation(host, settings, regexes, UniqueIncludeLines(host, settings, includeBatch));
    UniqueIncludeLinesFromBatch(host, settings, includeBatch);
  }

  /**
   * With duplicate removal on, no two written includes that are not preserved share their text
   * with delimiters, every such text survives, and the preserved includes all stay in order.
   */
  lemma UniqueIncludeLinesDeduplicated(host: Host.Host, settings: Options.Settings, includeBatch: seq<Line>)
    requires settings.removeDuplicates
    ensures var sorted := SortedIncludeLines(host, includeBatch);
            var unique := UniqueIncludeLines(host, settings, includeBatch);
            && UniqueKeys(unique)
            && Seqs.Filter(unique, IsPreserved) == Seqs.Filter(sorted, IsPreserved)
            && (forall x :: x in sorted && !x.shouldBePreserved ==>
                  exists y :: y in unique && !y.shouldBePreserved && DedupKey(y) == DedupKey(x))
  {
    var sorted := SortedIncludeLines(host, includeBatch);
    DeduplicatedUnique(sorted, {});
    DeduplicatedKeepsPreserved(sorted, {});
    DeduplicatedKeepsKeys(sorted, {});
  }

  /**
   * Without sorting by delimiter type, the includes come in ascending order of their group, and
   * within a group in the order of their text.
   */
  lemma ProcessedIncludesOrdered(host: Host.Host, settings: Options.Settings, regexes: seq<string>,
                                 includeBatch: seq<Line>)
    requires settings.sortByType == Options.TypeSorting.None
    ensures var p := ProcessedIncludes(host, settings, regexes, includeBatch);
            var group := GroupOf(host, regexes, settings.regexIncludeDelimiter);
            && (forall i, j :: 0 <= i < j < |p| ==> group(p[i]) <= group(p[j]))
            && (forall g: nat :: g <= |regexes| ==>
                  Ordering.SortedBy(Seqs.Filter(p, Ordering.InGroup(group, g)), ContentRank(host)))
  {
    var group := GroupOf(host, regexes, settings.regexIncludeDelimiter);
    var sorted := SortedIncludeLines(host, includeBatch);
    var unique := UniqueIncludeLines(host, settings, includeBatch);
    Ordering.GroupedOrdered(unique, group, |regexes|);
    Ordering.SortBySorted(Seqs.Filter(includeBatch, IsActive), ContentRank(host));
    if settings.removeDuplicates {
      DeduplicatedSubsequence(sorted, {});
      Ordering.SubsequenceSorted(unique, sorted, ContentRank(host));
    }
    forall g: nat | g <= |regexes|
      ensures Ordering.SortedBy(Seqs.Filter(Ordering.Grouped(unique, group, |regexes|), Ordering.InGroup(group, g)), ContentRank(host))
    {
      Ordering.GroupedKeepsGroups(unique, group, |regexes|, g);
      Seqs.FilterIsSubsequence(unique, Ordering.InGroup(group, g));
      Ordering.SubsequenceSorted(Seqs.Filter(unique, Ordering.InGroup(group, g)), unique, ContentRank(host));
    }
  }

  /** The processed includes are active includes, no more of them than the batch holds. */
  lemma ProcessedIncludesFit(host: Host.Host, settings: Options.Settings, regexes: seq<string>, includeBatch: seq<Line>)
    ensures forall x :: x in ProcessedIncludes(host, settings, regexes, includeBatch) ==> x.containsActiveInclude
    ensures |ProcessedIncludes(host, settings, regexes, includeBatch)| <= Seqs.CountWhere(includeBatch, IsActive)
  {
    var p := ProcessedIncludes(host, settings, regexes, includeBatch);
    var active := Seqs.Filter(includeBatch, IsActive);
    ProcessedIncludesPermutation(host, settings, regexes, includeBatch);
    assert multiset(p) <= multiset(active);
    forall x | x in p
      ensures x.containsActiveInclude
    {
      assert x in multiset(p);
      assert x in active;
    }
    Seqs.MultisetSubsetSize(multiset(p), multiset(active));
    assert |p| == |multiset(p)| && |multiset(active)| == |active|;
  }

  /** Dropping blank lines keeps every include, since an include line is never blank. */
  lemma NotBlankKeepsIncludes(lines: seq<Line>)
    ensures Seqs.Filter(Seqs.Filter(lines, NotBlank), IsActive) == Seqs.Filter(lines, IsActive)
  {
    forall x: Line | x.containsActiveInclude
      ensures NotBlank(x)
    {
      IncludeLines.ActiveLineNotBlank(x);
    }
    Seqs.FilterFilter(lines, NotBlank, IsActive, IsActive);
  }

  /** The includes of the lines written for a batch are the includes handed to the merge. */
  lemma WrittenIncludes(includeBatch: seq<Line>, sorted: seq<Line>, removeEmptyLines: bool, groupStarts: set<int>)
    requires forall x :: x in sorted ==> x.containsActiveInclude
    requires |sorted| <= Seqs.CountWhere(includeBatch, IsActive)
    ensures var sortedLines := Merged(includeBatch, sorted);
            var kept := if removeEmptyLines then Seqs.Filter(sortedLines, NotBlank) else sortedLines;
            Seqs.Filter(Separated(kept, groupStarts), IsActive) == sorted
  {
    var sortedLines := Merged(includeBatch, sorted);
    MergedIncludes(includeBatch, sorted);
    if removeEmptyLines {
      NotBlankKeepsIncludes(sortedLines);
    }
    var kept := if removeEmptyLines then Seqs.Filter(sortedLines, NotBlank) else sortedLines;
    SeparatedIncludes(kept, groupStarts);
  }

  /** The includes `SortIncludeBatch` writes are exactly the processed includes, in order. */
  lemma SortedBatchIncludes(host: Host.Host, settings: Options.Settings, regexes: seq<string>, includeBatch: seq<Line>)
    ensures Seqs.Filter(SortedBatch(host, settings, regexes, includeBatch), IsActive)
            == ProcessedIncludes(host, settings, regexes, includeBatch)
  {
    ProcessedIncludesFit(host, settings, regexes, includeBatch);
    WrittenIncludes(includeBatch, ProcessedIncludes(host, settings, regexes, includeBatch), settings.removeEmptyLines,
                    BatchGroupStarts(host, settings, regexes, includeBatch));
  }

  /**
   * No include is added by sorting a batch: the includes written are some of the batch's, and all
   * of them when duplicates are kept.
   */
  lemma SortedBatchKeepsIncludes(host: Host.Host, settings: Options.Settings, regexes: seq<string>, includeBatch: seq<Line>)
    ensures multiset(Seqs.Filter(SortedBatch(host, settings, regexes, includeBatch), IsActive))
            <= multiset(Seqs.Filter(includeBatch, IsActive))
    ensures !settings.removeDuplicates ==>
              multiset(Seqs.Filter(SortedBatch(host, settings, regexes, includeBatch), IsActive))
              == multiset(Seqs.Filter(includeBatch, IsActive))
  {
    SortedBatchIncludes(host, settings, regexes, includeBatch);
    ProcessedIncludesPermutation(host, settings, regexes, includeBatch);
  }
}
