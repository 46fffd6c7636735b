/**
 * `SortIncludes` of IncludeToolbox/Formatter/IncludeFormatter.cs: the lines are cut into batches,
 * each ending before a preprocessor directive that is not an include, and every batch is sorted
 * on its own.
 */
module IncludeSorter {
  import Seqs
  import Options
  import IncludeLines
  import Host
  import BatchSorter

  type Line = IncludeLines.IncludeLineInfo

  /** A line between batches: not an include. */
  predicate IsPassThrough(line: Line)
  {
    !line.containsActiveInclude
  }

  /** A line a batch may hold: an include, or a line that is no preprocessor directive. */
  predicate InBatch(line: Line)
  {
    line.containsActiveInclude || !line.containsPreProcessorDirective
  }

  /**
   * `SortIncludes` read line by line from line `i`, between batches: a line that is not an include
   * passes through, an include opens a batch.
   */
  function PassFrom(sortBatch: seq<Line> -> seq<Line>, lines: seq<Line>, i: nat): seq<Line>
    requires i <= |lines|
    decreases |lines| - i, 1
  {
    if i == |lines| then []
    else if IsPassThrough(lines[i]) then [lines[i]] + PassFrom(sortBatch, lines, i + 1)
    else BatchFrom(sortBatch, lines, i, i + 1)
  }

  /**
   * Inside the batch that opened at line `start`, at line `j`: the batch takes lines until the first
   * directive that is not an include, then it is sorted and the lines after it are read on.
   */
  function BatchFrom(sortBatch: seq<Line> -> seq<Line>, lines: seq<Line>, start: nat, j: nat): seq<Line>
    requires start < j <= |lines|
    decreases |lines| - j, 2
  {
    if j < |lines| && InBatch(lines[j]) then BatchFrom(sortBatch, lines, start, j + 1)
    else sortBatch(lines[start..j]) + PassFrom(sortBatch, lines, j)
  }

  /** The lines `SortIncludes` returns when each batch is sorted by `sortBatch`. */
  function SortedLines(sortBatch: seq<Line> -> seq<Line>, lines: seq<Line>): seq<Line>
  {
    PassFrom(sortBatch, lines, 0)
  }

  /** `RegexUtils.FixupRegexes(settings.PrecedenceRegexes, documentName)`. */
  function PrecedenceRegexes(host: Host.Host, settings: Options.Settings, documentName: string): seq<string>
  {
    host.fixupRegexes(settings.precedenceRegexes, documentName)
  }

  /** The batch sort of `SortIncludeBatch` under the given settings and regexes. */
  function BatchSorting(host: Host.Host, settings: Options.Settings, regexes: seq<string>): seq<Line> -> seq<Line>
  {
    batch => BatchSorter.SortedBatch(host, settings, regexes, batch)
  }

  /** When every line from `i` on passes through, they come out as they are. */
  lemma {:induction false} PassRunToEnd(sortBatch: seq<Line> -> seq<Line>, lines: seq<Line>, i: nat, n: nat)
    requires i <= |lines|
    requires n == Seqs.CountWhileFrom(lines, i, IsPassThrough)
    requires i + n == |lines|
    ensures PassFrom(sortBatch, lines, i) == lines[i..]
    decreases n
  {
    if n != 0 {
      PassRunToEnd(sortBatch, lines, i + 1, n - 1);
      assert lines[i..] == [lines[i]] + lines[i + 1..];
    }
  }

  /**
   * `lines.Skip(i).TakeWhile(x => !x.ContainsActiveInclude)`, `n` lines long, passes through from
   * line `i`, and the include after it opens a batch.
   */
  lemma {:induction false} PassRun(sortBatch: seq<Line> -> seq<Line>, lines: seq<Line>, i: nat, n: nat)
    requires i <= |lines|
    requires n == Seqs.CountWhileFrom(lines, i, IsPassThrough)
    requires i + n < |lines|
    ensures PassFrom(sortBatch, lines, i) == lines[i..i + n] + BatchFrom(sortBatch, lines, i + n, i + n + 1)
    decreases n
  {
    if n == 0 {
      assert lines[i..i] == [];
    } else {
      PassRun(sortBatch, lines, i + 1, n - 1);
      PassOneMore(sortBatch, lines, i, n, BatchFrom(sortBatch, lines, i + n, i + n + 1));
    }
  }

  /** One more line that passes through in front of a run. */
  lemma PassOneMore(sortBatch: seq<Line> -> seq<Line>, lines: seq<Line>, i: nat, n: nat, rest: seq<Line>)
    requires 0 < n && i + n <= |lines|
    requires IsPassThrough(lines[i])
    requires PassFrom(sortBatch, lines, i + 1) == lines[i + 1..i + n] + rest
    ensures PassFrom(sortBatch, lines, i) == lines[i..i + n] + rest
  {
    assert lines[i..i + n] == [lines[i]] + lines[i + 1..i + n];
    Seqs.ConcatAssociative([lines[i]], lines[i + 1..i + n], rest);
  }

  /**
   * The batch that opened at `start` is `lines.Skip(start).TakeWhile(x => x.ContainsActiveInclude ||
   * !x.ContainsPreProcessorDirective)`, `b` lines long.
   */
  lemma {:induction false} BatchRun(sortBatch: seq<Line> -> seq<Line>, lines: seq<Line>, start: nat, j: nat, b: nat)
    requires start < j <= |lines|
    requires b == Seqs.CountWhileFrom(lines, start, InBatch)
    requires j <= start + b
    ensures BatchFrom(sortBatch, lines, start, j) == sortBatch(lines[start..start + b]) + PassFrom(sortBatch, lines, start + b)
    decreases |lines| - j
  {
    if j < start + b {
      Seqs.CountWhileFromHolds(lines, start, InBatch, j);
      BatchRun(sortBatch, lines, start, j + 1, b);
    } else {
      Seqs.CountWhileFromStops(lines, start, InBatch);
    }
  }

  /** After the lines that pass through, the batch is empty only at the end of the text. */
  lemma BatchEmptyOnlyAtEnd(lines: seq<Line>, k: nat, n: nat, b: nat)
    requires k <= |lines|
    requires n == Seqs.CountWhileFrom(lines, k, IsPassThrough)
    requires b == Seqs.CountWhileFrom(lines, k + n, InBatch)
    ensures b == 0 <==> k + n == |lines|
  {
    if k + n < |lines| {
      Seqs.CountWhileFromStops(lines, k, IsPassThrough);
    }
  }

  /** One turn of the loop of `SortIncludes` from line `k`: the lines that pass through, then the sorted batch. */
  lemma ConsumeBatch(sortBatch: seq<Line> -> seq<Line>, lines: seq<Line>, k: nat, n: nat, b: nat)
    requires k <= |lines|
    requires n == Seqs.CountWhileFrom(lines, k, IsPassThrough)
    requires b == Seqs.CountWhileFrom(lines, k + n, InBatch)
    requires b != 0
    ensures PassFrom(sortBatch, lines, k) == lines[k..k + n] + (sortBatch(lines[k + n..k + n + b]) + PassFrom(sortBatch, lines, k + n + b))
  {
    BatchEmptyOnlyAtEnd(lines, k, n, b);
    PassRun(sortBatch, lines, k, n);
    BatchRun(sortBatch, lines, k + n, k + n + 1, b);
  }

  /** A turn of the loop that finds a batch keeps its invariant. */
  lemma NextTurn(sortBatch: seq<Line> -> seq<Line>, lines: seq<Line>, k: nat, n: nat, b: nat, written: seq<Line>,
                 nonIncludeItems: seq<Line>, includeBatch: seq<Line>, next: nat)
    requires k <= |lines|
    requires n == Seqs.CountWhileFrom(lines, k, IsPassThrough)
    requires b == Seqs.CountWhileFrom(lines, k + n, InBatch)
    requires b != 0
    requires written + PassFrom(sortBatch, lines, k) == SortedLines(sortBatch, lines)
    requires nonIncludeItems == lines[k..k + n] && includeBatch == lines[k + n..k + n + b] && next == k + n + b
    ensures next <= |lines|
    ensures written + nonIncludeItems + sortBatch(includeBatch) + PassFrom(sortBatch, lines, next)
            == SortedLines(sortBatch, lines)
  {
    ConsumeBatch(sortBatch, lines, k, n, b);
    var sorted := sortBatch(includeBatch);
    var later := PassFrom(sortBatch, lines, next);
    Seqs.ConcatAssociative(nonIncludeItems, sorted, later);
    Seqs.ConcatAssociative(written, nonIncludeItems, sorted);
    Seqs.ConcatAssociative(written, nonIncludeItems + sorted, later);
  }

  /** The turn that finds no batch has reached the end of the text, and the result is complete. */
  lemma LastTurn(sortBatch: seq<Line> -> seq<Line>, lines: seq<Line>, k: nat, n: nat, b: nat, written: seq<Line>,
                 nonIncludeItems: seq<Line>)
    requires k <= |lines|
    requires n == Seqs.CountWhileFrom(lines, k, IsPassThrough)
    requires b == Seqs.CountWhileFrom(lines, k + n, InBatch)
    requires b == 0
    requires written + PassFrom(sortBatch, lines, k) == SortedLines(sortBatch, lines)
    requires nonIncludeItems == lines[k..k + n]
    ensures written + nonIncludeItems == SortedLines(sortBatch, lines)
  {
    BatchEmptyOnlyAtEnd(lines, k, n, b);
    PassRunToEnd(sortBatch, lines, k, n);
  }

  /** `IncludeFormatter.SortIncludes`: the regexes are fixed up for the document, then the batches are sorted. */
  method SortIncludes(host: Host.Host, lines: seq<Line>, settings: Options.Settings, documentName: string)
    returns (outSortedList: seq<Line>)
    ensures outSortedList == SortedLines(BatchSorting(host, settings, PrecedenceRegexes(host, settings, documentName)), lines)
  {
    var precedenceRegexes := PrecedenceRegexes(host, settings, documentName);
    outSortedList := SortBatches(host, settings, precedenceRegexes, lines, BatchSorting(host, settings, precedenceRegexes));
  }

  /**
   * The `do`-`while` loop of `SortIncludes`, advancing `numConsumedItems`; `sortBatch` is what
   * `SortIncludeBatch` appends for a batch.
   */
  method SortBatches(host: Host.Host, settings: Options.Settings, precedenceRegexes: seq<string>, lines: seq<Line>,
                     ghost sortBatch: seq<Line> -> seq<Line>)
    returns (outSortedList: seq<Line>)
    requires forall batch {:trigger BatchSorter.SortedBatch(host, settings, precedenceRegexes, batch)} ::
               sortBatch(batch) == BatchSorter.SortedBatch(host, settings, precedenceRegexes, batch)
    ensures outSortedList == SortedLines(sortBatch, lines)
  {
    outSortedList := [];
    var numConsumedItems := 0;
    while true
      invariant numConsumedItems <= |lines|
      invariant outSortedList + PassFrom(sortBatch, lines, numConsumedItems) == SortedLines(sortBatch, lines)
      decreases |lines| - numConsumedItems
    {
      ghost var written := outSortedList;
      ghost var start := numConsumedItems;
      // Fill in all non-include items between batches.
      var nonIncludeCount := Seqs.CountWhileFrom(lines, numConsumedItems, IsPassThrough);
      var nonIncludeItems := lines[numConsumedItems..numConsumedItems + nonIncludeCount];
      numConsumedItems := numConsumedItems + nonIncludeCount;
      outSortedList := outSortedList + nonIncludeItems;

      // The batch ends at a preprocessor directive that is not an include.
      var batchCount := Seqs.CountWhileFrom(lines, numConsumedItems, InBatch);
      var includeBatch := lines[numConsumedItems..numConsumedItems + batchCount];
      numConsumedItems := numConsumedItems + batchCount;

      var more;
      more, outSortedList := AppendBatch(host, settings, precedenceRegexes, outSortedList, includeBatch, sortBatch);
      if !more {
        LastTurn(sortBatch, lines, start, nonIncludeCount, batchCount, written, nonIncludeItems);
        break;
      }
      NextTurn(sortBatch, lines, start, nonIncludeCount, batchCount, written, nonIncludeItems, includeBatch, numConsumedItems);
      if numConsumedItems == |lines| {
        break;
      }
    }
  }

  /** `SortIncludeBatch` as the loop sees it: it appends `sortBatch(includeBatch)`. */
  method AppendBatch(host: Host.Host, settings: Options.Settings, precedenceRegexes: seq<string>,
                     outSortedList: seq<Line>, includeBatch: seq<Line>, ghost sortBatch: seq<Line> -> seq<Line>)
    returns (more: bool, out: seq<Line>)
    requires forall batch {:trigger BatchSorter.SortedBatch(host, settings, precedenceRegexes, batch)} ::
               sortBatch(batch) == BatchSorter.SortedBatch(host, settings, precedenceRegexes, batch)
    ensures more == (includeBatch != [])
    ensures out == outSortedList + sortBatch(includeBatch)
    ensures !more ==> out == outSortedList
  {
    more, out := BatchSorter.SortIncludeBatch(host, settings, precedenceRegexes, outSortedList, includeBatch);
    BatchSorter.EmptyBatchWritesNothing(host, settings, precedenceRegexes);
  }

  /** With batches left as they are, the sort gives the lines back: the batches and the lines between them cover the text. */
  lemma {:induction false} PassCoversLines(lines: seq<Line>, i: nat)
    requires i <= |lines|
    ensures PassFrom(batch => batch, lines, i) == lines[i..]
    decreases |lines| - i, 1
  {
    if i < |lines| {
      if IsPassThrough(lines[i]) {
        PassCoversLines(lines, i + 1);
        assert lines[i..] == [lines[i]] + lines[i + 1..];
      } else {
        BatchCoversLines(lines, i, i + 1);
      }
    }
  }

  lemma {:induction false} BatchCoversLines(lines: seq<Line>, start: nat, j: nat)
    requires start < j <= |lines|
    ensures BatchFrom(batch => batch, lines, start, j) == lines[start..]
    decreases |lines| - j, 2
  {
    if j < |lines| && InBatch(lines[j]) {
      BatchCoversLines(lines, start, j + 1);
    } else {
      PassCoversLines(lines, j);
      assert lines[start..] == lines[start..j] + lines[j..];
    }
  }

  /** Dropping lines from the front shifts where the sort stands and changes nothing else. */
  lemma {:induction false} PassFromDrop(sortBatch: seq<Line> -> seq<Line>, lines: seq<Line>, k: nat, i: nat)
    requires k + i <= |lines|
    ensures PassFrom(sortBatch, lines, k + i) == PassFrom(sortBatch, lines[k..], i)
    decreases |lines| - (k + i), 1
  {
    if k + i < |lines| {
      assert lines[k..][i] == lines[k + i];
      if IsPassThrough(lines[k + i]) {
        PassFromDrop(sortBatch, lines, k, i + 1);
      } else {
        BatchFromDrop(sortBatch, lines, k, i, i + 1);
      }
    }
  }

  lemma {:induction false} BatchFromDrop(sortBatch: seq<Line> -> seq<Line>, lines: seq<Line>, k: nat, start: nat, j: nat)
    requires start < j && k + j <= |lines|
    ensures BatchFrom(sortBatch, lines, k + start, k + j) == BatchFrom(sortBatch, lines[k..], start, j)
    decreases |lines| - (k + j), 2
  {
    if k + j < |lines| {
      assert lines[k..][j] == lines[k + j];
    }
    if k + j < |lines| && InBatch(lines[k + j]) {
      BatchFromDrop(sortBatch, lines, k, start, j + 1);
    } else {
      assert lines[k..][start..j] == lines[k + start..k + j];
      PassFromDrop(sortBatch, lines, k, j);
    }
  }

  /** Up to a directive that is not an include at line `j`, the sort sees only the lines before it. */
  lemma {:induction false} PassStopsAtDirective(sortBatch: seq<Line> -> seq<Line>, lines: seq<Line>, i: nat, j: nat)
    requires i <= j < |lines|
    requires !lines[j].containsActiveInclude && lines[j].containsPreProcessorDirective
    ensures PassFrom(sortBatch, lines, i)
            == PassFrom(sortBatch, lines[..j], i) + [lines[j]] + PassFrom(sortBatch, lines, j + 1)
    decreases j - i, 1
  {
    var before := lines[..j];
    if i == j {
      assert PassFrom(sortBatch, before, j) == [];
    } else {
      assert before[i] == lines[i];
      if IsPassThrough(lines[i]) {
        PassStopsAtDirective(sortBatch, lines, i + 1, j);
      } else {
        BatchStopsAtDirective(sortBatch, lines, i, i + 1, j);
      }
    }
  }

  lemma {:induction false} BatchStopsAtDirective(sortBatch: seq<Line> -> seq<Line>, lines: seq<Line>, start: nat, k: nat, j: nat)
    requires start < k <= j < |lines|
    requires !lines[j].containsActiveInclude && lines[j].containsPreProcessorDirective
    ensures BatchFrom(sortBatch, lines, start, k)
            == BatchFrom(sortBatch, lines[..j], start, k) + [lines[j]] + PassFrom(sortBatch, lines, j + 1)
    decreases j - k, 2
  {
    var before := lines[..j];
    assert before[start..k] == lines[start..k];
    if k == j {
      assert PassFrom(sortBatch, before, j) == [];
      assert PassFrom(sortBatch, lines, j) == [lines[j]] + PassFrom(sortBatch, lines, j + 1);
    } else {
      assert before[k] == lines[k];
      if InBatch(lines[k]) {
        BatchStopsAtDirective(sortBatch, lines, start, k + 1, j);
      } else {
        PassStopsAtDirective(sortBatch, lines, k, j);
        var sorted := sortBatch(lines[start..k]);
        var head := PassFrom(sortBatch, before, k);
        Seqs.ConcatAssociative(sorted, head, [lines[j]]);
        Seqs.ConcatAssociative(sorted, head + [lines[j]], PassFrom(sortBatch, lines, j + 1));
      }
    }
  }

  /**
   * A preprocessor directive that is not an include is a wall: what lies before it and what lies
   * after it are sorted apart, and it stays where it is.
   */
  lemma DirectiveIsBatchBoundary(sortBatch: seq<Line> -> seq<Line>, before: seq<Line>, directive: Line, after: seq<Line>)
    requires !directive.containsActiveInclude && directive.containsPreProcessorDirective
    ensures SortedLines(sortBatch, before + [directive] + after)
            == SortedLines(sortBatch, before) + [directive] + SortedLines(sortBatch, after)
  {
    var lines := before + [directive] + after;
    var j := |before|;
    PassStopsAtDirective(sortBatch, lines, 0, j);
    assert lines[..j] == before;
    PassFromDrop(sortBatch, lines, j + 1, 0);
    assert lines[j + 1..] == after;
  }

  /** A text without includes comes back line for line. */
  lemma {:induction false} NoIncludesNoChange(sortBatch: seq<Line> -> seq<Line>, lines: seq<Line>, i: nat)
    requires i <= |lines|
    requires forall x :: x in lines ==> !x.containsActiveInclude
    ensures PassFrom(sortBatch, lines, i) == lines[i..]
    decreases |lines| - i
  {
    if i < |lines| {
      assert lines[i] in lines;
      NoIncludesNoChange(sortBatch, lines, i + 1);
      assert lines[i..] == [lines[i]] + lines[i + 1..];
    }
  }

  // ---- No include is lost -------------------------------------------------------------

  /**
   * The includes of `out` are some of those of `input`; all of them, rearranged, when `exact`:
   * no include occurs more often in `out` than in `input`, and as often when `exact`.
   */
  ghost predicate KeepsIncludes(out: seq<Line>, input: seq<Line>, exact: bool)
  {
    forall x: Line :: x.containsActiveInclude ==>
      multiset(out)[x] <= multiset(input)[x] && (exact ==> multiset(out)[x] == multiset(input)[x])
  }

  lemma KeepsIncludesConcat(out1: seq<Line>, out2: seq<Line>, in1: seq<Line>, in2: seq<Line>, exact: bool)
    requires KeepsIncludes(out1, in1, exact) && KeepsIncludes(out2, in2, exact)
    ensures KeepsIncludes(out1 + out2, in1 + in2, exact)
  {
  }

  lemma {:induction false} PassFromKeepsIncludes(sortBatch: seq<Line> -> seq<Line>, lines: seq<Line>, i: nat, exact: bool)
    requires i <= |lines|
    requires forall batch :: KeepsIncludes(sortBatch(batch), batch, exact)
    ensures KeepsIncludes(PassFrom(sortBatch, lines, i), lines[i..], exact)
    decreases |lines| - i, 1
  {
    if i == |lines| {
      assert lines[i..] == [];
    } else if IsPassThrough(lines[i]) {
      PassFromKeepsIncludes(sortBatch, lines, i + 1, exact);
      KeepsIncludesConcat([lines[i]], PassFrom(sortBatch, lines, i + 1), [lines[i]], lines[i + 1..], exact);
      assert lines[i..] == [lines[i]] + lines[i + 1..];
    } else {
      BatchFromKeepsIncludes(sortBatch, lines, i, i + 1, exact);
    }
  }

  lemma {:induction false} BatchFromKeepsIncludes(sortBatch: seq<Line> -> seq<Line>, lines: seq<Line>, start: nat, j: nat,
                                                  exact: bool)
    requires start < j <= |lines|
    requires forall batch :: KeepsIncludes(sortBatch(batch), batch, exact)
    ensures KeepsIncludes(BatchFrom(sortBatch, lines, start, j), lines[start..], exact)
    decreases |lines| - j, 3
  {
    if j < |lines| && InBatch(lines[j]) {
      BatchFromKeepsIncludes(sortBatch, lines, start, j + 1, exact);
    } else {
      BatchEndKeepsIncludes(sortBatch, lines, start, j, exact);
    }
  }

  /** Where the batch ends, it is sorted and the lines after it are read on. */
  lemma {:induction false} BatchEndKeepsIncludes(sortBatch: seq<Line> -> seq<Line>, lines: seq<Line>, start: nat, j: nat,
                                                 exact: bool)
    requires start < j <= |lines|
    requires !(j < |lines| && InBatch(lines[j]))
    requires forall batch :: KeepsIncludes(sortBatch(batch), batch, exact)
    ensures KeepsIncludes(sortBatch(lines[start..j]) + PassFrom(sortBatch, lines, j), lines[start..], exact)
    decreases |lines| - j, 2
  {
    var batch := lines[start..j];
    assert KeepsIncludes(sortBatch(batch), batch, exact);
    PassFromKeepsIncludes(sortBatch, lines, j, exact);
    KeepsIncludesSplit(sortBatch(batch), PassFrom(sortBatch, lines, j), lines, start, j, exact);
  }

  lemma KeepsIncludesSplit(out1: seq<Line>, out2: seq<Line>, lines: seq<Line>, start: nat, j: nat, exact: bool)
    requires start <= j <= |lines|
    requires KeepsIncludes(out1, lines[start..j], exact) && KeepsIncludes(out2, lines[j..], exact)
    ensures KeepsIncludes(out1 + out2, lines[start..], exact)
  {
    KeepsIncludesConcat(out1, out2, lines[start..j], lines[j..], exact);
    assert lines[start..] == lines[start..j] + lines[j..];
  }

  /** The includes a sorted batch writes are the batch's, less removed duplicates. */
  lemma SortedBatchKeepsIncludes(host: Host.Host, settings: Options.Settings, regexes: seq<string>, batch: seq<Line>)
    ensures KeepsIncludes(BatchSorter.SortedBatch(host, settings, regexes, batch), batch, !settings.removeDuplicates)
  {
    var sorted := BatchSorter.SortedBatch(host, settings, regexes, batch);
    BatchSorter.SortedBatchKeepsIncludes(host, settings, regexes, batch);
    forall x: Line | x.containsActiveInclude
      ensures multiset(sorted)[x] <= multiset(batch)[x]
      ensures !settings.removeDuplicates ==> multiset(sorted)[x] == multiset(batch)[x]
    {
      Seqs.FilterCount(sorted, BatchSorter.IsActive, x);
      Seqs.FilterCount(batch, BatchSorter.IsActive, x);
    }
  }

  lemma BatchSortingKeepsIncludes(host: Host.Host, settings: Options.Settings, regexes: seq<string>)
    ensures forall batch :: KeepsIncludes(BatchSorting(host, settings, regexes)(batch), batch, !settings.removeDuplicates)
  {
    forall batch
      ensures KeepsIncludes(BatchSorting(host, settings, regexes)(batch), batch, !settings.removeDuplicates)
    {
      SortedBatchKeepsIncludes(host, settings, regexes, batch);
    }
  }

  /**
   * `SortIncludes` adds no include: every include it writes is one of the input's, and when
   * duplicates are kept it writes all of them, rearranged.
   */
  lemma SortKeepsIncludes(host: Host.Host, settings: Options.Settings, regexes: seq<string>, lines: seq<Line>)
    ensures var sorted := SortedLines(BatchSorting(host, settings, regexes), lines);
            && multiset(Seqs.Filter(sorted, BatchSorter.IsActive)) <= multiset(Seqs.Filter(lines, BatchSorter.IsActive))
            && (!settings.removeDuplicates ==>
                  multiset(Seqs.Filter(sorted, BatchSorter.IsActive)) == multiset(Seqs.Filter(lines, BatchSorter.IsActive)))
  {
    var sorted := SortedLines(BatchSorting(host, settings, regexes), lines);
    BatchSortingKeepsIncludes(host, settings, regexes);
    PassFromKeepsIncludes(BatchSorting(host, settings, regexes), lines, 0, !settings.removeDuplicates);
    assert lines[0..] == lines;
    forall x: Line
      ensures multiset(Seqs.Filter(sorted, BatchSorter.IsActive))[x] <= multiset(Seqs.Filter(lines, BatchSorter.IsActive))[x]
      ensures !settings.removeDuplicates ==>
                multiset(Seqs.Filter(sorted, BatchSorter.IsActive))[x] == multiset(Seqs.Filter(lines, BatchSorter.IsActive))[x]
    {
      Seqs.FilterCount(sorted, BatchSorter.IsActive, x);
      Seqs.FilterCount(lines, BatchSorter.IsActive, x);
    }
  }
}
