# IncludeToolbox include formatter, modelled in Dafny

This project models the include formatter of IncludeToolbox, a Visual Studio extension that
rewrites the `#include` block of a C++ source file. `IncludeFormatter.FormatIncludes` does four
things:

1. It parses the text into line records.
2. It rewrites the path of every include:
   - as written (Unchanged) or as an absolute path;
   - relative to the nearest parent directory holding a marker file;
   - as the shortest relative path over the include directories, optionally avoiding `../` steps.
3. It rewrites the delimiters (`<>` or `""`) and the slashes of every include.
4. It sorts the includes batch by batch, then joins the lines again with the text's dominant line
   separator. Batches are cut at preprocessor directives that are not includes. Inside a batch the
   sorter does the following:
   - orders the includes by content;
   - optionally removes duplicates;
   - groups them, stably, by the first precedence regex they match;
   - optionally sorts them by delimiter type;
   - writes them back into the include positions of the batch;
   - may insert a blank line before each group.

The model also covers the options page that holds the settings: its enumerations and defaults,
the `PrecedenceRegexes` setter, and saving to and loading from the Visual Studio settings store.

Modules, one per part of the program:

- `Options` (options.dfy): `FormatterOptionsPage`.
  - The settings are a `Settings` value.
  - The page is a class with one field per setting.
  - The settings store is a class holding a map of collections.
- `Utils` (utils.dfy): `Utils.MakeRelative`, `GetDominantNewLineSeparator` and `Prepend`.
- `IncludeLines` (includeline.dfy): the line record `IncludeLineInfo`. It is a datatype whose
  `id` field stands for the identity of the C# object.
- `PathFormatter` (formatpath.dfy): `FormatPath`. It is a method with the source's loop over the
  include directories, proved against the function `FormattedPath`.
- `RecordPasses` (recordpasses.dfy): `FormatPaths`, `FormatDelimiters` and `FormatSlashes`.
  - Each is a method that updates an `array` of records in place.
  - Each is proved against a function on the sequence of records.
- `BatchSorter` (batchsorter.dfy): `SortIncludeBatch`.
  - Each of its loops is a method proved against a specification function: duplicate removal, the
    shared enumerator that merges the sorted includes back, and the `firstLine` emission loop.
- `IncludeSorter` (includesorter.dfy): `SortIncludes`.
  - Its `do`-`while` loop is a method.
  - The specification is a line-by-line state machine, `PassFrom` / `BatchFrom`.
- `IncludeFormatter` (includeformatter.dfy): `FormatIncludes`.
- Helpers:
  - `Ordering`: stable `OrderBy`, and `GroupBy` + `OrderBy(Key)` + `SelectMany`.
  - `Seqs`: `Where`, `TakeWhile().Count()` and subsequences.
  - `Strings`: `Join`, `Split`, `Replace` and `IsNullOrWhiteSpace`.
  - `Paths`: `Path.GetFileName`, `Combine` and `GetFileNameWithoutExtension`.
  - `Host`: the functions taken from the environment.
  - `Wrappers`: `Option`.

What the environment provides enters as the fields of a `Host.Host` value, and the model assumes
nothing about it:

- `System.Uri` parsing and `MakeRelativeUri`;
- include resolution on the file system (`TryResolveInclude`);
- `Regex.Match`;
- the string order behind `OrderBy(x => x.IncludeContent)`, given as a rank `string -> real`;
- `RegexUtils.FixupRegexes`;
- the line parser `IncludeLineInfo.ParseIncludes`.

`null` is `None`.

The model follows the code at these points. At each, the option `[Description]` texts
(FormatterOptionsPage.cs lines 27-127) or the method names leave room to expect something else:

- Shortest_AvoidUpSteps keeps the file-relative candidate even when it contains `../`. A proposal
  with an up-step never replaces it. So the result may contain an up-step even though an up-step-free
  candidate exists (`PathFormatter.AvoidUpStepsResult`).
- Group starts are collected whenever blank lines are asked for, there is at least one regex and
  more than one include left after duplicate removal. The number of groups is not tested
  (`BatchSorter.BatchGroupStarts`).
- Empty lines are removed before the blank lines between groups are inserted, so the inserted
  blank lines stay. "Not the first line" is tested per batch (`BatchSorter.SeparatedFirst`).
  Batches are separated by a line that is not an include, so the line written before a batch is
  never an include, and the per-batch and whole-output readings give the same text.
- Includes are ordered by the culture-sensitive default string comparer, not ordinally.
- Inside `FormatPaths`, a record in the document's directory overrides only the include root.
  The path mode passed on is the original one (IncludeFormatter.cs line 141).

## Model

| member | source | states |
|---|---|---|
| PathFormatter.FormatPath | IncludeToolbox/Formatter/IncludeFormatter.cs:11-70 | The result is `FormattedPath`. Absolute returns the input, Unchanged returns null, a null path gives null outside Absolute mode, and ForceRelativeToParentDirWithFile returns `MakeRelative(root, abs)` with a root and null without one. |
| PathFormatter.FileRelativeCandidate | IncludeToolbox/Formatter/IncludeFormatter.cs:23-34 | Always gives `MakeRelative(documentDir, abs)` and Never gives no candidate. Under the two directory policies a candidate `c` satisfies `documentDir + c == abs`. |
| PathFormatter.InDocumentDirectory | IncludeToolbox/Formatter/IncludeFormatter.cs:28-31 | Under either directory policy the document directory is a prefix of the path. |
| PathFormatter.BestCandidateIsShortest | IncludeToolbox/Formatter/IncludeFormatter.cs:49-65 | The strict-less scan ends no longer than its initial candidate and than every eligible proposal. |
| PathFormatter.BestCandidateIsFirstShortest | IncludeToolbox/Formatter/IncludeFormatter.cs:49-65 | The scan keeps the initial candidate, or it picks an eligible proposal shorter than it and strictly shorter than every earlier eligible proposal: ties go to the earlier candidate. |
| PathFormatter.BestCandidateKeepsInitial | IncludeToolbox/Formatter/IncludeFormatter.cs:55-62 | When no eligible proposal is strictly shorter than the initial candidate, the scan returns the initial candidate. |
| PathFormatter.BestCandidateNeverGrows | IncludeToolbox/Formatter/IncludeFormatter.cs:55 | The candidate only ever gets shorter. |
| PathFormatter.ShortestModesAreShortest | IncludeToolbox/Formatter/IncludeFormatter.cs:43-65 | In Shortest mode the result is no longer than the file-relative candidate or any directory proposal. In Shortest_AvoidUpSteps mode the same holds against the up-step-free proposals. |
| PathFormatter.AvoidUpStepsResult | IncludeToolbox/Formatter/IncludeFormatter.cs:55-62 | In Shortest_AvoidUpSteps mode the result is the file-relative candidate or a directory proposal containing neither `../` nor `..\`. |
| PathFormatter.IncludeRootOnlyForcesRelative | IncludeToolbox/Formatter/IncludeFormatter.cs:36-41 | Outside ForceRelativeToParentDirWithFile mode the include root does not affect the result. |
| RecordPasses.ResolveIncludePath | IncludeToolbox/Formatter/IncludeFormatter.cs:87-105 | The resolving block of `FormatPaths` computes `ResolvedPath`. |
| RecordPasses.PathFormattedLine | IncludeToolbox/Formatter/IncludeFormatter.cs:107-145 | Only the include content can change. It changes only when all three hold: the include resolved, it lies under the include root where ForceRelativeToParentDirWithFile has one, and `FormatPath` returned a path, which is the new content. |
| RecordPasses.FormatLinePath | IncludeToolbox/Formatter/IncludeFormatter.cs:107-145 | The body of the loop computes `PathFormattedLine` for one record. |
| RecordPasses.PathsFormatted | IncludeToolbox/Formatter/IncludeFormatter.cs:82-145 | Unchanged leaves every record as it is. Any other mode passes each record through `PathFormattedLine`. |
| RecordPasses.FormatPaths | IncludeToolbox/Formatter/IncludeFormatter.cs:75-148 | The array of records is updated in place to `PathsFormatted` of its old contents. |
| RecordPasses.OutsideIncludeRootIsSkipped | IncludeToolbox/Formatter/IncludeFormatter.cs:109-115 | In ForceRelativeToParentDirWithFile mode, a record resolving outside the include root keeps its content. |
| RecordPasses.DocumentDirectoryOverrideOnlyChangesRoot | IncludeToolbox/Formatter/IncludeFormatter.cs:128-145 | For any mode other than ForceRelativeToParentDirWithFile, the override for records in the document's directory makes no difference: the original mode is passed on. |
| RecordPasses.DelimitersFormatted | IncludeToolbox/Formatter/IncludeFormatter.cs:150-163 | Only the delimiter changes. AngleBrackets or Quotes gives every record that delimiter, and Unchanged changes nothing. |
| RecordPasses.DelimitersFormattedIdempotent | IncludeToolbox/Formatter/IncludeFormatter.cs:150-163 | Formatting the delimiters twice is formatting them once. |
| RecordPasses.FormatDelimiters | IncludeToolbox/Formatter/IncludeFormatter.cs:150-163 | The array is updated in place to `DelimitersFormatted` of its old contents. |
| RecordPasses.SlashesFormatted | IncludeToolbox/Formatter/IncludeFormatter.cs:165-178 | Only the content changes, and its length is kept. ForwardSlash leaves no `\` in any content, and BackSlash leaves no `/`. |
| RecordPasses.SlashesFormattedIdempotent | IncludeToolbox/Formatter/IncludeFormatter.cs:165-178 | Formatting the slashes twice is formatting them once. |
| RecordPasses.FormatSlashes | IncludeToolbox/Formatter/IncludeFormatter.cs:165-178 | The array is updated in place to `SlashesFormatted` of its old contents. |
| Strings.ReplaceChar | IncludeToolbox/Formatter/IncludeFormatter.cs:171 | `Replace` keeps the length, puts the new character where the old one was and leaves every other character alone. |
| Strings.ReplaceCharIdempotent | IncludeToolbox/Formatter/IncludeFormatter.cs:171 | Replacing a character a second time changes nothing. |
| IncludeSorter.SortIncludes | IncludeToolbox/Formatter/IncludeFormatter.cs:180-204 | The result is `SortedLines` with the batch sort of `SortIncludeBatch` under the fixed-up regexes. |
| IncludeSorter.SortBatches | IncludeToolbox/Formatter/IncludeFormatter.cs:186-201 | The `do`-`while` loop computes `SortedLines`. Its invariant: what is written, followed by the state machine run from `numConsumedItems`, is the whole result. |
| IncludeSorter.ConsumeBatch | IncludeToolbox/Formatter/IncludeFormatter.cs:191-199 | One turn equals two things: the lines before the next include, taken as `TakeWhile(!ContainsActiveInclude)`, and the sorted `TakeWhile` batch, followed by the rest of the state machine. |
| IncludeSorter.BatchEmptyOnlyAtEnd | IncludeToolbox/Formatter/IncludeFormatter.cs:192-201 | After the lines that pass through, the batch is empty exactly at the end of the text, so the loop stops there. |
| IncludeSorter.AppendBatch | IncludeToolbox/Formatter/IncludeFormatter.cs:201 | The loop's call appends the sorted batch. It reports false exactly when the batch is empty and then appends nothing. |
| IncludeSorter.PassCoversLines | IncludeToolbox/Formatter/IncludeFormatter.cs:189-201 | With batches left unsorted, the loop gives the lines back: the batches and the lines between them cover the text, in order. |
| IncludeSorter.DirectiveIsBatchBoundary | IncludeToolbox/Formatter/IncludeFormatter.cs:196-199 | A directive that is not an include stays in place. The lines before it and the lines after it are sorted independently, so no include crosses it. |
| IncludeSorter.PassFromDrop | IncludeToolbox/Formatter/IncludeFormatter.cs:189-201 | Starting the loop later is sorting the remaining lines on their own. |
| IncludeSorter.NoIncludesNoChange | IncludeToolbox/Formatter/IncludeFormatter.cs:191-194 | Lines without includes pass through unchanged and in order. |
| IncludeSorter.SortKeepsIncludes | IncludeToolbox/Formatter/IncludeFormatter.cs:180-303 | The sort adds no include and writes none more often than the input has it. Without duplicate removal it writes exactly the input's includes, as a multiset. |
| BatchSorter.SortIncludeBatch | IncludeToolbox/Formatter/IncludeFormatter.cs:206-303 | It returns false exactly for an empty batch. Otherwise it appends `SortedBatch` of the batch to the output. |
| BatchSorter.EmptyBatchWritesNothing | IncludeToolbox/Formatter/IncludeFormatter.cs:209-211 | An empty batch appends nothing. |
| Ordering.SortBySorted | IncludeToolbox/Formatter/IncludeFormatter.cs:220-223 | `OrderBy` returns a permutation sorted by the key. |
| Ordering.SortByStable | IncludeToolbox/Formatter/IncludeFormatter.cs:220-223 | `OrderBy` is stable: the elements of one key keep their relative order. |
| BatchSorter.RemoveDuplicates | IncludeToolbox/Formatter/IncludeFormatter.cs:225-230 | `RemoveAll` with the `HashSet` computes `Deduplicated`. |
| BatchSorter.DeduplicatedSubsequence | IncludeToolbox/Formatter/IncludeFormatter.cs:228-229 | Deduplication only removes lines and keeps the order of the rest. |
| BatchSorter.UniqueIncludeLinesDeduplicated | IncludeToolbox/Formatter/IncludeFormatter.cs:225-230 | With RemoveDuplicates on, no two surviving non-preserved includes share their text with delimiters. The preserved includes all survive, in order. Every removed include has a survivor with the same text. |
| BatchSorter.FirstMatch | IncludeToolbox/Formatter/IncludeFormatter.cs:238-244 | The group index is the first regex that matches, or the number of regexes when none does. |
| BatchSorter.GroupIndexOf | IncludeToolbox/Formatter/IncludeFormatter.cs:235-245 | The key selector's loop returns the first matching regex's index, or the number of regexes. |
| Ordering.GroupedOrdered | IncludeToolbox/Formatter/IncludeFormatter.cs:234-258 | After grouping and flattening, the group indexes never decrease. |
| Ordering.GroupedKeepsGroups | IncludeToolbox/Formatter/IncludeFormatter.cs:234-258 | Each group holds the elements of its key in their order before grouping. |
| Ordering.GroupedPermutation | IncludeToolbox/Formatter/IncludeFormatter.cs:234-258 | Grouping loses and adds nothing. |
| BatchSorter.CollectGroupStarts | IncludeToolbox/Formatter/IncludeFormatter.cs:253-254 | The set holds the identity of the first record of every non-empty group. |
| BatchSorter.TypeSortedOrder | IncludeToolbox/Formatter/IncludeFormatter.cs:261-264 | The chosen delimiter type comes first. Each type keeps its order, and nothing is lost. |
| BatchSorter.ProcessedIncludesOrdered | IncludeToolbox/Formatter/IncludeFormatter.cs:218-258 | With TypeSorting None, the written includes are ordered by group index, and within a group by content. |
| BatchSorter.ProcessedIncludesPermutation | IncludeToolbox/Formatter/IncludeFormatter.cs:218-264 | Grouping and type sorting only rearrange the deduplicated includes. Without duplicate removal they are the batch's includes, as a multiset. |
| BatchSorter.MergeSorted | IncludeToolbox/Formatter/IncludeFormatter.cs:267-276 | The shared-enumerator `Select` computes `Merged`. |
| BatchSorter.MergedAt | IncludeToolbox/Formatter/IncludeFormatter.cs:268-276 | A non-include line keeps its batch position. The include at position `i` is replaced by the next sorted include, or by an empty line once they have run out. |
| BatchSorter.MergedIncludes | IncludeToolbox/Formatter/IncludeFormatter.cs:267-276 | The includes of the merged batch are exactly the sorted includes, in order. |
| BatchSorter.NotBlankKeepsIncludes | IncludeToolbox/Formatter/IncludeFormatter.cs:278-282 | Removing blank lines removes no include. |
| IncludeLines.ActiveLineNotBlank | IncludeToolbox/Formatter/IncludeFormatter.cs:281 | An include line is never blank. |
| BatchSorter.EmitLines | IncludeToolbox/Formatter/IncludeFormatter.cs:285-300 | The `firstLine` loop appends `Separated` of the lines. |
| BatchSorter.SeparatedSnoc | IncludeToolbox/Formatter/IncludeFormatter.cs:289-297 | A blank line is written before a line exactly when that line starts a group, is not the batch's first line, and follows an include. |
| BatchSorter.SeparatedFirst | IncludeToolbox/Formatter/IncludeFormatter.cs:286-298 | The first line written for a batch is its first line, never an inserted blank. |
| BatchSorter.SeparatedWithoutStarts | IncludeToolbox/Formatter/IncludeFormatter.cs:249-255 | Without group starts nothing is inserted. |
| BatchSorter.SeparatedIncludes | IncludeToolbox/Formatter/IncludeFormatter.cs:285-300 | Inserting blank lines changes neither the includes nor their order. |
| BatchSorter.SortedBatchIncludes | IncludeToolbox/Formatter/IncludeFormatter.cs:218-300 | The includes a sorted batch writes are the processed includes, in their order. |
| BatchSorter.SortedBatchKeepsIncludes | IncludeToolbox/Formatter/IncludeFormatter.cs:206-303 | A sorted batch writes no include the batch lacks. Without duplicate removal it writes all of them. |
| IncludeLines.NumberedDistinct | IncludeToolbox/Formatter/IncludeFormatter.cs:249 | The records of one parse have distinct identities, as the `HashSet` of objects needs. |
| IncludeLines.EmptyLine | IncludeToolbox/Formatter/IncludeFormatter.cs:273 | `new IncludeLineInfo()` has empty text and is neither an include nor a directive. |
| IncludeFormatter.IncludeRoot | IncludeToolbox/Formatter/IncludeFormatter.cs:317-339 | The include root is looked for only in ForceRelativeToParentDirWithFile mode with a marker file name that is not blank. |
| IncludeFormatter.PassedLines | IncludeToolbox/Formatter/IncludeFormatter.cs:347-354 | The three record passes rewrite only the include content and the delimiter of each record. |
| IncludeFormatter.FormatIncludes | IncludeToolbox/Formatter/IncludeFormatter.cs:313-361 | The result is `FormattedText`: the parsed records, formatted, sorted and joined with the dominant separator. |
| IncludeFormatter.PassesKeepIncludeCount | IncludeToolbox/Formatter/IncludeFormatter.cs:347-354 | The passes keep the number of include lines. |
| IncludeFormatter.FormattingKeepsIncludes | IncludeToolbox/Formatter/IncludeFormatter.cs:313-361 | The formatted text has at most as many include lines as the parsed text. It has exactly as many when duplicates are kept. |
| IncludeFormatter.NoIncludesOnlyRejoins | IncludeToolbox/Formatter/IncludeFormatter.cs:313-361 | A text without includes comes back line for line, joined with its dominant separator. |
| Utils.MakeRelative | IncludeToolbox/Utils.cs:14-35 | When either path fails to parse, the target comes back unchanged. Different schemes give `""`. Otherwise the relative URI is returned. |
| Utils.GetDominantNewLineSeparator | IncludeToolbox/Utils.cs:97-108 | The separator is `"\n"` or `"\r\n"`. It is `"\r\n"` exactly when `count('\n') - count('\r') < count('\r')`. A text without `\r` gives `"\n"`. |
| Utils.DominantSeparatorIsMajority | IncludeToolbox/Utils.cs:97-108 | For lines each ended by LF or CRLF, CRLF is chosen exactly when it ends strictly more lines. Ties give LF. |
| Utils.Prepend | IncludeToolbox/Utils.cs:113-120 | The value comes first and the sequence follows, in order, one longer. |
| Options.DefaultSettings | IncludeToolbox/Options/FormatterOptionsPage.cs:28-128 | The defaults: ForceRelativeToParentDirWithFile with `build.root`; OnlyInSameOrSubDirectory; delimiters Unchanged; ForwardSlash; RemoveEmptyLines, RegexIncludeDelimiter and BlankAfterRegexGroupMatch on; seven non-empty regexes; TypeSorting None; RemoveDuplicates on. |
| Options.FormatterOptionsPage.constructor | IncludeToolbox/Options/FormatterOptionsPage.cs:28-128 | A new page holds the defaults. |
| Options.NonEmptyEntries | IncludeToolbox/Options/FormatterOptionsPage.cs:102 | `Where(x => x.Length > 0)` leaves no empty entry. It drops exactly the empty entries, as a multiset, and keeps the order of the rest. |
| Options.NonEmptyEntriesKeepsNonEmpty | IncludeToolbox/Options/FormatterOptionsPage.cs:102 | A list without empty entries is kept as it is. |
| Options.FormatterOptionsPage.SetPrecedenceRegexes | IncludeToolbox/Options/FormatterOptionsPage.cs:100-103 | The setter stores the value without its empty entries and changes no other setting. |
| Options.JoinSplitRoundTrip | IncludeToolbox/Options/FormatterOptionsPage.cs:150-182 | Joining with `"\n"` and splitting with RemoveEmptyEntries gives the non-empty entries back, when no entry contains `'\n'`. |
| Strings.SplitJoin | IncludeToolbox/Options/FormatterOptionsPage.cs:150-182 | Splitting a join on a one-character separator restores the parts, when none contains the separator. |
| Options.RegexesRoundTrip | IncludeToolbox/Options/FormatterOptionsPage.cs:150-182 | A list without empty entries and without `'\n'` survives Save and Load unchanged. |
| Options.PathModeFromInt | IncludeToolbox/Options/FormatterOptionsPage.cs:161-162 | The `(PathMode)` cast inverts the `(int)` cast Save writes. |
| Options.EnumRoundTrips | IncludeToolbox/Options/FormatterOptionsPage.cs:140-185 | Every enumeration setting survives the int cast and the cast back. |
| Options.WriteSettings | IncludeToolbox/Options/FormatterOptionsPage.cs:140-153 | Save writes every setting into the collection, over what was there. |
| Options.SavedPropertiesWellTyped | IncludeToolbox/Options/FormatterOptionsPage.cs:140-153 | What Save writes gives each setting the kind Load reads, and each enumeration a named value. |
| Options.LoadedSettings | IncludeToolbox/Options/FormatterOptionsPage.cs:161-187 | Load changes no setting when the collection is empty. |
| Options.ReadSettings | IncludeToolbox/Options/FormatterOptionsPage.cs:161-187 | The reads compute `LoadedSettings`: a setting is overwritten only if its key is in the store. |
| Options.LoadKeepsValid | IncludeToolbox/Options/FormatterOptionsPage.cs:179-183 | After Load, the regexes still hold no empty entry. |
| Options.SaveLoadRoundTrip | IncludeToolbox/Options/FormatterOptionsPage.cs:132-188 | Loading what Save wrote restores every setting, whatever the collection held before. |
| Options.FormatterOptionsPage.SaveSettingsToStorage | IncludeToolbox/Options/FormatterOptionsPage.cs:132-154 | The page's collection becomes its old contents overwritten by every setting. |
| Options.FormatterOptionsPage.LoadSettingsFromStorage | IncludeToolbox/Options/FormatterOptionsPage.cs:156-188 | The page's settings become `LoadedSettings` of the stored collection, and the regexes keep holding no empty entry. |
| Options.SaveThenLoad | IncludeToolbox/Options/FormatterOptionsPage.cs:132-188 | Saving a page and loading it back leaves every setting as it was, whatever the store held before. |

## Left out

- File system:
  - `Utils.GetExactPathName` and `GetFileSystemCasing` are left out.
  - The directory of the document is the parameter `documentDir` of `FormatIncludes`.
  - The walk up the parent directories that looks for `FromParentDirWithFile` is left out. The
    directory it finds, if any, is the parameter `includeRootSearch`. The file system cannot be
    modelled.
- `TryResolveInclude` is the function `resolveInclude` of `Host.Host`. Its out-flag and result
  together are an `Option`. It depends on the file system.
- `System.Uri`: `new Uri`, `MakeRelativeUri` and `UnescapeDataString` are the functions of
  `Utils.UriSystem`. Only `MakeRelative`'s two fallbacks are modelled.
- `Regex.Match` and `RegexUtils.FixupRegexes` are given functions. `RegexUtils` is not part of
  this model.
- `IncludeLineInfo.ParseIncludes` is a given function, and `IncludeLineInfo.cs` is not part of this
  model. A record keeps the fields the formatter reads and writes. Two of its behaviours are
  assumed:
  - its raw line is its text before the include, then the include with its delimiters, then the
    text after it;
  - a line that is not an include is its `before` text alone.
- PathFormatter.InDocumentDirectory and PathFormatter.FileRelativeCandidate take the `StartsWith`
  prefix test on paths as ordinal. So do the include-root tests of `FormatPaths`, through
  `Strings.StartsWith`, and the up-step test takes `IndexOf` as ordinal, through `Strings.Contains`.
  On .NET Framework both calls are culture-sensitive and skip ignorable code points such as U+00AD.
  Paths are assumed to hold no such characters. For a path that does, the source can report a
  prefix that is not one, and `Remove` then cuts the candidate at another place. The promise
  `documentDir + c == abs` holds of the ordinal test only.
- Ordering: the culture-sensitive string comparer behind `OrderBy(x => x.IncludeContent)` is any
  rank `string -> real`. Strings of equal rank compare equal, so it is a total preorder, as
  `OrderBy` needs.
- IncludeFormatter.FormatIncludes: the line records are values, not shared objects.
  - Each pass writes its updated records back into the array.
  - Object identity, which the `groupStarts` set relies on, is the `id` field that a parse numbers
    from 0.
  - Aliasing between records is not modelled.
- PathFormatter.FormatPath requires a non-null path unless the mode is Absolute or the policy
  Never. In those cases the C# code throws on `null`. `FormatPaths` only passes resolved paths.
- PathFormatter.BestCandidateIsShortest and the other length bounds assume every proposal is
  shorter than `Int32.MaxValue`. That is the `??` fallback the scan compares with.
- Options.LoadedSettings requires the stored values to have the kinds Save writes, and the stored
  enumeration integers to name a member. Otherwise `GetInt32` or `GetBoolean` throws, or the cast
  yields a value outside the enumeration.
- Options.FormatterOptionsPage.LoadSettingsFromStorage: the values are read into a `Settings` value
  first and assigned together, and Save writes into a copy of the collection that is stored back
  at the end. No reader can tell this apart from the source's assignment one by one.
- `ThreadHelper`, `GetSettingsStore` and the Visual Studio options-page base class are left out.
  The store is the `SettingsStore` class passed in. This is editor plumbing.
- `Commands/FormatIncludes.cs` is left out: editor selection and text-buffer editing. It calls
  `FormatIncludes` with five arguments while the method takes four; this model keeps the four-parameter
  signature of IncludeFormatter.cs.
- `IncludeGraphViewModel.cs` is left out: UI state, asynchronous tasks and editor events.
- `IncludeType.cs` is left out: it only persists one boolean through the settings store.
- Integer widths: .NET `Int32` counts are unbounded integers. No count in the formatter can come
  near 2^31.
