/**
 * `IncludeFormatter.FormatIncludes`: the text is parsed into line records, the include paths,
 * delimiters and slashes are formatted, the include batches are sorted, and the lines are joined
 * again with the text's dominant line separator.
 */
module IncludeFormatter {
  import opened Wrappers
  import Seqs
  import Strings
  import Paths
  import Utils
  import Options
  import IncludeLines
  import Host
  import RecordPasses
  import IncludeSorter
  import BatchSorter

  type Line = IncludeLines.IncludeLineInfo

  /**
   * The include root: the directory the ancestor walk found holding `FromParentDirWithFile`
   * (`includeRootSearch`), looked for only in ForceRelativeToParentDirWithFile mode with a file
   * name that is not blank.
   */
  function IncludeRoot(settings: Options.Settings, includeRootSearch: Option<string>): (root: Option<string>)
    ensures root.Some? ==> root == includeRootSearch
    ensures root.Some? <==> && settings.pathFormat == Options.ForceRelativeToParentDirWithFile
                            && !Strings.IsNullOrWhiteSpace(settings.fromParentDirWithFile)
                            && includeRootSearch.Some?
  {
    if settings.pathFormat == Options.ForceRelativeToParentDirWithFile
       && !Strings.IsNullOrWhiteSpace(settings.fromParentDirWithFile)
    then includeRootSearch
    else None
  }

  /** The records of the text, one object per line. */
  function ParsedLines(host: Host.Host, text: string, settings: Options.Settings): (lines: seq<Line>)
    ensures IncludeLines.DistinctIds(lines)
  {
    IncludeLines.NumberedDistinct(host.parseIncludes(text, settings.removeEmptyLines));
    IncludeLines.Numbered(host.parseIncludes(text, settings.removeEmptyLines))
  }

  /** The records after `FormatPaths`, `FormatDelimiters` and `FormatSlashes`. */
  function PassedLines(host: Host.Host, lines: seq<Line>, settings: Options.Settings, includeDirectories: seq<string>,
                       documentDir: string, includeRootDirectory: Option<string>): (r: seq<Line>)
    // the three passes rewrite the include content and the delimiter of each record, nothing else
    ensures |r| == |lines|
    ensures forall i :: 0 <= i < |r| ==>
              r[i] == lines[i].(includeContent := r[i].includeContent, delimiter := r[i].delimiter)
  {
    var paths := RecordPasses.PathsFormatted(host, lines, settings.pathFormat, settings.useFileRelativePath,
                                             includeDirectories, documentDir, includeRootDirectory);
    var delimiters := RecordPasses.DelimitersFormatted(paths, settings.delimiterFormatting);
    RecordPasses.SlashesFormatted(delimiters, settings.slashFormatting)
  }

  /** The records `FormatIncludes` writes back. */
  function FormattedLines(host: Host.Host, text: string, documentPath: string, documentDir: string,
                          includeRootSearch: Option<string>, includeDirectories: seq<string>,
                          settings: Options.Settings): seq<Line>
  {
    var regexes := IncludeSorter.PrecedenceRegexes(host, settings, Paths.GetFileNameWithoutExtension(documentPath));
    var passed := PassedLines(host, ParsedLines(host, text, settings), settings, includeDirectories, documentDir,
                              IncludeRoot(settings, includeRootSearch));
    IncludeSorter.SortedLines(IncludeSorter.BatchSorting(host, settings, regexes), passed)
  }

  /** `lines.Select(x => x.RawLine)`. */
  function RawLines(lines: seq<Line>): (r: seq<string>)
    ensures |r| == |lines|
    ensures forall i :: 0 <= i < |r| ==> r[i] == lines[i].RawLine()
  {
    seq(|lines|, i requires 0 <= i < |lines| => lines[i].RawLine())
  }

  /** The text `FormatIncludes` returns. */
  function FormattedText(host: Host.Host, text: string, documentPath: string, documentDir: string,
                         includeRootSearch: Option<string>, includeDirectories: seq<string>,
                         settings: Options.Settings): string
  {
    Strings.Join(RawLines(FormattedLines(host, text, documentPath, documentDir, includeRootSearch, includeDirectories,
                                         settings)),
                 Utils.GetDominantNewLineSeparator(text))
  }

  /**
   * `IncludeFormatter.FormatIncludes`. `documentDir` is `Utils.GetExactPathName(Path.GetDirectoryName(documentPath))`
   * and `includeRootSearch` the result of the walk up from it; both come from the file system.
   */
  method FormatIncludes(host: Host.Host, text: string, documentPath: string, documentDir: string,
                        includeRootSearch: Option<string>, includeDirectories: seq<string>, settings: Options.Settings)
    returns (formatted: string)
    ensures formatted == FormattedText(host, text, documentPath, documentDir, includeRootSearch, includeDirectories,
                                       settings)
  {
    var documentName := Paths.GetFileNameWithoutExtension(documentPath);
    var includeRootDirectory: Option<string> := None;
    if settings.pathFormat == Options.ForceRelativeToParentDirWithFile
       && !Strings.IsNullOrWhiteSpace(settings.fromParentDirWithFile) {
      includeRootDirectory := includeRootSearch;
    }

    var newLineChars := Utils.GetDominantNewLineSeparator(text);

    var parsed := ParsedLines(host, text, settings);
    var lines := new Line[|parsed|](i requires 0 <= i < |parsed| => parsed[i]);
    assert lines[..] == parsed;

    // Format.
    RecordPasses.FormatPaths(host, lines, settings.pathFormat, settings.useFileRelativePath, includeDirectories,
                             documentDir, includeRootDirectory);
    RecordPasses.FormatDelimiters(lines, settings.delimiterFormatting);
    RecordPasses.FormatSlashes(lines, settings.slashFormatting);
    assert lines[..] == PassedLines(host, parsed, settings, includeDirectories, documentDir, includeRootDirectory);

    // Sorting. Ignores non-include lines.
    var sorted := IncludeSorter.SortIncludes(host, lines[..], settings, documentName);

    // Combine again.
    formatted := Strings.Join(RawLines(sorted), newLineChars);
  }

  /** The passes keep which records are includes. */
  lemma PassesKeepIncludeCount(host: Host.Host, lines: seq<Line>, settings: Options.Settings,
                               includeDirectories: seq<string>, documentDir: string, includeRootDirectory: Option<string>)
    ensures |Seqs.Filter(PassedLines(host, lines, settings, includeDirectories, documentDir, includeRootDirectory),
                         BatchSorter.IsActive)|
            == |Seqs.Filter(lines, BatchSorter.IsActive)|
  {
    var passed := PassedLines(host, lines, settings, includeDirectories, documentDir, includeRootDirectory);
    forall i | 0 <= i < |passed|
      ensures BatchSorter.IsActive(passed[i]) == BatchSorter.IsActive(lines[i])
    {
    }
    Seqs.FilterSameCount(passed, BatchSorter.IsActive, lines, BatchSorter.IsActive);
  }

  /**
   * Formatting writes at most as many include lines as the text has, and exactly as many when
   * duplicates are kept.
   */
  lemma FormattingKeepsIncludes(host: Host.Host, text: string, documentPath: string, documentDir: string,
                                includeRootSearch: Option<string>, includeDirectories: seq<string>,
                                settings: Options.Settings)
    ensures var written := FormattedLines(host, text, documentPath, documentDir, includeRootSearch, includeDirectories,
                                          settings);
            var given := host.parseIncludes(text, settings.removeEmptyLines);
            && |Seqs.Filter(written, BatchSorter.IsActive)| <= |Seqs.Filter(given, BatchSorter.IsActive)|
            && (!settings.removeDuplicates ==>
                  |Seqs.Filter(written, BatchSorter.IsActive)| == |Seqs.Filter(given, BatchSorter.IsActive)|)
  {
    var given := host.parseIncludes(text, settings.removeEmptyLines);
    var parsed := ParsedLines(host, text, settings);
    var regexes := IncludeSorter.PrecedenceRegexes(host, settings, Paths.GetFileNameWithoutExtension(documentPath));
    var root := IncludeRoot(settings, includeRootSearch);
    var passed := PassedLines(host, parsed, settings, includeDirectories, documentDir, root);
    var written := IncludeSorter.SortedLines(IncludeSorter.BatchSorting(host, settings, regexes), passed);
    IncludeSorter.SortKeepsIncludes(host, settings, regexes, passed);
    Seqs.MultisetSubsetSize(multiset(Seqs.Filter(written, BatchSorter.IsActive)),
                            multiset(Seqs.Filter(passed, BatchSorter.IsActive)));
    PassesKeepIncludeCount(host, parsed, settings, includeDirectories, documentDir, root);
    Seqs.FilterSameCount(parsed, BatchSorter.IsActive, given, BatchSorter.IsActive);
  }

  /** A text without includes comes back line for line, joined with its dominant separator. */
  lemma NoIncludesOnlyRejoins(host: Host.Host, text: string, documentPath: string, documentDir: string,
                              includeRootSearch: Option<string>, includeDirectories: seq<string>,
                              settings: Options.Settings)
    requires var given := host.parseIncludes(text, settings.removeEmptyLines);
             forall i :: 0 <= i < |given| ==> !given[i].containsActiveInclude
    ensures FormattedText(host, text, documentPath, documentDir, includeRootSearch, includeDirectories, settings)
            == Strings.Join(RawLines(host.parseIncludes(text, settings.removeEmptyLines)),
                            Utils.GetDominantNewLineSeparator(text))
  {
    var given := host.parseIncludes(text, settings.removeEmptyLines);
    var parsed := ParsedLines(host, text, settings);
    var regexes := IncludeSorter.PrecedenceRegexes(host, settings, Paths.GetFileNameWithoutExtension(documentPath));
    var passed := PassedLines(host, parsed, settings, includeDirectories, documentDir,
                              IncludeRoot(settings, includeRootSearch));
    forall x | x in passed
      ensures !x.containsActiveInclude
    {
      var i :| 0 <= i < |passed| && passed[i] == x;
      assert parsed[i] == given[i].(id := i);
    }
    IncludeSorter.NoIncludesNoChange(IncludeSorter.BatchSorting(host, settings, regexes), passed, 0);
    assert passed[0..] == passed;
    assert RawLines(passed) == RawLines(given);
  }
}
