/**
 * What the formatter takes from its environment: `System.Uri`, the include resolution on the
 * file system, regular expressions, the culture-sensitive string order, `RegexUtils.FixupRegexes`
 * and the line parser. Each is a given function; the model assumes nothing else about it.
 */
module Host {
  import opened Wrappers
  import Utils
  import IncludeLines

  datatype Host = Host(
    /** `System.Uri`, for `Utils.MakeRelative`. */
    uris: Utils.UriSystem,
    /**
     * `line.TryResolveInclude(directories, out resolved)`: the absolute path of the first file the
     * include names under one of the directories, `None` where `resolved` comes back false.
     */
    resolveInclude: (IncludeLines.IncludeLineInfo, seq<string>) -> Option<string>,
    /** `Regex.Match(input, pattern).Success`. */
    regexMatch: (string, string) -> bool,
    /**
     * The default string comparer behind `OrderBy(x => x.IncludeContent)`, as a rank: `a` sorts
     * before `b` when its rank is smaller, and strings of equal rank compare equal.
     */
    rank: string -> real,
    /** `RegexUtils.FixupRegexes(regexes, documentName)`. */
    fixupRegexes: (seq<string>, string) -> seq<string>,
    /** `IncludeLineInfo.ParseIncludes(text, removeEmptyLines ? RemoveEmptyLines : None)`. */
    parseIncludes: (string, bool) -> seq<IncludeLines.IncludeLineInfo>)
}
