/**
 * The passes of IncludeToolbox/Formatter/IncludeFormatter.cs that rewrite the line records in
 * place: `FormatPaths`, `FormatDelimiters` and `FormatSlashes`. The record list is an array whose
 * cells the passes overwrite.
 */
module RecordPasses {
  import opened Wrappers
  import Strings
  import Options
  import IncludeLines
  import PathFormatter
  import Host

  type Line = IncludeLines.IncludeLineInfo

  // ---- FormatPaths ----------------------------------------------------------------------

  /** The include resolved next to the document if possible, else along the include directories. */
  function ResolvedPath(host: Host.Host, line: Line, documentDir: string, includeDirectories: seq<string>): (abs: Option<string>)
    ensures host.resolveInclude(line, [documentDir]).Some? ==> abs == host.resolveInclude(line, [documentDir])
    ensures host.resolveInclude(line, [documentDir]).None? ==> abs == host.resolveInclude(line, includeDirectories)
  {
    var fileRelative := host.resolveInclude(line, [documentDir]);
    if fileRelative.Some? then fileRelative else host.resolveInclude(line, includeDirectories)
  }

  /**
   * The root the path is made relative to: the document's directory when the policy places the
   * include there, the include root otherwise. The path mode is not overridden with it.
   */
  function CurrentIncludeRoot(absolutePath: string, policy: Options.UseFileRelativePathMode, documentDir: string,
                              includeRootDirectory: Option<string>): Option<string>
  {
    if PathFormatter.InDocumentDirectory(absolutePath, policy, documentDir) then Some(documentDir)
    else includeRootDirectory
  }

  /** One record after `FormatPaths` (for a mode other than Unchanged). */
  function PathFormattedLine(host: Host.Host, line: Line, pathFormat: Options.PathMode,
                             policy: Options.UseFileRelativePathMode, includeDirectories: seq<string>,
                             documentDir: string, includeRootDirectory: Option<string>): (r: Line)
    // only the include content can change
    ensures r == line.(includeContent := r.includeContent)
    // and only when the include resolved, lies under the include root where the mode demands one,
    // and the path formatter produced a path
    ensures r != line ==>
              var abs := ResolvedPath(host, line, documentDir, includeDirectories);
              && abs.Some?
              && !(pathFormat == Options.ForceRelativeToParentDirWithFile && includeRootDirectory.Some?
                   && !Strings.StartsWith(abs.value, includeRootDirectory.value))
              && Some(r.includeContent)
                 == PathFormatter.FormattedPath(host.uris, abs, pathFormat, policy, includeDirectories, documentDir,
                                                CurrentIncludeRoot(abs.value, policy, documentDir, includeRootDirectory))
  {
    var abs := ResolvedPath(host, line, documentDir, includeDirectories);
    if abs.None? then line
    else if pathFormat == Options.ForceRelativeToParentDirWithFile && includeRootDirectory.Some?
            && !Strings.StartsWith(abs.value, includeRootDirectory.value) then
      line
    else
      var formatted := PathFormatter.FormattedPath(host.uris, abs, pathFormat, policy, includeDirectories, documentDir,
                                                   CurrentIncludeRoot(abs.value, policy, documentDir, includeRootDirectory));
      if formatted.Some? then line.(includeContent := formatted.value) else line
  }

  /** The records after `FormatPaths`. */
  function PathsFormatted(host: Host.Host, lines: seq<Line>, pathFormat: Options.PathMode,
                          policy: Options.UseFileRelativePathMode, includeDirectories: seq<string>,
                          documentDir: string, includeRootDirectory: Option<string>): (r: seq<Line>)
    ensures |r| == |lines|
    ensures pathFormat == Options.PathMode.Unchanged ==> r == lines
    ensures pathFormat != Options.PathMode.Unchanged ==>
              forall i :: 0 <= i < |r| ==>
                r[i] == PathFormattedLine(host, lines[i], pathFormat, policy, includeDirectories, documentDir, includeRootDirectory)
  {
    if pathFormat == Options.PathMode.Unchanged then lines
    else seq(|lines|, i requires 0 <= i < |lines| =>
               PathFormattedLine(host, lines[i], pathFormat, policy, includeDirectories, documentDir, includeRootDirectory))
  }

  /**
   * In ForceRelativeToParentDirWithFile mode with an include root, a record whose include resolves
   * outside the root keeps its content.
   */
  lemma OutsideIncludeRootIsSkipped(host: Host.Host, line: Line, policy: Options.UseFileRelativePathMode,
                                    includeDirectories: seq<string>, documentDir: string, includeRootDirectory: string)
    requires var abs := ResolvedPath(host, line, documentDir, includeDirectories);
             abs.Some? && !Strings.StartsWith(abs.value, includeRootDirectory)
    ensures PathFormattedLine(host, line, Options.ForceRelativeToParentDirWithFile, policy, includeDirectories,
                              documentDir, Some(includeRootDirectory)) == line
  {
  }

  /**
   * With a mode other than ForceRelativeToParentDirWithFile, lying in the document's directory
   * changes nothing: the overridden include root is passed on, the mode is not.
   */
  lemma DocumentDirectoryOverrideOnlyChangesRoot(host: Host.Host, line: Line, pathFormat: Options.PathMode,
                                                 policy: Options.UseFileRelativePathMode, includeDirectories: seq<string>,
                                                 documentDir: string, includeRootDirectory: Option<string>)
    requires pathFormat != Options.ForceRelativeToParentDirWithFile && pathFormat != Options.PathMode.Unchanged
    requires ResolvedPath(host, line, documentDir, includeDirectories).Some?
    ensures var abs := ResolvedPath(host, line, documentDir, includeDirectories);
            var formatted := PathFormatter.FormattedPath(host.uris, abs, pathFormat, policy, includeDirectories,
                                                         documentDir, includeRootDirectory);
            PathFormattedLine(host, line, pathFormat, policy, includeDirectories, documentDir, includeRootDirectory)
            == if formatted.Some? then line.(includeContent := formatted.value) else line
  {
    var abs := ResolvedPath(host, line, documentDir, includeDirectories);
    PathFormatter.IncludeRootOnlyForcesRelative(host.uris, abs, pathFormat, policy, includeDirectories, documentDir,
                                                CurrentIncludeRoot(abs.value, policy, documentDir, includeRootDirectory),
                                                includeRootDirectory);
  }

  /** `IncludeFormatter.FormatPaths`. */
  method FormatPaths(host: Host.Host, lines: array<Line>, pathFormat: Options.PathMode,
                     useFileRelativePathMode: Options.UseFileRelativePathMode, includeDirectories: seq<string>,
                     documentDir: string, includeRootDirectory: Option<string>)
    modifies lines
    ensures lines[..] == PathsFormatted(host, old(lines[..]), pathFormat, useFileRelativePathMode, includeDirectories,
                                        documentDir, includeRootDirectory)
  {
    if pathFormat == Options.PathMode.Unchanged {
      return;
    }
    for i := 0 to lines.Length
      invariant forall k :: 0 <= k < i ==>
                  lines[k] == PathFormattedLine(host, old(lines[k]), pathFormat, useFileRelativePathMode,
                                                includeDirectories, documentDir, includeRootDirectory)
      invariant forall k :: i <= k < lines.Length ==> lines[k] == old(lines[k])
    {
      lines[i] := FormatLinePath(host, lines[i], pathFormat, useFileRelativePathMode, includeDirectories, documentDir,
                                 includeRootDirectory);
    }
  }

  /** The body of the loop of `FormatPaths`, for one record. */
  method FormatLinePath(host: Host.Host, line: Line, pathFormat: Options.PathMode,
                        useFileRelativePathMode: Options.UseFileRelativePathMode, includeDirectories: seq<string>,
                        documentDir: string, includeRootDirectory: Option<string>)
    returns (r: Line)
    requires pathFormat != Options.PathMode.Unchanged
    ensures r == PathFormattedLine(host, line, pathFormat, useFileRelativePathMode, includeDirectories, documentDir,
                                   includeRootDirectory)
  {
    r := line;
    var absoluteIncludePath := ResolveIncludePath(host, line, documentDir, includeDirectories);
    if absoluteIncludePath.Some? {
      var abs := absoluteIncludePath.value;
      if pathFormat == Options.ForceRelativeToParentDirWithFile && includeRootDirectory.Some?
         && !Strings.StartsWith(abs, includeRootDirectory.value) {
        // files outside of the root directory tree are skipped
        return;
      }

      var currentIncludeRootDirectory := includeRootDirectory;
      if PathFormatter.InDocumentDirectory(abs, useFileRelativePathMode, documentDir) {
        currentIncludeRootDirectory := Some(documentDir);
      }

      var formatted := PathFormatter.FormatPath(host.uris, absoluteIncludePath, pathFormat, useFileRelativePathMode,
                                                includeDirectories, documentDir, currentIncludeRootDirectory);
      if formatted.Some? {
        r := line.(includeContent := formatted.value);
      }
    }
  }

  /** The block of `FormatPaths` that resolves the include, first next to the document, then along the include directories. */
  method ResolveIncludePath(host: Host.Host, line: Line, documentDir: string, includeDirectories: seq<string>)
    returns (absoluteIncludePath: Option<string>)
    ensures absoluteIncludePath == ResolvedPath(host, line, documentDir, includeDirectories)
  {
    absoluteIncludePath := None;
    var fileRelativeAbsoluteIncludePath := host.resolveInclude(line, [documentDir]);
    if fileRelativeAbsoluteIncludePath.Some? {
      absoluteIncludePath := fileRelativeAbsoluteIncludePath;
    } else {
      var includeDirAbsoluteIncludePath := host.resolveInclude(line, includeDirectories);
      if includeDirAbsoluteIncludePath.Some? {
        absoluteIncludePath := includeDirAbsoluteIncludePath;
      }
    }
  }

  // ---- FormatDelimiters -----------------------------------------------------------------

  /** The records after `FormatDelimiters`. */
  function DelimitersFormatted(lines: seq<Line>, mode: Options.DelimiterMode): (r: seq<Line>)
    ensures |r| == |lines|
    ensures forall i :: 0 <= i < |r| ==> r[i] == lines[i].(delimiter := r[i].delimiter)
    ensures mode == Options.DelimiterMode.Unchanged ==> r == lines
    ensures mode == Options.DelimiterMode.AngleBrackets ==>
              forall i :: 0 <= i < |r| ==> r[i].delimiter == IncludeLines.AngleBrackets
    ensures mode == Options.DelimiterMode.Quotes ==>
              forall i :: 0 <= i < |r| ==> r[i].delimiter == IncludeLines.Quotes
  {
    match mode
    case AngleBrackets => seq(|lines|, i requires 0 <= i < |lines| => lines[i].(delimiter := IncludeLines.AngleBrackets))
    case Quotes => seq(|lines|, i requires 0 <= i < |lines| => lines[i].(delimiter := IncludeLines.Quotes))
    case Unchanged => lines
  }

  /** Formatting the delimiters twice is formatting them once. */
  lemma DelimitersFormattedIdempotent(lines: seq<Line>, mode: Options.DelimiterMode)
    ensures DelimitersFormatted(DelimitersFormatted(lines, mode), mode) == DelimitersFormatted(lines, mode)
  {
  }

  /** `IncludeFormatter.FormatDelimiters`. */
  method FormatDelimiters(lines: array<Line>, delimiterMode: Options.DelimiterMode)
    modifies lines
    ensures lines[..] == DelimitersFormatted(old(lines[..]), delimiterMode)
  {
    match delimiterMode {
      case AngleBrackets =>
        for i := 0 to lines.Length
          invariant forall k :: 0 <= k < i ==> lines[k] == old(lines[k]).(delimiter := IncludeLines.AngleBrackets)
          invariant forall k :: i <= k < lines.Length ==> lines[k] == old(lines[k])
        {
          lines[i] := lines[i].(delimiter := IncludeLines.AngleBrackets);
        }
      case Quotes =>
        for i := 0 to lines.Length
          invariant forall k :: 0 <= k < i ==> lines[k] == old(lines[k]).(delimiter := IncludeLines.Quotes)
          invariant forall k :: i <= k < lines.Length ==> lines[k] == old(lines[k])
        {
          lines[i] := lines[i].(delimiter := IncludeLines.Quotes);
        }
      case Unchanged =>
    }
  }

  // ---- FormatSlashes --------------------------------------------------------------------

  /** The character a slash mode replaces and the one it puts in its place. */
  function SlashSwap(mode: Options.SlashMode): (swap: (char, char))
    requires mode != Options.SlashMode.Unchanged
    ensures swap.0 != swap.1
  {
    if mode == Options.ForwardSlash then ('\\', '/') else ('/', '\\')
  }

  /** The records after `FormatSlashes`. */
  function SlashesFormatted(lines: seq<Line>, mode: Options.SlashMode): (r: seq<Line>)
    ensures |r| == |lines|
    ensures forall i :: 0 <= i < |r| ==> r[i] == lines[i].(includeContent := r[i].includeContent)
    ensures forall i :: 0 <= i < |r| ==> |r[i].includeContent| == |lines[i].includeContent|
    ensures mode == Options.SlashMode.Unchanged ==> r == lines
    ensures mode == Options.ForwardSlash ==> forall i :: 0 <= i < |r| ==> '\\' !in r[i].includeContent
    ensures mode == Options.BackSlash ==> forall i :: 0 <= i < |r| ==> '/' !in r[i].includeContent
  {
    if mode == Options.SlashMode.Unchanged then lines
    else
      var (from, to) := SlashSwap(mode);
      seq(|lines|, i requires 0 <= i < |lines| =>
            lines[i].(includeContent := Strings.ReplaceChar(lines[i].includeContent, from, to)))
  }

  /** Formatting the slashes twice is formatting them once. */
  lemma SlashesFormattedIdempotent(lines: seq<Line>, mode: Options.SlashMode)
    ensures SlashesFormatted(SlashesFormatted(lines, mode), mode) == SlashesFormatted(lines, mode)
  {
    if mode != Options.SlashMode.Unchanged {
      var (from, to) := SlashSwap(mode);
      var once := SlashesFormatted(lines, mode);
      forall i | 0 <= i < |lines|
        ensures Strings.ReplaceChar(once[i].includeContent, from, to) == once[i].includeContent
      {
        Strings.ReplaceCharIdempotent(lines[i].includeContent, from, to);
      }
    }
  }

  /** `IncludeFormatter.FormatSlashes`. */
  method FormatSlashes(lines: array<Line>, slashMode: Options.SlashMode)
    modifies lines
    ensures lines[..] == SlashesFormatted(old(lines[..]), slashMode)
  {
    match slashMode {
      case ForwardSlash =>
        for i := 0 to lines.Length
          invariant forall k :: 0 <= k < i ==>
                      lines[k] == old(lines[k]).(includeContent := Strings.ReplaceChar(old(lines[k]).includeContent, '\\', '/'))
          invariant forall k :: i <= k < lines.Length ==> lines[k] == old(lines[k])
        {
          lines[i] := lines[i].(includeContent := Strings.ReplaceChar(lines[i].includeContent, '\\', '/'));
        }
      case BackSlash =>
        for i := 0 to lines.Length
          invariant forall k :: 0 <= k < i ==>
                      lines[k] == old(lines[k]).(includeContent := Strings.ReplaceChar(old(lines[k]).includeContent, '/', '\\'))
          invariant forall k :: i <= k < lines.Length ==> lines[k] == old(lines[k])
        {
          lines[i] := lines[i].(includeContent := Strings.ReplaceChar(lines[i].includeContent, '/', '\\'));
        }
      case Unchanged =>
    }
  }
}
