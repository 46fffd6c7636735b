/** IncludeToolbox/Utils.cs: relative paths, newline detection and `Prepend`. */
module Utils {
  import opened Wrappers

  /** What the model keeps of a parsed `System.Uri`: its scheme and what it locates. */
  datatype Uri = Uri(scheme: string, location: string)

  /**
   * `System.Uri` as the formatter uses it: `parse` is `new Uri(s)` (`None` where it throws
   * `UriFormatException`), `relative` is `Uri.UnescapeDataString(root.MakeRelativeUri(target).ToString())`.
   */
  datatype UriSystem = UriSystem(parse: string -> Option<Uri>, relative: (Uri, Uri) -> string)

  /** `Utils.MakeRelative`: the target relative to the root, with its two fallbacks. */
  function MakeRelative(uris: UriSystem, absoluteRoot: string, absoluteTarget: string): (r: string)
    ensures uris.parse(absoluteRoot).None? || uris.parse(absoluteTarget).None? ==> r == absoluteTarget
    ensures uris.parse(absoluteRoot).Some? && uris.parse(absoluteTarget).Some? ==>
              var rootUri, targetUri := uris.parse(absoluteRoot).value, uris.parse(absoluteTarget).value;
              r == if rootUri.scheme != targetUri.scheme then "" else uris.relative(rootUri, targetUri)
  {
    match (uris.parse(absoluteRoot), uris.parse(absoluteTarget))
    case (Some(rootUri), Some(targetUri)) =>
      if rootUri.scheme != targetUri.scheme then "" else uris.relative(rootUri, targetUri)
    case _ => absoluteTarget
  }

  const LF: string := "\n"
  const CRLF: string := "\r\n"

  /**
   * `Utils.GetDominantNewLineSeparator`: every `\r` is taken to start a CRLF line end and the
   * remaining `\n` to be LF line ends; CRLF wins only when it is strictly more frequent.
   */
  function GetDominantNewLineSeparator(text: string): (separator: string)
    ensures separator == LF || separator == CRLF
    ensures separator == CRLF <==> multiset(text)['\n'] as int - multiset(text)['\r'] < multiset(text)['\r']
    ensures '\r' !in text ==> separator == LF
  {
    var numLineEndingCRLF: int := multiset(text)['\r'];
    var numLineEndingLF: int := multiset(text)['\n'] as int - numLineEndingCRLF;
    if numLineEndingLF < numLineEndingCRLF then CRLF else LF
  }

  /** Lines each ended by CRLF (where `crlf` says so) or by LF. */
  function Terminated(lines: seq<string>, crlf: seq<bool>): string
    requires |lines| == |crlf|
    decreases |lines|
  {
    if lines == [] then ""
    else lines[0] + (if crlf[0] then CRLF else LF) + Terminated(lines[1..], crlf[1..])
  }

  function CountTrue(bs: seq<bool>): nat
    decreases |bs|
  {
    if bs == [] then 0 else (if bs[0] then 1 else 0) + CountTrue(bs[1..])
  }

  predicate NoLineBreaks(lines: seq<string>)
  {
    forall i :: 0 <= i < |lines| ==> '\r' !in lines[i] && '\n' !in lines[i]
  }

  lemma {:induction false} TerminatedCounts(lines: seq<string>, crlf: seq<bool>)
    requires |lines| == |crlf| && NoLineBreaks(lines)
    ensures multiset(Terminated(lines, crlf))['\r'] == CountTrue(crlf)
    ensures multiset(Terminated(lines, crlf))['\n'] == |crlf|
    decreases |lines|
  {
    if lines != [] {
      TerminatedCounts(lines[1..], crlf[1..]);
      var t := Terminated(lines, crlf);
      var ending := if crlf[0] then CRLF else LF;
      assert t == lines[0] + ending + Terminated(lines[1..], crlf[1..]);
      assert multiset(t) == multiset(lines[0]) + multiset(ending) + multiset(Terminated(lines[1..], crlf[1..]));
      assert multiset(lines[0])['\r'] == 0 && multiset(lines[0])['\n'] == 0;
    }
  }

  /**
   * On text whose line ends are all LF or CRLF, the separator chosen is the line end used by
   * strictly more lines, and LF on a tie.
   */
  lemma DominantSeparatorIsMajority(lines: seq<string>, crlf: seq<bool>)
    requires |lines| == |crlf| && NoLineBreaks(lines)
    ensures GetDominantNewLineSeparator(Terminated(lines, crlf)) == CRLF <==> |crlf| - CountTrue(crlf) < CountTrue(crlf)
    ensures GetDominantNewLineSeparator(Terminated(lines, crlf)) == LF <==> CountTrue(crlf) <= |crlf| - CountTrue(crlf)
  {
    TerminatedCounts(lines, crlf);
  }

  /** `Utils.Prepend`: `value` followed by the elements of `s`, in order. */
  function Prepend<T>(s: seq<T>, value: T): (r: seq<T>)
    ensures |r| == |s| + 1 && r[0] == value
    ensures forall i :: 0 <= i < |s| ==> r[i + 1] == s[i]
  {
    [value] + s
  }
}
