/**
 * The line records the formatter works on (`IncludeLineInfo`). Their parser is not part of this
 * model; a record is described by the fields the formatter reads and writes.
 */
module IncludeLines {
  import Strings

  datatype DelimiterType = AngleBrackets | Quotes

  /**
   * One line of the text. `id` stands for the identity of the C# object: the lines of one parse
   * carry distinct non-negative ids, and every record the formatter creates itself carries -1.
   * An active include line reads `before + open + includeContent + close + after`; any other line
   * is `before` alone.
   */
  datatype IncludeLineInfo = IncludeLineInfo(
    id: int,
    before: string,
    includeContent: string,
    delimiter: DelimiterType,
    after: string,
    containsActiveInclude: bool,
    containsPreProcessorDirective: bool,
    shouldBePreserved: bool)
  {
    /** `GetIncludeContentWithDelimiters()`. */
    function GetIncludeContentWithDelimiters(): (s: string)
      ensures |s| == |includeContent| + 2
      ensures s[1..|s| - 1] == includeContent
    {
      var (open, close) := Delimiters(delimiter);
      [open] + includeContent + [close]
    }

    /** The text of the line as it is written back. */
    function RawLine(): string
    {
      if containsActiveInclude then before + GetIncludeContentWithDelimiters() + after else before
    }
  }

  function Delimiters(t: DelimiterType): (pair: (char, char))
    ensures !Strings.IsWhiteSpaceChar(pair.0) && !Strings.IsWhiteSpaceChar(pair.1)
  {
    match t
    case AngleBrackets => ('<', '>')
    case Quotes => ('"', '"')
  }

  /** An include line always has visible text: its delimiters. */
  lemma ActiveLineNotBlank(line: IncludeLineInfo)
    requires line.containsActiveInclude
    ensures !Strings.IsNullOrWhiteSpace(line.RawLine())
  {
    var s := line.GetIncludeContentWithDelimiters();
    assert line.RawLine()[|line.before|] == s[0];
  }

  /** `new IncludeLineInfo()`: a line with no text that is neither an include nor a directive. */
  function EmptyLine(): (r: IncludeLineInfo)
    ensures r.RawLine() == "" && !r.containsActiveInclude && !r.containsPreProcessorDirective
  {
    IncludeLineInfo(-1, "", "", Quotes, "", false, false, false)
  }

  /** Gives the lines of one parse their identities: line `i` becomes object `i`. */
  function Numbered(lines: seq<IncludeLineInfo>): (r: seq<IncludeLineInfo>)
    ensures |r| == |lines|
    ensures forall i :: 0 <= i < |r| ==> r[i] == lines[i].(id := i)
  {
    seq(|lines|, i requires 0 <= i < |lines| => lines[i].(id := i))
  }

  /** Distinct objects: no two lines share an id, and none is -1. */
  predicate DistinctIds(lines: seq<IncludeLineInfo>)
  {
    && (forall i :: 0 <= i < |lines| ==> lines[i].id >= 0)
    && (forall i, j :: 0 <= i < j < |lines| ==> lines[i].id != lines[j].id)
  }

  lemma NumberedDistinct(lines: seq<IncludeLineInfo>)
    ensures DistinctIds(Numbered(lines))
  {
  }
}
