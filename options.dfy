/** IncludeToolbox/Options/FormatterOptionsPage.cs: the formatter's settings and their persistence. */
module Options {
  import Seqs
  import Strings
  import opened Wrappers

  datatype PathMode = Unchanged | Shortest | Shortest_AvoidUpSteps | Absolute | ForceRelativeToParentDirWithFile

  datatype UseFileRelativePathMode = Always | Never | OnlyInSameDirectory | OnlyInSameOrSubDirectory

  datatype DelimiterMode = Unchanged | AngleBrackets | Quotes

  datatype SlashMode = Unchanged | ForwardSlash | BackSlash

  datatype TypeSorting = None | AngleBracketsFirst | QuotedFirst

  /** The value of every setting of the page at one moment; the formatter reads nothing else. */
  datatype Settings = Settings(
    pathFormat: PathMode,
    fromParentDirWithFile: string,
    useFileRelativePath: UseFileRelativePathMode,
    delimiterFormatting: DelimiterMode,
    slashFormatting: SlashMode,
    removeEmptyLines: bool,
    regexIncludeDelimiter: bool,
    blankAfterRegexGroupMatch: bool,
    precedenceRegexes: seq<string>,
    sortByType: TypeSorting,
    removeDuplicates: bool)

  /**
   * The initial precedence regexes; `currentFileNameKey` stands for `RegexUtils.CurrentFileNameKey`,
   * the placeholder later replaced by the document's name.
   */
  function DefaultPrecedenceRegexes(currentFileNameKey: string): seq<string>
  {
    [ "(?i)stdafx\\.h(?-i)",
      "\"(?i)" + currentFileNameKey + "\\.(h|hpp|hxx)(?-i)\"",
      "\"[^\\/]+\"",
      "\"[^.\\/]+(\\\\|/)",
      "<[^.\\/]+(\\\\|/)",
      "<[^\\/]+\\.[^.\\/]+>",
      "<[^.\\/]+>" ]
  }

  /** The property initialisers of the page. */
  function DefaultSettings(currentFileNameKey: string): (s: Settings)
    ensures s.pathFormat == ForceRelativeToParentDirWithFile && s.fromParentDirWithFile == "build.root"
    ensures s.useFileRelativePath == OnlyInSameOrSubDirectory
    ensures s.delimiterFormatting == DelimiterMode.Unchanged && s.slashFormatting == ForwardSlash
    ensures s.removeEmptyLines && s.regexIncludeDelimiter && s.blankAfterRegexGroupMatch
    ensures s.sortByType == TypeSorting.None && s.removeDuplicates
    ensures |s.precedenceRegexes| == 7 && NoEmptyEntries(s.precedenceRegexes)
  {
    Settings(ForceRelativeToParentDirWithFile, "build.root", OnlyInSameOrSubDirectory,
             DelimiterMode.Unchanged, ForwardSlash, true, true, true,
             DefaultPrecedenceRegexes(currentFileNameKey), TypeSorting.None, true)
  }

  predicate NoEmptyEntries(xs: seq<string>)
  {
    forall i :: 0 <= i < |xs| ==> xs[i] != ""
  }

  /** `value.Where(x => x.Length > 0)`: exactly the empty entries go, the rest keep their order. */
  function NonEmptyEntries(xs: seq<string>): (r: seq<string>)
    ensures NoEmptyEntries(r)
    ensures multiset(r) == multiset(xs)["" := 0]
    ensures Seqs.IsSubsequence(r, xs)
    decreases |xs|
  {
    if xs == [] then []
    else
      assert xs == [xs[0]] + xs[1..];
      var rest := NonEmptyEntries(xs[1..]);
      if xs[0] == "" then
        Seqs.SubsequenceOfTail(rest, xs);
        rest
      else
        assert ([xs[0]] + rest)[1..] == rest;
        [xs[0]] + rest
  }

  lemma {:induction false} NonEmptyEntriesKeepsNonEmpty(xs: seq<string>)
    requires NoEmptyEntries(xs)
    ensures NonEmptyEntries(xs) == xs
    decreases |xs|
  {
    if xs != [] {
      NonEmptyEntriesKeepsNonEmpty(xs[1..]);
    }
  }

  /** `value.Split(new[] { "\n" }, StringSplitOptions.RemoveEmptyEntries)`. */
  function SplitRemoveEmptyEntries(value: string): seq<string>
  {
    NonEmptyEntries(Strings.Split(value, '\n'))
  }

  /** The `PrecedenceRegexes` value written by Save. */
  function JoinedRegexes(regexes: seq<string>): string
  {
    Strings.Join(regexes, "\n")
  }

  /** Joining with `"\n"` and splitting again recovers the non-empty entries, when none holds a line feed. */
  lemma JoinSplitRoundTrip(regexes: seq<string>)
    requires forall i :: 0 <= i < |regexes| ==> '\n' !in regexes[i]
    ensures SplitRemoveEmptyEntries(JoinedRegexes(regexes)) == NonEmptyEntries(regexes)
  {
    if regexes == [] {
      assert Strings.Split("", '\n') == [""];
    } else {
      Strings.SplitJoin(regexes, '\n');
    }
  }

  // ---- the settings store --------------------------------------------------------------

  const CollectionName: string := "IncludeFormatter"

  /** The name under which each setting is stored (`nameof` of its property). */
  datatype Key =
    | PathFormatKey | FromParentDirWithFileKey | UseFileRelativePathKey
    | DelimiterFormattingKey | SlashFormattingKey | RemoveEmptyLinesKey
    | RegexIncludeDelimiterKey | BlankAfterRegexGroupMatchKey | PrecedenceRegexesKey
    | SortByTypeKey | RemoveDuplicatesKey
  {
    function Name(): string
    {
      match this
      case PathFormatKey => "PathFormat"
      case FromParentDirWithFileKey => "FromParentDirWithFile"
      case UseFileRelativePathKey => "UseFileRelativePath"
      case DelimiterFormattingKey => "DelimiterFormatting"
      case SlashFormattingKey => "SlashFormatting"
      case RemoveEmptyLinesKey => "RemoveEmptyLines"
      case RegexIncludeDelimiterKey => "RegexIncludeDelimiter"
      case BlankAfterRegexGroupMatchKey => "BlankAfterRegexGroupMatch"
      case PrecedenceRegexesKey => "PrecedenceRegexes"
      case SortByTypeKey => "SortByType"
      case RemoveDuplicatesKey => "RemoveDuplicates"
    }
  }

  /** A value of the Visual Studio settings store. */
  datatype StoreValue = Int32Value(i: int) | StringValue(s: string) | BooleanValue(b: bool)

  type Properties = map<Key, StoreValue>

  /** The `(int)` casts Save applies to the enums: each constant's position in its declaration. */
  function PathModeToInt(m: PathMode): (i: int)
    ensures 0 <= i < 5
  {
    match m
    case Unchanged => 0
    case Shortest => 1
    case Shortest_AvoidUpSteps => 2
    case Absolute => 3
    case ForceRelativeToParentDirWithFile => 4
  }

  function PathModeFromInt(i: int): (m: PathMode)
    requires 0 <= i < 5
    ensures PathModeToInt(m) == i
  {
    if i == 0 then PathMode.Unchanged else if i == 1 then Shortest else if i == 2 then Shortest_AvoidUpSteps
    else if i == 3 then Absolute else ForceRelativeToParentDirWithFile
  }

  function UseFileRelativePathModeToInt(m: UseFileRelativePathMode): (i: int)
    ensures 0 <= i < 4
  {
    match m
    case Always => 0
    case Never => 1
    case OnlyInSameDirectory => 2
    case OnlyInSameOrSubDirectory => 3
  }

  function UseFileRelativePathModeFromInt(i: int): (m: UseFileRelativePathMode)
    requires 0 <= i < 4
    ensures UseFileRelativePathModeToInt(m) == i
  {
    if i == 0 then Always else if i == 1 then Never else if i == 2 then OnlyInSameDirectory
    else OnlyInSameOrSubDirectory
  }

  function DelimiterModeToInt(m: DelimiterMode): (i: int)
    ensures 0 <= i < 3
  {
    match m
    case Unchanged => 0
    case AngleBrackets => 1
    case Quotes => 2
  }

  function DelimiterModeFromInt(i: int): (m: DelimiterMode)
    requires 0 <= i < 3
    ensures DelimiterModeToInt(m) == i
  {
    if i == 0 then DelimiterMode.Unchanged else if i == 1 then AngleBrackets else Quotes
  }

  function SlashModeToInt(m: SlashMode): (i: int)
    ensures 0 <= i < 3
  {
    match m
    case Unchanged => 0
    case ForwardSlash => 1
    case BackSlash => 2
  }

  function SlashModeFromInt(i: int): (m: SlashMode)
    requires 0 <= i < 3
    ensures SlashModeToInt(m) == i
  {
    if i == 0 then SlashMode.Unchanged else if i == 1 then ForwardSlash else BackSlash
  }

  function TypeSortingToInt(t: TypeSorting): (i: int)
    ensures 0 <= i < 3
  {
    match t
    case None => 0
    case AngleBracketsFirst => 1
    case QuotedFirst => 2
  }

  function TypeSortingFromInt(i: int): (t: TypeSorting)
    requires 0 <= i < 3
    ensures TypeSortingToInt(t) == i
  {
    if i == 0 then TypeSorting.None else if i == 1 then AngleBracketsFirst else QuotedFirst
  }

  /** What Save writes for one setting. */
  function SavedValue(s: Settings, key: Key): StoreValue
  {
    match key
    case PathFormatKey => Int32Value(PathModeToInt(s.pathFormat))
    case FromParentDirWithFileKey => StringValue(s.fromParentDirWithFile)
    case UseFileRelativePathKey => Int32Value(UseFileRelativePathModeToInt(s.useFileRelativePath))
    case DelimiterFormattingKey => Int32Value(DelimiterModeToInt(s.delimiterFormatting))
    case SlashFormattingKey => Int32Value(SlashModeToInt(s.slashFormatting))
    case RemoveEmptyLinesKey => BooleanValue(s.removeEmptyLines)
    case RegexIncludeDelimiterKey => BooleanValue(s.regexIncludeDelimiter)
    case BlankAfterRegexGroupMatchKey => BooleanValue(s.blankAfterRegexGroupMatch)
    case PrecedenceRegexesKey => StringValue(JoinedRegexes(s.precedenceRegexes))
    case SortByTypeKey => Int32Value(TypeSortingToInt(s.sortByType))
    case RemoveDuplicatesKey => BooleanValue(s.removeDuplicates)
  }

  /** What Save writes into the collection: every setting. */
  function SavedProperties(s: Settings): Properties
  {
    map key: Key | true :: SavedValue(s, key)
  }

  predicate HasInt32Below(props: Properties, key: Key, bound: int)
  {
    key in props ==> props[key].Int32Value? && 0 <= props[key].i < bound
  }

  predicate HasString(props: Properties, key: Key)
  {
    key in props ==> props[key].StringValue?
  }

  predicate HasBoolean(props: Properties, key: Key)
  {
    key in props ==> props[key].BooleanValue?
  }

  /** Every setting present in the collection has the kind Save writes, and every enum a named value. */
  predicate WellTyped(props: Properties)
  {
    && HasInt32Below(props, PathFormatKey, 5)
    && HasString(props, FromParentDirWithFileKey)
    && HasInt32Below(props, UseFileRelativePathKey, 4)
    && HasInt32Below(props, DelimiterFormattingKey, 3)
    && HasInt32Below(props, SlashFormattingKey, 3)
    && HasBoolean(props, RemoveEmptyLinesKey)
    && HasBoolean(props, RegexIncludeDelimiterKey)
    && HasBoolean(props, BlankAfterRegexGroupMatchKey)
    && HasString(props, PrecedenceRegexesKey)
    && HasInt32Below(props, SortByTypeKey, 3)
    && HasBoolean(props, RemoveDuplicatesKey)
  }

  /** The value Load gives one setting: the stored one when the collection has it, the current one otherwise. */
  function LoadedSettings(s: Settings, props: Properties): (r: Settings)
    requires WellTyped(props)
    ensures props == map[] ==> r == s
  {
    Settings(
      if PathFormatKey in props then PathModeFromInt(props[PathFormatKey].i) else s.pathFormat,
      if FromParentDirWithFileKey in props then props[FromParentDirWithFileKey].s else s.fromParentDirWithFile,
      if UseFileRelativePathKey in props then UseFileRelativePathModeFromInt(props[UseFileRelativePathKey].i)
      else s.useFileRelativePath,
      if DelimiterFormattingKey in props then DelimiterModeFromInt(props[DelimiterFormattingKey].i)
      else s.delimiterFormatting,
      if SlashFormattingKey in props then SlashModeFromInt(props[SlashFormattingKey].i) else s.slashFormatting,
      if RemoveEmptyLinesKey in props then props[RemoveEmptyLinesKey].b else s.removeEmptyLines,
      if RegexIncludeDelimiterKey in props then props[RegexIncludeDelimiterKey].b else s.regexIncludeDelimiter,
      if BlankAfterRegexGroupMatchKey in props then props[BlankAfterRegexGroupMatchKey].b
      else s.blankAfterRegexGroupMatch,
      // the value read goes through the property setter, which drops empty entries once more
      if PrecedenceRegexesKey in props then NonEmptyEntries(SplitRemoveEmptyEntries(props[PrecedenceRegexesKey].s))
      else s.precedenceRegexes,
      if SortByTypeKey in props then TypeSortingFromInt(props[SortByTypeKey].i) else s.sortByType,
      if RemoveDuplicatesKey in props then props[RemoveDuplicatesKey].b else s.removeDuplicates)
  }

  /** What Save writes into an existing collection: it overwrites the settings and keeps other names. */
  method WriteSettings(collection: Properties, s: Settings) returns (written: Properties)
    ensures written == collection + SavedProperties(s)
  {
    written := collection;
    written := written[PathFormatKey := Int32Value(PathModeToInt(s.pathFormat))];
    written := written[FromParentDirWithFileKey := StringValue(s.fromParentDirWithFile)];
    written := written[UseFileRelativePathKey := Int32Value(UseFileRelativePathModeToInt(s.useFileRelativePath))];
    written := written[DelimiterFormattingKey := Int32Value(DelimiterModeToInt(s.delimiterFormatting))];
    written := written[SlashFormattingKey := Int32Value(SlashModeToInt(s.slashFormatting))];
    written := written[RemoveEmptyLinesKey := BooleanValue(s.removeEmptyLines)];
    written := written[RegexIncludeDelimiterKey := BooleanValue(s.regexIncludeDelimiter)];
    written := written[BlankAfterRegexGroupMatchKey := BooleanValue(s.blankAfterRegexGroupMatch)];
    written := written[PrecedenceRegexesKey := StringValue(JoinedRegexes(s.precedenceRegexes))];
    written := written[SortByTypeKey := Int32Value(TypeSortingToInt(s.sortByType))];
    written := written[RemoveDuplicatesKey := BooleanValue(s.removeDuplicates)];
    assert written == Written(collection, s);
    forall key: Key
      ensures key in written && written[key] == SavedValue(s, key)
    {
      SavedValueWritten(collection, s, key);
    }
  }

  /** The store after the eleven writes of Save, in their order. */
  function Written(collection: Properties, s: Settings): Properties
  {
    collection[PathFormatKey := Int32Value(PathModeToInt(s.pathFormat))]
              [FromParentDirWithFileKey := StringValue(s.fromParentDirWithFile)]
              [UseFileRelativePathKey := Int32Value(UseFileRelativePathModeToInt(s.useFileRelativePath))]
              [DelimiterFormattingKey := Int32Value(DelimiterModeToInt(s.delimiterFormatting))]
              [SlashFormattingKey := Int32Value(SlashModeToInt(s.slashFormatting))]
              [RemoveEmptyLinesKey := BooleanValue(s.removeEmptyLines)]
              [RegexIncludeDelimiterKey := BooleanValue(s.regexIncludeDelimiter)]
              [BlankAfterRegexGroupMatchKey := BooleanValue(s.blankAfterRegexGroupMatch)]
              [PrecedenceRegexesKey := StringValue(JoinedRegexes(s.precedenceRegexes))]
              [SortByTypeKey := Int32Value(TypeSortingToInt(s.sortByType))]
              [RemoveDuplicatesKey := BooleanValue(s.removeDuplicates)]
  }

  lemma SavedValueWritten(collection: Properties, s: Settings, key: Key)
    ensures key in Written(collection, s) && Written(collection, s)[key] == SavedValue(s, key)
  {
  }

  /** What Load reads, in its order: each setting present in the collection replaces the current value. */
  method ReadSettings(current: Settings, props: Properties) returns (loaded: Settings)
    requires WellTyped(props)
    ensures loaded == LoadedSettings(current, props)
  {
    var pathFormat := current.pathFormat;
    if PathFormatKey in props {
      pathFormat := PathModeFromInt(props[PathFormatKey].i);
    }
    var fromParentDirWithFile := current.fromParentDirWithFile;
    if FromParentDirWithFileKey in props {
      fromParentDirWithFile := props[FromParentDirWithFileKey].s;
    }
    var useFileRelativePath := current.useFileRelativePath;
    if UseFileRelativePathKey in props {
      useFileRelativePath := UseFileRelativePathModeFromInt(props[UseFileRelativePathKey].i);
    }
    var delimiterFormatting := current.delimiterFormatting;
    if DelimiterFormattingKey in props {
      delimiterFormatting := DelimiterModeFromInt(props[DelimiterFormattingKey].i);
    }
    var slashFormatting := current.slashFormatting;
    if SlashFormattingKey in props {
      slashFormatting := SlashModeFromInt(props[SlashFormattingKey].i);
    }
    var removeEmptyLines := current.removeEmptyLines;
    if RemoveEmptyLinesKey in props {
      removeEmptyLines := props[RemoveEmptyLinesKey].b;
    }
    var regexIncludeDelimiter := current.regexIncludeDelimiter;
    if RegexIncludeDelimiterKey in props {
      regexIncludeDelimiter := props[RegexIncludeDelimiterKey].b;
    }
    var blankAfterRegexGroupMatch := current.blankAfterRegexGroupMatch;
    if BlankAfterRegexGroupMatchKey in props {
      blankAfterRegexGroupMatch := props[BlankAfterRegexGroupMatchKey].b;
    }
    var precedenceRegexes := current.precedenceRegexes;
    if PrecedenceRegexesKey in props {
      precedenceRegexes := NonEmptyEntries(SplitRemoveEmptyEntries(props[PrecedenceRegexesKey].s));
    }
    var sortByType := current.sortByType;
    if SortByTypeKey in props {
      sortByType := TypeSortingFromInt(props[SortByTypeKey].i);
    }
    var removeDuplicates := current.removeDuplicates;
    if RemoveDuplicatesKey in props {
      removeDuplicates := props[RemoveDuplicatesKey].b;
    }
    loaded := Settings(pathFormat, fromParentDirWithFile, useFileRelativePath, delimiterFormatting,
                       slashFormatting, removeEmptyLines, regexIncludeDelimiter, blankAfterRegexGroupMatch,
                       precedenceRegexes, sortByType, removeDuplicates);
  }

  /** Load never brings in an empty precedence regex. */
  lemma LoadKeepsValid(s: Settings, props: Properties)
    requires WellTyped(props)
    ensures NoEmptyEntries(s.precedenceRegexes) ==> NoEmptyEntries(LoadedSettings(s, props).precedenceRegexes)
  {
  }

  /** Whatever the collection held before, Save leaves it well typed. */
  lemma SavedPropertiesWellTyped(base: Properties, s: Settings)
    ensures WellTyped(base + SavedProperties(s))
  {
    SavedAt(base, s, PathFormatKey);
    SavedAt(base, s, FromParentDirWithFileKey);
    SavedAt(base, s, UseFileRelativePathKey);
    SavedAt(base, s, DelimiterFormattingKey);
    SavedAt(base, s, SlashFormattingKey);
    SavedAt(base, s, RemoveEmptyLinesKey);
    SavedAt(base, s, RegexIncludeDelimiterKey);
    SavedAt(base, s, BlankAfterRegexGroupMatchKey);
    SavedAt(base, s, PrecedenceRegexesKey);
    SavedAt(base, s, SortByTypeKey);
    SavedAt(base, s, RemoveDuplicatesKey);
  }

  /**
   * Save then Load restores every setting, whatever the loading page held and whatever else the
   * collection holds, when no precedence regex contains a line feed (the setter already keeps
   * empty entries out).
   */
  lemma SaveLoadRoundTrip(current: Settings, base: Properties, s: Settings)
    requires NoEmptyEntries(s.precedenceRegexes)
    requires forall i :: 0 <= i < |s.precedenceRegexes| ==> '\n' !in s.precedenceRegexes[i]
    ensures WellTyped(base + SavedProperties(s))
    ensures LoadedSettings(current, base + SavedProperties(s)) == s
  {
    var props := base + SavedProperties(s);
    SavedLookup(base, s);
    assert WellTyped(props);
    EnumRoundTrips(s);
    RegexesRoundTrip(s.precedenceRegexes);
    assert props[PrecedenceRegexesKey] == StringValue(JoinedRegexes(s.precedenceRegexes));
  }

  /** The precedence regexes come back from their saved form through the setter. */
  lemma RegexesRoundTrip(regexes: seq<string>)
    requires NoEmptyEntries(regexes)
    requires forall i :: 0 <= i < |regexes| ==> '\n' !in regexes[i]
    ensures NonEmptyEntries(SplitRemoveEmptyEntries(JoinedRegexes(regexes))) == regexes
  {
    JoinSplitRoundTrip(regexes);
    NonEmptyEntriesKeepsNonEmpty(regexes);
  }

  /** A setting can be looked up after Save, with the value Save wrote. */
  lemma SavedAt(base: Properties, s: Settings, key: Key)
    ensures key in base + SavedProperties(s) && (base + SavedProperties(s))[key] == SavedValue(s, key)
  {
  }

  /** Every setting can be looked up after Save, with the value Save wrote. */
  lemma SavedLookup(base: Properties, s: Settings)
    ensures forall key :: key in base + SavedProperties(s) && (base + SavedProperties(s))[key] == SavedValue(s, key)
  {
  }

  /** Each enum survives the cast to `int` and back. */
  lemma EnumRoundTrips(s: Settings)
    ensures PathModeFromInt(PathModeToInt(s.pathFormat)) == s.pathFormat
    ensures UseFileRelativePathModeFromInt(UseFileRelativePathModeToInt(s.useFileRelativePath)) == s.useFileRelativePath
    ensures DelimiterModeFromInt(DelimiterModeToInt(s.delimiterFormatting)) == s.delimiterFormatting
    ensures SlashModeFromInt(SlashModeToInt(s.slashFormatting)) == s.slashFormatting
    ensures TypeSortingFromInt(TypeSortingToInt(s.sortByType)) == s.sortByType
  {
  }

  /** The store in which Visual Studio persists settings: named collections of named values. */
  class SettingsStore {
    var collections: map<string, Properties>

    constructor (collections: map<string, Properties>)
      ensures this.collections == collections
    {
      this.collections := collections;
    }

    /** The properties of a collection, none when it does not exist. */
    function PropertiesOf(collection: string): Properties
      reads this
    {
      if collection in collections then collections[collection] else map[]
    }

    /** Replaces the properties of a collection, creating it when it does not exist. */
    method WriteCollection(collection: string, props: Properties)
      modifies this
      ensures collections == old(collections)[collection := props]
    {
      collections := collections[collection := props];
    }
  }

  /** The options page: one field per setting; Save and Load copy them to and from a store. */
  class FormatterOptionsPage {
    var pathFormat: PathMode
    var fromParentDirWithFile: string
    var useFileRelativePath: UseFileRelativePathMode
    var delimiterFormatting: DelimiterMode
    var slashFormatting: SlashMode
    var removeEmptyLines: bool
    var regexIncludeDelimiter: bool
    var blankAfterRegexGroupMatch: bool
    var precedenceRegexes: seq<string>
    var sortByType: TypeSorting
    var removeDuplicates: bool

    function Snapshot(): Settings
      reads this
    {
      Settings(pathFormat, fromParentDirWithFile, useFileRelativePath, delimiterFormatting, slashFormatting,
               removeEmptyLines, regexIncludeDelimiter, blankAfterRegexGroupMatch, precedenceRegexes,
               sortByType, removeDuplicates)
    }

    /** The precedence regexes never hold an empty entry. */
    ghost predicate Valid()
      reads this
    {
      NoEmptyEntries(precedenceRegexes)
    }

    constructor (currentFileNameKey: string)
      ensures Valid() && Snapshot() == DefaultSettings(currentFileNameKey)
    {
      pathFormat := ForceRelativeToParentDirWithFile;
      fromParentDirWithFile := "build.root";
      useFileRelativePath := OnlyInSameOrSubDirectory;
      delimiterFormatting := DelimiterMode.Unchanged;
      slashFormatting := ForwardSlash;
      removeEmptyLines := true;
      regexIncludeDelimiter := true;
      blankAfterRegexGroupMatch := true;
      precedenceRegexes := DefaultPrecedenceRegexes(currentFileNameKey);
      sortByType := TypeSorting.None;
      removeDuplicates := true;
    }

    /** The `PrecedenceRegexes` setter: stores the value without its empty entries. */
    method SetPrecedenceRegexes(value: seq<string>)
      modifies this`precedenceRegexes
      ensures Valid()
      ensures Snapshot() == old(Snapshot()).(precedenceRegexes := NonEmptyEntries(value))
    {
      precedenceRegexes := NonEmptyEntries(value);
    }

    /**
     * Creates the collection when it is missing and writes every setting into it; the writes go to
     * a copy of the collection that is stored back at the end, which no reader can tell apart.
     */
    method SaveSettingsToStorage(store: SettingsStore)
      modifies store
      ensures store.collections
              == old(store.collections)[CollectionName := old(store.PropertiesOf(CollectionName)) + SavedProperties(Snapshot())]
    {
      var collection := store.PropertiesOf(CollectionName);
      var written := WriteSettings(collection, Snapshot());
      store.WriteCollection(CollectionName, written);
    }

    /**
     * Reads every setting the collection holds; the values are read into a copy first and assigned
     * together, which no reader can tell apart from assigning each as soon as it is read.
     */
    method LoadSettingsFromStorage(store: SettingsStore)
      requires WellTyped(store.PropertiesOf(CollectionName))
      modifies this
      ensures Snapshot() == LoadedSettings(old(Snapshot()), store.PropertiesOf(CollectionName))
      ensures old(Valid()) ==> Valid()
    {
      var loaded := ReadSettings(Snapshot(), store.PropertiesOf(CollectionName));
      LoadKeepsValid(Snapshot(), store.PropertiesOf(CollectionName));
      pathFormat, fromParentDirWithFile, useFileRelativePath := loaded.pathFormat, loaded.fromParentDirWithFile, loaded.useFileRelativePath;
      delimiterFormatting, slashFormatting := loaded.delimiterFormatting, loaded.slashFormatting;
      removeEmptyLines, regexIncludeDelimiter := loaded.removeEmptyLines, loaded.regexIncludeDelimiter;
      blankAfterRegexGroupMatch, precedenceRegexes := loaded.blankAfterRegexGroupMatch, loaded.precedenceRegexes;
      sortByType, removeDuplicates := loaded.sortByType, loaded.removeDuplicates;
    }
  }

  /** Saving a page and loading it back leaves every setting as it was. */
  method SaveThenLoad(page: FormatterOptionsPage, store: SettingsStore)
    requires page.Valid()
    requires forall i :: 0 <= i < |page.precedenceRegexes| ==> '\n' !in page.precedenceRegexes[i]
    modifies page, store
    ensures page.Snapshot() == old(page.Snapshot())
  {
    ghost var saved := page.Snapshot();
    ghost var base := store.PropertiesOf(CollectionName);
    page.SaveSettingsToStorage(store);
    SaveLoadRoundTrip(saved, base, saved);
    assert store.PropertiesOf(CollectionName) == base + SavedProperties(saved);
    page.LoadSettingsFromStorage(store);
  }
}
