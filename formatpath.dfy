/**
 * `IncludeFormatter.FormatPath` (IncludeToolbox/Formatter/IncludeFormatter.cs): the path written
 * back for a resolved absolute include path.
 */
module PathFormatter {
  import opened Wrappers
  import Strings
  import Paths
  import Utils
  import Options

  /** `Int32.MaxValue`, the length the scan gives a missing candidate. */
  const Int32MaxValue: int := 0x7fff_ffff

  function CandidateLength(candidate: Option<string>): int
  {
    if candidate.Some? then |candidate.value| else Int32MaxValue
  }

  /** The path climbs out of its directory: it holds `../` or `..\`. */
  predicate HasUpStep(path: string)
  {
    Strings.Contains(path, "../") || Strings.Contains(path, "..\\")
  }

  /** Whether the scan may take `proposal`: with AvoidUpSteps only a path with no up-step. */
  predicate Eligible(proposal: string, avoidUpSteps: bool)
  {
    !avoidUpSteps || !HasUpStep(proposal)
  }

  /** One round of the scan: a strictly shorter eligible proposal replaces the best candidate. */
  function Step(best: Option<string>, proposal: string, avoidUpSteps: bool): Option<string>
  {
    if |proposal| < CandidateLength(best) && Eligible(proposal, avoidUpSteps) then Some(proposal) else best
  }

  /** The best candidate after scanning `proposals` in order, starting from `initial`. */
  function BestCandidate(initial: Option<string>, proposals: seq<string>, avoidUpSteps: bool): Option<string>
    decreases |proposals|
  {
    if proposals == [] then initial
    else Step(BestCandidate(initial, proposals[..|proposals| - 1], avoidUpSteps), proposals[|proposals| - 1], avoidUpSteps)
  }

  /** No .NET string reaches `Int32.MaxValue` characters. */
  predicate ShorterThanMaxValue(proposals: seq<string>)
  {
    forall i :: 0 <= i < |proposals| ==> |proposals[i]| < Int32MaxValue
  }

  /** The best candidate is no longer than the initial one and than every eligible proposal. */
  lemma {:induction false} BestCandidateIsShortest(initial: Option<string>, proposals: seq<string>, avoidUpSteps: bool)
    requires ShorterThanMaxValue(proposals)
    ensures CandidateLength(BestCandidate(initial, proposals, avoidUpSteps)) <= CandidateLength(initial)
    ensures forall i :: 0 <= i < |proposals| && Eligible(proposals[i], avoidUpSteps) ==>
              CandidateLength(BestCandidate(initial, proposals, avoidUpSteps)) <= |proposals[i]|
    decreases |proposals|
  {
    if proposals != [] {
      var n := |proposals| - 1;
      BestCandidateIsShortest(initial, proposals[..n], avoidUpSteps);
      forall i | 0 <= i < |proposals| && Eligible(proposals[i], avoidUpSteps)
        ensures CandidateLength(BestCandidate(initial, proposals, avoidUpSteps)) <= |proposals[i]|
      {
        if i < n {
          assert proposals[..n][i] == proposals[i];
        }
      }
    }
  }

  /** The scan keeps `initial` unless some eligible proposal is strictly shorter. */
  lemma {:induction false} BestCandidateKeepsInitial(initial: Option<string>, proposals: seq<string>, avoidUpSteps: bool)
    requires forall i :: 0 <= i < |proposals| && Eligible(proposals[i], avoidUpSteps) ==>
               |proposals[i]| >= CandidateLength(initial)
    ensures BestCandidate(initial, proposals, avoidUpSteps) == initial
    decreases |proposals|
  {
    if proposals != [] {
      var n := |proposals| - 1;
      forall i | 0 <= i < n && Eligible(proposals[..n][i], avoidUpSteps)
        ensures |proposals[..n][i]| >= CandidateLength(initial)
      {
        assert proposals[..n][i] == proposals[i];
      }
      BestCandidateKeepsInitial(initial, proposals[..n], avoidUpSteps);
    }
  }

  lemma PrefixShorterThanMaxValue(proposals: seq<string>, n: nat)
    requires ShorterThanMaxValue(proposals) && n <= |proposals|
    ensures ShorterThanMaxValue(proposals[..n])
  {
    forall i | 0 <= i < n
      ensures |proposals[..n][i]| < Int32MaxValue
    {
      assert proposals[..n][i] == proposals[i];
    }
  }

  /** A candidate that is first and shortest in `proposals[..n]` stays so in `proposals`. */
  lemma FirstShortestInPrefix(proposals: seq<string>, n: nat, k: nat, avoidUpSteps: bool)
    requires k < n <= |proposals|
    requires forall j :: 0 <= j < k && Eligible(proposals[..n][j], avoidUpSteps) ==> |proposals[..n][j]| > |proposals[..n][k]|
    ensures forall j :: 0 <= j < k && Eligible(proposals[j], avoidUpSteps) ==> |proposals[j]| > |proposals[k]|
  {
    assert proposals[..n][k] == proposals[k];
    forall j | 0 <= j < k && Eligible(proposals[j], avoidUpSteps)
      ensures |proposals[j]| > |proposals[k]|
    {
      assert proposals[..n][j] == proposals[j];
    }
  }

  /**
   * Ties go to the earliest candidate: unless the scan keeps `initial`, it ends on an eligible
   * proposal that is strictly shorter than `initial` and than every eligible proposal before it.
   */
  lemma {:induction false} BestCandidateIsFirstShortest(initial: Option<string>, proposals: seq<string>, avoidUpSteps: bool)
    requires ShorterThanMaxValue(proposals)
    ensures BestCandidate(initial, proposals, avoidUpSteps) == initial
            || exists k :: 0 <= k < |proposals| && BestCandidate(initial, proposals, avoidUpSteps) == Some(proposals[k])
                 && Eligible(proposals[k], avoidUpSteps) && |proposals[k]| < CandidateLength(initial)
                 && forall j :: 0 <= j < k && Eligible(proposals[j], avoidUpSteps) ==> |proposals[j]| > |proposals[k]|
    decreases |proposals|
  {
    if proposals != [] {
      var n := |proposals| - 1;
      var before := BestCandidate(initial, proposals[..n], avoidUpSteps);
      PrefixShorterThanMaxValue(proposals, n);
      var r := BestCandidate(initial, proposals, avoidUpSteps);
      if r != before {
        // the last proposal won: it is shorter than everything eligible before it
        BestCandidateNeverGrows(initial, proposals[..n], avoidUpSteps);
        BestCandidateIsShortest(initial, proposals[..n], avoidUpSteps);
        forall j | 0 <= j < n && Eligible(proposals[j], avoidUpSteps)
          ensures |proposals[j]| > |proposals[n]|
        {
          assert proposals[..n][j] == proposals[j];
        }
      } else if r != initial {
        BestCandidateIsFirstShortest(initial, proposals[..n], avoidUpSteps);
        var k :| 0 <= k < n && before == Some(proposals[..n][k]) && Eligible(proposals[..n][k], avoidUpSteps)
                 && |proposals[..n][k]| < CandidateLength(initial)
                 && forall j :: 0 <= j < k && Eligible(proposals[..n][j], avoidUpSteps) ==> |proposals[..n][j]| > |proposals[..n][k]|;
        FirstShortestInPrefix(proposals, n, k, avoidUpSteps);
      }
    }
  }

  lemma {:induction false} BestCandidateNeverGrows(initial: Option<string>, proposals: seq<string>, avoidUpSteps: bool)
    ensures CandidateLength(BestCandidate(initial, proposals, avoidUpSteps)) <= CandidateLength(initial)
    decreases |proposals|
  {
    if proposals != [] {
      BestCandidateNeverGrows(initial, proposals[..|proposals| - 1], avoidUpSteps);
    }
  }

  /**
   * The path lies in the document's directory in the policy's sense: directly in it, or anywhere
   * below it. Either way the directory is a prefix of the path.
   */
  predicate InDocumentDirectory(absolutePath: string, policy: Options.UseFileRelativePathMode, documentDir: string)
    ensures InDocumentDirectory(absolutePath, policy, documentDir) ==> documentDir <= absolutePath
  {
    Paths.CombineFileNameExtends(documentDir, absolutePath);
    || (policy == Options.OnlyInSameDirectory
        && Paths.Combine(documentDir, Paths.GetFileName(absolutePath)) == absolutePath)
    || (policy == Options.OnlyInSameOrSubDirectory && Strings.StartsWith(absolutePath, documentDir))
  }

  /** The file-relative candidate the scan starts from. */
  function FileRelativeCandidate(uris: Utils.UriSystem, absolutePath: string, policy: Options.UseFileRelativePathMode,
                                 documentDir: string): (c: Option<string>)
    ensures policy == Options.Always ==> c == Some(Utils.MakeRelative(uris, documentDir, absolutePath))
    ensures policy == Options.Never ==> c == None
    ensures policy != Options.Always && c.Some? ==> documentDir + c.value == absolutePath
  {
    if policy == Options.Always then Some(Utils.MakeRelative(uris, documentDir, absolutePath))
    else if InDocumentDirectory(absolutePath, policy, documentDir) then
      assert documentDir + absolutePath[|documentDir|..] == absolutePath;
      Some(absolutePath[|documentDir|..])
    else None
  }

  /** What the scan compares: the path relative to each include directory, in list order. */
  function Proposals(uris: Utils.UriSystem, includeDirectories: seq<string>, absolutePath: string): (ps: seq<string>)
    ensures |ps| == |includeDirectories|
    ensures forall i :: 0 <= i < |ps| ==> ps[i] == Utils.MakeRelative(uris, includeDirectories[i], absolutePath)
  {
    seq(|includeDirectories|, i requires 0 <= i < |includeDirectories| => Utils.MakeRelative(uris, includeDirectories[i], absolutePath))
  }

  /**
   * What `FormatPath` must be given: a missing path is only accepted where the C# code does not
   * dereference it (Absolute mode, or the Never policy).
   */
  predicate CanFormat(absolutePath: Option<string>, pathFormat: Options.PathMode, policy: Options.UseFileRelativePathMode)
  {
    absolutePath.Some? || pathFormat == Options.Absolute || policy == Options.Never
  }

  /** The result of `FormatPath`; `None` stands for `null`. */
  function FormattedPath(uris: Utils.UriSystem, absolutePath: Option<string>, pathFormat: Options.PathMode,
                         policy: Options.UseFileRelativePathMode, includeDirectories: seq<string>,
                         documentDir: string, includeRootDirectory: Option<string>): Option<string>
    requires CanFormat(absolutePath, pathFormat, policy)
  {
    if pathFormat == Options.Absolute then absolutePath
    else if absolutePath.None? then None
    else if pathFormat == Options.ForceRelativeToParentDirWithFile && includeRootDirectory.Some? then
      Some(Utils.MakeRelative(uris, includeRootDirectory.value, absolutePath.value))
    else if pathFormat == Options.Shortest || pathFormat == Options.Shortest_AvoidUpSteps then
      BestCandidate(FileRelativeCandidate(uris, absolutePath.value, policy, documentDir),
                    Proposals(uris, includeDirectories, absolutePath.value),
                    pathFormat == Options.Shortest_AvoidUpSteps)
    else None
  }

  /** `IncludeFormatter.FormatPath`. */
  method FormatPath(uris: Utils.UriSystem, absoluteIncludeFilename: Option<string>, pathFormat: Options.PathMode,
                    useFileRelativePathMode: Options.UseFileRelativePathMode, includeDirectories: seq<string>,
                    documentDir: string, includeRootDirectory: Option<string>)
    returns (r: Option<string>)
    requires CanFormat(absoluteIncludeFilename, pathFormat, useFileRelativePathMode)
    ensures r == FormattedPath(uris, absoluteIncludeFilename, pathFormat, useFileRelativePathMode, includeDirectories,
                               documentDir, includeRootDirectory)
    ensures pathFormat == Options.Absolute ==> r == absoluteIncludeFilename
    ensures pathFormat == Options.PathMode.Unchanged ==> r == None
    ensures pathFormat == Options.ForceRelativeToParentDirWithFile ==>
              r == if absoluteIncludeFilename.Some? && includeRootDirectory.Some?
                   then Some(Utils.MakeRelative(uris, includeRootDirectory.value, absoluteIncludeFilename.value))
                   else None
    ensures absoluteIncludeFilename.None? && pathFormat != Options.Absolute ==> r == None
  {
    if pathFormat == Options.Absolute {
      return absoluteIncludeFilename;
    }

    var fileRelativeIncludeFilename: Option<string> := None;
    if useFileRelativePathMode == Options.Always {
      fileRelativeIncludeFilename := Some(Utils.MakeRelative(uris, documentDir, absoluteIncludeFilename.value));
    } else if absoluteIncludeFilename.Some? && InDocumentDirectory(absoluteIncludeFilename.value, useFileRelativePathMode, documentDir) {
      fileRelativeIncludeFilename := Some(absoluteIncludeFilename.value[|documentDir|..]);
    }

    if pathFormat == Options.ForceRelativeToParentDirWithFile && absoluteIncludeFilename.Some? && includeRootDirectory.Some? {
      return Some(Utils.MakeRelative(uris, includeRootDirectory.value, absoluteIncludeFilename.value));
    }

    if pathFormat == Options.Shortest || pathFormat == Options.Shortest_AvoidUpSteps {
      if absoluteIncludeFilename.Some? {
        var absolutePath := absoluteIncludeFilename.value;
        ghost var proposals := Proposals(uris, includeDirectories, absolutePath);
        var bestCandidate := fileRelativeIncludeFilename;
        for i := 0 to |includeDirectories|
          invariant bestCandidate == BestCandidate(fileRelativeIncludeFilename, proposals[..i],
                                                   pathFormat == Options.Shortest_AvoidUpSteps)
        {
          var proposal := Utils.MakeRelative(uris, includeDirectories[i], absolutePath);
          assert proposals[..i + 1][..i] == proposals[..i];
          if |proposal| < CandidateLength(bestCandidate) {
            if pathFormat == Options.Shortest || (!Strings.Contains(proposal, "../") && !Strings.Contains(proposal, "..\\")) {
              bestCandidate := Some(proposal);
            }
          }
        }
        assert proposals[..|includeDirectories|] == proposals;
        return bestCandidate;
      }
    }

    return None;
  }

  /**
   * Shortest mode: the result is no longer than the file-relative candidate and than the path
   * relative to any include directory. Shortest_AvoidUpSteps: the same, against the proposals
   * without an up-step.
   */
  lemma ShortestModesAreShortest(uris: Utils.UriSystem, absolutePath: string, pathFormat: Options.PathMode,
                                 policy: Options.UseFileRelativePathMode, includeDirectories: seq<string>,
                                 documentDir: string, includeRootDirectory: Option<string>)
    requires pathFormat == Options.Shortest || pathFormat == Options.Shortest_AvoidUpSteps
    requires ShorterThanMaxValue(Proposals(uris, includeDirectories, absolutePath))
    ensures var r := FormattedPath(uris, Some(absolutePath), pathFormat, policy, includeDirectories, documentDir, includeRootDirectory);
            && CandidateLength(r) <= CandidateLength(FileRelativeCandidate(uris, absolutePath, policy, documentDir))
            && forall i :: 0 <= i < |includeDirectories|
                 && (pathFormat == Options.Shortest || !HasUpStep(Utils.MakeRelative(uris, includeDirectories[i], absolutePath)))
                 ==> CandidateLength(r) <= |Utils.MakeRelative(uris, includeDirectories[i], absolutePath)|
  {
    var proposals := Proposals(uris, includeDirectories, absolutePath);
    BestCandidateIsShortest(FileRelativeCandidate(uris, absolutePath, policy, documentDir), proposals,
                            pathFormat == Options.Shortest_AvoidUpSteps);
  }

  /**
   * Shortest_AvoidUpSteps: the result is the file-relative candidate, or the path relative to one
   * of the include directories that has no up-step.
   */
  lemma AvoidUpStepsResult(uris: Utils.UriSystem, absolutePath: string, policy: Options.UseFileRelativePathMode,
                           includeDirectories: seq<string>, documentDir: string, includeRootDirectory: Option<string>)
    requires ShorterThanMaxValue(Proposals(uris, includeDirectories, absolutePath))
    ensures var r := FormattedPath(uris, Some(absolutePath), Options.Shortest_AvoidUpSteps, policy, includeDirectories,
                                   documentDir, includeRootDirectory);
            r == FileRelativeCandidate(uris, absolutePath, policy, documentDir)
            || exists i :: 0 <= i < |includeDirectories| && r == Some(Utils.MakeRelative(uris, includeDirectories[i], absolutePath))
                 && !HasUpStep(r.value)
  {
    var proposals := Proposals(uris, includeDirectories, absolutePath);
    BestCandidateIsFirstShortest(FileRelativeCandidate(uris, absolutePath, policy, documentDir), proposals, true);
  }

  /** In every mode but ForceRelativeToParentDirWithFile the include root makes no difference. */
  lemma IncludeRootOnlyForcesRelative(uris: Utils.UriSystem, absolutePath: Option<string>, pathFormat: Options.PathMode,
                                      policy: Options.UseFileRelativePathMode, includeDirectories: seq<string>,
                                      documentDir: string, root1: Option<string>, root2: Option<string>)
    requires CanFormat(absolutePath, pathFormat, policy)
    requires pathFormat != Options.ForceRelativeToParentDirWithFile
    ensures FormattedPath(uris, absolutePath, pathFormat, policy, includeDirectories, documentDir, root1)
            == FormattedPath(uris, absolutePath, pathFormat, policy, includeDirectories, documentDir, root2)
  {
  }
}
