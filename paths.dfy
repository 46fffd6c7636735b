/**
 * The parts of .NET's `System.IO.Path` (Windows conventions) that the formatter relies on:
 * `\` is the directory separator, `/` the alternative one and `:` the volume separator.
 */
module Paths {

  const DirectorySeparatorChar: char := '\\'
  const AltDirectorySeparatorChar: char := '/'
  const VolumeSeparatorChar: char := ':'

  predicate IsSeparator(c: char)
  {
    c == DirectorySeparatorChar || c == AltDirectorySeparatorChar || c == VolumeSeparatorChar
  }

  /** `Path.GetFileName(path)`: what follows the last separator. */
  function GetFileName(path: string): (name: string)
    ensures |name| <= |path| && name == path[|path| - |name|..]
    ensures forall i :: 0 <= i < |name| ==> !IsSeparator(name[i])
    decreases |path|
  {
    if path == [] || IsSeparator(path[|path| - 1]) then []
    else GetFileName(path[..|path| - 1]) + [path[|path| - 1]]
  }

  /** `Path.IsPathRooted(path)`. */
  predicate IsPathRooted(path: string)
  {
    (|path| >= 1 && (path[0] == DirectorySeparatorChar || path[0] == AltDirectorySeparatorChar))
    || (|path| >= 2 && path[1] == VolumeSeparatorChar)
  }

  /** `Path.Combine(path1, path2)`. */
  function Combine(path1: string, path2: string): string
  {
    if path2 == [] then path1
    else if path1 == [] then path2
    else if IsPathRooted(path2) then path2
    else if IsSeparator(path1[|path1| - 1]) then path1 + path2
    else path1 + [DirectorySeparatorChar] + path2
  }

  /** A file name is never rooted, so combining a directory with one extends the directory. */
  lemma CombineFileNameExtends(dir: string, path: string)
    ensures dir <= Combine(dir, GetFileName(path))
  {
    var name := GetFileName(path);
    if name != [] && dir != [] {
      assert !IsSeparator(name[0]);
      assert |name| >= 2 ==> !IsSeparator(name[1]);
    }
  }

  /** `Path.GetFileNameWithoutExtension(path)`: the file name up to its last `.`, if it has one. */
  function GetFileNameWithoutExtension(path: string): (stem: string)
    ensures stem <= GetFileName(path)
  {
    var name := GetFileName(path);
    StemOf(name, |name|)
  }

  function StemOf(name: string, end: nat): (stem: string)
    requires end <= |name|
    ensures stem <= name
    decreases end
  {
    if end == 0 then name
    else if name[end - 1] == '.' then name[..end - 1]
    else StemOf(name, end - 1)
  }
}
