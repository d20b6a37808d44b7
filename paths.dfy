/**
 * The part of `pathlib.Path` the folder monitor relies on: a path is a
 * folder and a final component (`name`); `suffix` and `stem` split the
 * name at its last dot, following pathlib's rule that a leading dot
 * (`.bashrc`) or a trailing dot (`file.`) does not start a suffix.
 */
module Paths {

  datatype FilePath = FilePath(folder: string, name: string)

  /** `name.rfind('.')`: the index of the last dot, or -1 when there is none. */
  function LastDot(name: string): (i: int)
    ensures -1 <= i < |name|
    ensures i >= 0 ==> name[i] == '.'
    ensures forall j :: i < j < |name| ==> name[j] != '.'
  {
    if name == [] then -1
    else if name[|name| - 1] == '.' then |name| - 1
    else LastDot(name[..|name| - 1])
  }

  /** The last dot is the only dot with no dot after it. */
  lemma LastDotUnique(name: string, i: int)
    requires 0 <= i < |name| && name[i] == '.'
    requires forall j :: i < j < |name| ==> name[j] != '.'
    ensures LastDot(name) == i
  {
  }

  predicate HasSuffix(name: string) {
    0 < LastDot(name) < |name| - 1
  }

  /** `Path(name).suffix`: from the last dot on, or empty. */
  function Suffix(name: string): (r: string)
    ensures r == "" || (|r| >= 2 && r[0] == '.' && forall j :: 1 <= j < |r| ==> r[j] != '.')
    ensures r != "" <==> HasSuffix(name)
    ensures |r| <= |name| && r == name[|name| - |r|..]
  {
    if HasSuffix(name) then name[LastDot(name)..] else ""
  }

  /** `Path(name).stem`: the name without its suffix. */
  function Stem(name: string): (r: string)
    ensures r + Suffix(name) == name
  {
    if HasSuffix(name) then name[..LastDot(name)] else name
  }
}
