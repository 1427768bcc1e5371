/**
 * The slice of Go's `path/filepath` the template index relies on: `Ext`,
 * `Rel` (for paths the walk produces under its root) and `ToSlash`. The host's
 * separator is a parameter `sep`: '/' on Unix, '\\' on Windows.
 */
module Paths {
  import opened Wrappers

  /** os.IsPathSeparator: '/' always separates; on Windows so does '\\'. */
  predicate IsPathSeparator(c: char, sep: char)
  {
    c == '/' || c == sep
  }

  /** Index where the final path element starts: just after the last separator. */
  function FinalStart(path: string, sep: char): (k: nat)
    ensures k <= |path|
    ensures k == 0 || IsPathSeparator(path[k - 1], sep)
    ensures forall i :: k <= i < |path| ==> !IsPathSeparator(path[i], sep)
    decreases |path|
  {
    if |path| == 0 then 0
    else if IsPathSeparator(path[|path| - 1], sep) then |path|
    else FinalStart(path[..|path| - 1], sep)
  }

  /**
   * filepath.Ext: the suffix of the final path element that starts at its
   * last '.', or "" when that element has no dot.
   */
  function Ext(path: string, sep: char): (e: string)
    ensures e == "" <==> forall i :: FinalStart(path, sep) <= i < |path| ==> path[i] != '.'
    ensures e != "" ==> |e| <= |path| - FinalStart(path, sep)
    ensures e != "" ==> e == path[|path| - |e|..]
    ensures e != "" ==> e[0] == '.' && forall i :: 1 <= i < |e| ==> e[i] != '.'
    decreases |path|
  {
    if |path| == 0 then ""
    else
      var last := path[|path| - 1];
      if IsPathSeparator(last, sep) then ""
      else if last == '.' then "."
      else
        var e := Ext(path[..|path| - 1], sep);
        if e == "" then "" else e + [last]
  }

  /** The directory prefix a walk puts in front of the entries under `root`. */
  function DirPrefix(root: string, sep: char): string
  {
    if |root| > 0 && root[|root| - 1] == sep then root else root + [sep]
  }

  /** filepath.Join(root, rel) for a non-empty, already clean `rel`. */
  function Join(root: string, rel: string, sep: char): string
  {
    DirPrefix(root, sep) + rel
  }

  /**
   * filepath.Rel(root, target) for the targets a walk of `root` produces:
   * "." for the root itself, otherwise the part after the root's directory
   * prefix. A target outside the root is reported as an error.
   */
  function Rel(root: string, target: string, sep: char): (r: Result<string, string>)
    ensures r.Success? ==> r.value != ""
    ensures r.Success? && target != root ==> Join(root, r.value, sep) == target
    ensures target == root ==> r == Success(".")
  {
    if target == root then Success(".")
    else
      var prefix := DirPrefix(root, sep);
      if |prefix| < |target| && target[..|prefix|] == prefix then Success(target[|prefix|..])
      else Failure("Rel: can't make " + target + " relative to " + root)
  }

  /** Rel undoes Join: the walk's entry names come back out of their paths. */
  lemma RelJoin(root: string, rel: string, sep: char)
    requires rel != ""
    ensures Rel(root, Join(root, rel, sep), sep) == Success(rel)
  {
  }

  /** filepath.ToSlash: every host separator becomes '/'. */
  function ToSlash(path: string, sep: char): (r: string)
    ensures |r| == |path|
    ensures sep == '/' ==> r == path
    ensures forall i :: 0 <= i < |r| ==> r[i] == (if path[i] == sep then '/' else path[i])
  {
    if sep == '/' then path
    else seq(|path|, i requires 0 <= i < |path| => if path[i] == sep then '/' else path[i])
  }
}
