/**
 * The two path operations the registry needs, following Node's POSIX `path`
 * module: `isAbsolute` and `parse` (directory, base name, extension, name).
 */
module Paths {
  import opened Wrappers

  /** `path.isAbsolute` on POSIX: the path starts with a slash. */
  predicate IsAbsolute(p: string) {
    |p| > 0 && p[0] == '/'
  }

  /** The result of `path.parse`, without `root`. */
  datatype ParsedPath = ParsedPath(dir: string, base: string, ext: string, name: string)

  /** Index of the last occurrence of `c` in `s`, if there is one. */
  function LastIndex(s: string, c: char): (r: Option<nat>)
    ensures r.Some? ==> r.value < |s| && s[r.value] == c
    ensures r.Some? ==> forall j :: r.value < j < |s| ==> s[j] != c
    ensures r.None? ==> forall j :: 0 <= j < |s| ==> s[j] != c
  {
    if |s| == 0 then None
    else if s[|s| - 1] == c then Some(|s| - 1)
    else LastIndex(s[..|s| - 1], c)
  }

  /** What follows the last slash of `p` (all of `p` when it has none). */
  function BaseName(p: string): string {
    var slash := LastIndex(p, '/');
    if slash.Some? then p[slash.value + 1..] else p
  }

  /**
   * The extension of a base name, dot included: from its last dot to its end,
   * except when that dot opens the base name or the base name is "..".
   */
  function Extension(base: string): string {
    var dot := LastIndex(base, '.');
    if dot.Some? && dot.value > 0 && base != ".." then base[dot.value..] else ""
  }

  /** `path.parse`: directory, base name, extension and the base name without it. */
  function Parse(p: string): ParsedPath {
    var base := BaseName(p);
    var slash := LastIndex(p, '/');
    var dir := if slash.None? then "" else if slash.value == 0 then "/" else p[..slash.value];
    var ext := Extension(base);
    ParsedPath(dir, base, ext, base[..|base| - |ext|])
  }

  /** The base name is the part of `p` after its last slash. */
  lemma BaseNameSpec(p: string)
    ensures var b := BaseName(p);
      && |b| <= |p| && b == p[|p| - |b|..]
      && (|b| < |p| ==> p[|p| - |b| - 1] == '/')
      && forall i :: 0 <= i < |b| ==> b[i] != '/'
  {
  }

  /** The extension is a dot followed by no dot, ending the base name, found exactly when a dot follows its first character. */
  lemma ExtensionSpec(base: string)
    ensures var ext := Extension(base);
      && |ext| <= |base| && ext == base[|base| - |ext|..]
      && (ext != "" ==> ext[0] == '.' && |ext| < |base|)
      && (forall i :: 0 < i < |ext| ==> ext[i] != '.')
      && (ext != "" <==> base != ".." && exists i :: 0 < i < |base| && base[i] == '.')
  {
  }

  /** The name is the base name with the extension cut off, and is not empty when there is one. */
  lemma ParseSpec(p: string)
    ensures var r := Parse(p);
      && r.base == BaseName(p) && r.ext == Extension(r.base)
      && r.name + r.ext == r.base
      && (r.ext != "" ==> r.name != "")
  {
    var r := Parse(p);
    ExtensionSpec(r.base);
    assert r.base[..|r.base| - |r.ext|] + r.ext == r.base;
  }

  /** The parse of the empty path is empty in every part. */
  lemma ParseEmpty()
    ensures Parse("") == ParsedPath("", "", "", "")
  {
  }
}
