/**
 * The parts of Rust's `std::path::Path` the importers use, on `/`-separated
 * strings: `join`, `file_name`, `extension` and `with_extension("")`.
 */
module Paths {

  import opened Base
  import opened Strings

  /** `Path::join` of a directory-listing entry: a `/` goes between them unless `dir` is empty or ends in one. */
  predicate NeedsSeparator(dir: string)
  {
    dir != [] && dir[|dir| - 1] != '/'
  }

  function Join(dir: string, name: string): string
  {
    if NeedsSeparator(dir) then dir + "/" + name else dir + name
  }

  /**
   * The joined path starts with `dir`, ends with `name`, and the name follows
   * a `/` unless the path is the name alone; a separator is added exactly
   * when `dir` does not supply one.
   */
  lemma JoinShape(dir: string, name: string)
    ensures var p := Join(dir, name);
      |p| == |dir| + (if NeedsSeparator(dir) then 1 else 0) + |name|
      && p[..|dir|] == dir && p[|p| - |name|..] == name
      && (|p| > |name| ==> p[|p| - |name| - 1] == '/')
      && (|p| == |name| <==> dir == [])
  {
  }

  /** A name a directory listing can yield: non-empty, no `/`, not `.` or `..`. */
  predicate IsEntryName(name: string)
  {
    name != [] && '/' !in name && name != "." && name != ".."
  }

  /** Everything after the last `/` (the whole path when there is none). */
  function LastSegment(p: string): (seg: string)
    ensures '/' !in seg
    ensures |seg| <= |p| && seg == p[|p| - |seg|..]
    ensures |seg| < |p| ==> p[|p| - |seg| - 1] == '/'
  {
    match LastIndexOf(p, '/')
    case None => p
    case Some(i) => p[i + 1..]
  }

  /** `Path::file_name`: the last component, `None` for an empty, `.` or `..` one. */
  function FileName(p: string): (r: Option<string>)
    ensures r.Some? ==> IsEntryName(r.value) && |r.value| <= |p| && p == p[..|p| - |r.value|] + r.value
  {
    var seg := LastSegment(p);
    if seg == [] || seg == "." || seg == ".." then None else Some(seg)
  }

  /** The file name of a joined entry path is the entry's name. */
  lemma FileNameOfJoin(dir: string, name: string)
    requires IsEntryName(name)
    ensures FileName(Join(dir, name)) == Some(name)
  {
    var p := Join(dir, name);
    JoinShape(dir, name);
    var k := |p| - |name|;
    assert p[k..] == name;
    LastSegmentAfter(p, k);
  }

  /** When everything after a `/` (or the whole path) has no `/`, that is the last segment. */
  lemma LastSegmentAfter(p: string, k: nat)
    requires k <= |p| && '/' !in p[k..]
    requires k > 0 ==> p[k - 1] == '/'
    ensures LastSegment(p) == p[k..]
  {
  }

  /** A file name split at its last dot: the stem and the extension. */
  datatype NameParts = NameParts(stem: string, ext: Option<string>)

  /**
   * Rust's `rsplit_file_at_dot` on a file name: `..`, names without a dot and
   * names whose only dot is the first character have no extension.
   */
  function SplitName(name: string): (r: NameParts)
    ensures r.ext.None? ==> r.stem == name
    ensures r.ext.Some? ==> name == r.stem + "." + r.ext.value && r.stem != [] && '.' !in r.ext.value
  {
    if name == ".." then NameParts(name, None)
    else
      match LastIndexOf(name, '.')
      case None => NameParts(name, None)
      case Some(i) =>
        if i == 0 then NameParts(name, None)
        else
          assert name == name[..i] + "." + name[i + 1..];
          NameParts(name[..i], Some(name[i + 1..]))
  }

  /** `Path::extension`. */
  function Extension(p: string): Option<string>
  {
    match FileName(p)
    case None => None
    case Some(name) => SplitName(name).ext
  }

  /** `Path::with_extension("")`: the path truncated after the file stem. */
  function WithoutExtension(p: string): (r: string)
    ensures Extension(p).None? ==> r == p
    ensures Extension(p).Some? ==> p == r + "." + Extension(p).value
  {
    match FileName(p)
    case None => p
    case Some(name) =>
      var dir := p[..|p| - |name|];
      var parts := SplitName(name);
      StemPath(p, dir, name, parts);
      dir + parts.stem
  }

  /** Cutting the extension off the file name cuts it off the path. */
  lemma StemPath(p: string, dir: string, name: string, parts: NameParts)
    requires p == dir + name
    requires parts.ext.None? ==> parts.stem == name
    requires parts.ext.Some? ==> name == parts.stem + "." + parts.ext.value
    ensures parts.ext.None? ==> dir + parts.stem == p
    ensures parts.ext.Some? ==> p == (dir + parts.stem) + "." + parts.ext.value
  {
  }

  /** A dotted name splits at its last dot. */
  lemma {:induction false} SplitNameOfDotted(stem: string, ext: string)
    requires stem != [] && stem != "." && '.' !in ext
    ensures SplitName(stem + "." + ext) == NameParts(stem, Some(ext))
  {
    var name := stem + "." + ext;
    assert name[|stem|] == '.';
    var i := LastIndexOf(name, '.').value;
    assert i == |stem|;
    assert name[..i] == stem;
    assert name[i + 1..] == ext;
  }
}
