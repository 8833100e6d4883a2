/** `os.path.basename` and `os.path.dirname` on POSIX paths. */
module PosixPath {
  import opened PyText

  /** Everything after the last `/` (the whole path when it has none). */
  function Basename(p: string): string
  {
    p[RFind(p, '/') + 1..]
  }

  /** The basename is a suffix of the path and holds no `/`. */
  lemma BasenameSpec(p: string)
    ensures var r := Basename(p); '/' !in r && |r| <= |p| && r == p[|p| - |r|..]
  {
  }

  /**
    Everything up to the last `/`, with trailing slashes removed unless
    nothing but slashes is left (so the root stays `/`). A path without
    a `/` has the empty dirname.
   */
  function Dirname(p: string): string
  {
    var h := RFind(p, '/') + 1;
    var n := TrailStart(p, {'/'}, h);
    if n > 0 then p[..n] else p[..h]
  }

  /** The dirname is a prefix of the path, and it is empty for a path without `/`. */
  lemma DirnameSpec(p: string)
    ensures var r := Dirname(p); |r| <= |p| && r == p[..|r|] && ('/' !in p ==> r == "")
  {
  }

  /**
    For a path whose last `/` is preceded by something other than a `/`,
    dirname, a `/`, and basename put the path back together.
   */
  lemma DirnameSlashBasename(p: string)
    requires RFind(p, '/') >= 1 && p[RFind(p, '/') - 1] != '/'
    ensures Dirname(p) + "/" + Basename(p) == p
  {
    var i := RFind(p, '/');
    TrailStartAt(p, {'/'}, i + 1, i);
    assert p == p[..i] + [p[i]] + p[i + 1..];
  }
}
