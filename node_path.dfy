/**
 * The part of Node's `path` module the configuration uses, as segment
 * concatenation with '/' as the separator. Normalisation of `.`/`..` and of
 * repeated separators is not modelled.
 */
module NodePath {

  predicate IsAbsolute(p: string) {
    |p| > 0 && p[0] == '/'
  }

  /** `join(dir, segment)`. */
  function Join(dir: string, segment: string): string {
    dir + "/" + segment
  }

  /** `resolve(base, segment)`: an absolute segment replaces the base, a relative one is joined onto it. */
  function Resolve(base: string, segment: string): string {
    if IsAbsolute(segment) then segment else Join(base, segment)
  }

  /** Resolving against an absolute base gives an absolute path that ends with the segment. */
  lemma ResolveAbsolute(base: string, segment: string)
    requires IsAbsolute(base)
    ensures var p := Resolve(base, segment);
      IsAbsolute(p) && |segment| <= |p| && p[|p| - |segment|..] == segment
  {
  }

  /**
   * `basename(p)`: the longest suffix of `p` free of separators. (Node also
   * drops trailing separators first; the paths given to it here have none.)
   */
  function Basename(p: string): (name: string)
    ensures '/' !in name
    ensures |name| <= |p| && p[|p| - |name|..] == name
    ensures |name| < |p| ==> p[|p| - |name| - 1] == '/'
  {
    if p == [] || p[|p| - 1] == '/' then [] else Basename(p[..|p| - 1]) + [p[|p| - 1]]
  }

  /** The base name of a file joined onto a directory is the file's own name. */
  lemma {:induction false} BasenameOfJoin(dir: string, name: string)
    requires '/' !in name
    ensures Basename(Join(dir, name)) == name
  {
    var p := Join(dir, name);
    assert |p| == |dir| + 1 + |name| && p == dir + ['/'] + name;
    if name == [] {
      assert p[|p| - 1] == '/';
    } else {
      var init := name[..|name| - 1];
      assert p[..|p| - 1] == Join(dir, init);
      assert p[|p| - 1] == name[|name| - 1];
      assert '/' !in init by {
        forall i | 0 <= i < |init| ensures init[i] != '/' {
          assert init[i] == name[i];
        }
      }
      BasenameOfJoin(dir, init);
      assert init + [name[|name| - 1]] == name;
    }
  }
}
