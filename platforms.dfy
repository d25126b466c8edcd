/** The known platform names and the shape of the list of platforms already created. */
module Platforms {

  /** The registry a constructed configuration holds, in registration order. */
  const KnownPlatformNames: seq<string> := ["android", "ios", "web"]

  /** `xs` is `ys` with some elements left out, the rest kept in order. */
  predicate IsSubsequence(xs: seq<string>, ys: seq<string>)
    decreases |ys|
  {
    if xs == [] then true
    else if ys == [] then false
    else if xs[0] == ys[0] then IsSubsequence(xs[1..], ys[1..])
    else IsSubsequence(xs, ys[1..])
  }

  /**
   * A list of created platforms: known platforms in registry order, always
   * ending with the web platform, holding a native platform exactly when its
   * directory exists.
   */
  predicate ListsExistingPlatforms(ps: seq<string>, androidExists: bool, iosExists: bool) {
    && IsSubsequence(ps, KnownPlatformNames)
    && |ps| > 0 && ps[|ps| - 1] == "web"
    && ("android" in ps <==> androidExists)
    && ("ios" in ps <==> iosExists)
  }

  /** A subsequence of a one-element list is empty or the list itself. */
  lemma {:induction false} SubsequenceOfOne(xs: seq<string>, y: string)
    requires IsSubsequence(xs, [y])
    ensures xs == [] || xs == [y]
  {
    if xs != [] {
      assert [y][1..] == [];
      assert xs[0] == y;
      assert IsSubsequence(xs[1..], []);
      assert xs == [y];
    }
  }

  /** The subsequences of the registry that end with the web platform. */
  lemma {:induction false} SubsequencesEndingInWeb(ps: seq<string>)
    requires IsSubsequence(ps, KnownPlatformNames) && |ps| > 0 && ps[|ps| - 1] == "web"
    ensures ps == ["web"] || ps == ["ios", "web"] || ps == ["android", "web"] || ps == ["android", "ios", "web"]
  {
    var k := KnownPlatformNames;
    assert k[1..] == ["ios", "web"] && k[1..][1..] == ["web"];
    if ps[0] == "android" {
      assert IsSubsequence(ps[1..], ["ios", "web"]);
      SubsequencesOfIosWeb(ps[1..]);
    } else {
      assert IsSubsequence(ps, ["ios", "web"]);
      SubsequencesOfIosWeb(ps);
    }
  }

  lemma {:induction false} SubsequencesOfIosWeb(ps: seq<string>)
    requires IsSubsequence(ps, ["ios", "web"])
    ensures ps == [] || ps == ["ios"] || ps == ["web"] || ps == ["ios", "web"]
  {
    var k := ["ios", "web"];
    assert k[1..] == ["web"];
    if ps != [] {
      if ps[0] == "ios" {
        SubsequenceOfOne(ps[1..], "web");
        assert ps == [ps[0]] + ps[1..];
      } else {
        SubsequenceOfOne(ps, "web");
      }
    }
  }

  /** The created-platform list is determined by which native directories exist. */
  lemma ExistingPlatformsDetermined(ps: seq<string>, qs: seq<string>, androidExists: bool, iosExists: bool)
    requires ListsExistingPlatforms(ps, androidExists, iosExists)
    requires ListsExistingPlatforms(qs, androidExists, iosExists)
    ensures ps == qs
  {
    SubsequencesEndingInWeb(ps);
    SubsequencesEndingInWeb(qs);
  }

  /** The list built by pushing android and ios when their directories exist, then web, has that shape. */
  lemma {:induction false} PushedListListsExisting(androidExists: bool, iosExists: bool)
    ensures ListsExistingPlatforms(
      (if androidExists then ["android"] else []) + (if iosExists then ["ios"] else []) + ["web"],
      androidExists, iosExists)
  {
    var k := KnownPlatformNames;
    assert k[1..] == ["ios", "web"] && k[1..][1..] == ["web"] && k[1..][1..][1..] == [];
    assert IsSubsequence(["web"], ["web"]) by { assert ["web"][1..] == []; }
    assert IsSubsequence(["web"], ["ios", "web"]);
    assert IsSubsequence(["ios", "web"], ["ios", "web"]) by { assert ["ios", "web"][1..] == ["web"]; }
    assert IsSubsequence(["android", "web"], k) by { assert ["android", "web"][1..] == ["web"]; }
    assert IsSubsequence(["android", "ios", "web"], k) by { assert ["android", "ios", "web"][1..] == ["ios", "web"]; }
  }
}
