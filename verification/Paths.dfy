/** Paths of files as sequences of names. */
module Paths {
  datatype Part = Part(text: string)
  type Path = seq<Part>

  predicate Under(p: Path, top: Path) {
    |top| <= |p| && p[..|top|] == top
  }

  lemma UnderBoth(p: Path, a: Path, b: Path)
    requires Under(p, a) && Under(p, b)
    ensures Under(a, b) || Under(b, a)
  {
    if |a| <= |b| {
      assert b[..|a|] == p[..|a|];
    } else {
      assert a[..|b|] == p[..|b|];
    }
  }
}
