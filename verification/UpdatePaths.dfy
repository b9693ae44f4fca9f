// Lexical paths and the sibling names an install works with.
module UpdatePaths {
  type Name = s: string | s != "" witness "a"

  datatype Component = Root | Cur | Up | Normal(name: Name)

  type Path = seq<Component>

  const BAK := ".aegis-bak"
  const TMP := ".aegis-tmp"

  // Only a path ending in a normal component has a file name.
  predicate HasName(p: Path) {
    p != [] && p[|p| - 1].Normal?
  }

  function FileName(p: Path): string {
    if HasName(p) then p[|p| - 1].name else ""
  }

  predicate HasParent(p: Path) {
    p != [] && !p[|p| - 1].Root?
  }

  function WithFileName(p: Path, name: Name): Path {
    (if HasName(p) then p[..|p| - 1] else p) + [Normal(name)]
  }

  function BackupPath(p: Path): Path {
    WithFileName(p, FileName(p) + BAK)
  }

  function TmpPath(p: Path): Path {
    WithFileName(p, FileName(p) + TMP)
  }

  lemma SameSuffix(a: string, b: string, suffix: string)
    requires a + suffix == b + suffix
    ensures a == b
  {
    assert a == (a + suffix)[..|a|] && b == (b + suffix)[..|b|];
  }

  lemma WithFileNameInjective(p: Path, q: Path, suffix: Name)
    requires WithFileName(p, FileName(p) + suffix) == WithFileName(q, FileName(q) + suffix)
    ensures p == q
  {
    var x, y := WithFileName(p, FileName(p) + suffix), WithFileName(q, FileName(q) + suffix);
    assert x[|x| - 1] == Normal(FileName(p) + suffix) && y[|y| - 1] == Normal(FileName(q) + suffix);
    SameSuffix(FileName(p), FileName(q), suffix);
    var front := x[..|x| - 1];
    assert front == (if HasName(p) then p[..|p| - 1] else p);
    assert front == (if HasName(q) then q[..|q| - 1] else q);
    if HasName(p) {
      assert p == front + [Normal(FileName(p))] && q == front + [Normal(FileName(q))];
    }
  }

  // Different targets never share a sibling, and a sibling is never the target itself.
  lemma SiblingsAreDistinct(p: Path, q: Path)
    ensures BackupPath(p) == BackupPath(q) <==> p == q
    ensures TmpPath(p) == TmpPath(q) <==> p == q
    ensures BackupPath(p) != TmpPath(q)
    ensures BackupPath(p) != p && TmpPath(p) != p
  {
    if BackupPath(p) == BackupPath(q) {
      WithFileNameInjective(p, q, BAK);
    }
    if TmpPath(p) == TmpPath(q) {
      WithFileNameInjective(p, q, TMP);
    }
    var b, m := BackupPath(p), TmpPath(q);
    var bn, mn := FileName(p) + BAK, FileName(q) + TMP;
    assert b[|b| - 1] == Normal(bn) && m[|m| - 1] == Normal(mn);
    assert bn[|bn| - 1] == 'k' && mn[|mn| - 1] == 'p';
    if HasName(p) {
      assert p[|p| - 1].name != FileName(p) + BAK && p[|p| - 1].name != FileName(p) + TMP;
    }
  }
}
