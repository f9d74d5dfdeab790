/** Paths as a base with joined components, in the order an ordered map keeps them. A base,
    such as the empty path or a file system root, has no parent and no file name. */
module Paths {
  import opened Ordering

  datatype Path = Base(text: string) | Join(parent: Path, name: string)

  function Components(p: Path): (c: seq<string>)
    ensures c != []
  {
    match p
    case Base(text) => [text]
    case Join(parent, name) => Components(parent) + [name]
  }

  /** Paths compare component by component. */
  predicate PathLess(a: Path, b: Path) {
    ListLess(Components(a), Components(b))
  }

  lemma {:induction false} ComponentsInjective(a: Path, b: Path)
    requires Components(a) == Components(b)
    ensures a == b
  {
    var c := Components(a);
    if a.Join? && b.Join? {
      assert c[..|c| - 1] == Components(a.parent) == Components(b.parent);
      assert c[|c| - 1] == a.name == b.name;
      ComponentsInjective(a.parent, b.parent);
    } else if a.Join? || b.Join? {
      assert false;
    }
  }

  lemma PathLessIsTotal()
    ensures StrictTotal(PathLess)
  {
    ListLessIsTotal();
    forall a, b ensures a == b || PathLess(a, b) || PathLess(b, a) {
      if Components(a) == Components(b) {
        ComponentsInjective(a, b);
      }
    }
    forall a, b, c | PathLess(a, b) && PathLess(b, c) ensures PathLess(a, c) {
    }
  }

  /** The paths of a set in ascending order. */
  function SortedPaths(paths: set<Path>): (r: seq<Path>)
    ensures forall p :: p in r <==> p in paths
    ensures Ascending(PathLess, r)
  {
    PathLessIsTotal();
    Sorted(PathLess, paths)
  }
}
