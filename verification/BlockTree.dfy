/** The node's blocks. A hash stands for the block and all its ancestors, so equal hashes are equal chains. */
module BlockTree {

  datatype Block = Root(name: nat) | Child(parent: Block, name: nat)

  function Height(b: Block): nat {
    if b.Root? then 0 else Height(b.parent) + 1
  }

  /** a is b or one of its ancestors. */
  predicate Ancestor(a: Block, b: Block) {
    a == b || (b.Child? && Ancestor(a, b.parent))
  }

  /** The blocks after a up to b, lowest first. */
  function Path(a: Block, b: Block): (p: seq<Block>)
    requires Ancestor(a, b)
    ensures a != b ==> p != [] && p[|p| - 1] == b
  {
    if a == b then [] else Path(a, b.parent) + [b]
  }

  lemma {:induction false} AncestorHeight(a: Block, b: Block)
    requires Ancestor(a, b)
    ensures Height(a) <= Height(b) && (Height(a) == Height(b) ==> a == b)
    ensures |Path(a, b)| == Height(b) - Height(a)
  {
    if a != b { AncestorHeight(a, b.parent); }
  }

  lemma {:induction false} AncestorTransitive(a: Block, b: Block, c: Block)
    requires Ancestor(a, b) && Ancestor(b, c)
    ensures Ancestor(a, c)
  {
    if b != c { AncestorTransitive(a, b, c.parent); }
  }

  /** Two ancestors of one block are on one line. */
  lemma {:induction false} AncestorsComparable(a: Block, b: Block, c: Block)
    requires Ancestor(a, c) && Ancestor(b, c)
    ensures Height(a) <= Height(b) ==> Ancestor(a, b)
    ensures Height(a) == Height(b) ==> a == b
  {
    if a == c {
      AncestorHeight(b, c);
    } else if b == c {
      AncestorHeight(a, c);
    } else {
      AncestorsComparable(a, b, c.parent);
    }
  }

  lemma {:induction false} PathFront(a: Block, b: Block)
    requires a.Child? && Ancestor(a, b)
    ensures Ancestor(a.parent, b) && Path(a.parent, b) == [a] + Path(a, b)
  {
    if a == b {
      AncestorTransitive(a.parent, a, b);
      assert a.parent != a by { assert Height(a.parent) < Height(a); }
    } else {
      PathFront(a, b.parent);
      assert a.parent != b by { AncestorHeight(a, b); }
    }
  }

  lemma {:induction false} PathAt(a: Block, b: Block, k: nat)
    requires Ancestor(a, b) && k < |Path(a, b)|
    ensures var x := Path(a, b)[k];
      && x.Child? && Ancestor(a, x) && x != a && Ancestor(x, b) && Height(x) == Height(a) + 1 + k
      && x.parent == (if k == 0 then a else Path(a, b)[k - 1])
  {
    AncestorHeight(a, b.parent);
    if k < |Path(a, b.parent)| {
      PathAt(a, b.parent, k);
    } else if k > 0 {
      PathAt(a, b.parent, k - 1);
    }
  }

  /** The highest block two blocks share. */
  ghost predicate IsFork(f: Block, a: Block, b: Block) {
    Ancestor(f, a) && Ancestor(f, b) && forall g :: Ancestor(g, a) && Ancestor(g, b) ==> Height(g) <= Height(f)
  }
}
