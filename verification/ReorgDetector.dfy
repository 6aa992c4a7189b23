/** The window of known blocks and the walk back to it (watcher/src/chain/reorg-detector.ts). */
module ReorgDetector {
  import opened BlockTree

  /** A stable sort by ascending key. */
  function SortBy(s: seq<Block>, key: Block -> int): seq<Block> {
    if s == [] then [] else InsertBy(SortBy(s[..|s| - 1], key), s[|s| - 1], key)
  }

  function InsertBy(s: seq<Block>, x: Block, key: Block -> int): seq<Block> {
    if s == [] || key(s[|s| - 1]) <= key(x) then s + [x]
    else InsertBy(s[..|s| - 1], x, key) + [s[|s| - 1]]
  }

  predicate KeysAscend(s: seq<Block>, key: Block -> int) {
    forall j, k :: 0 <= j < k < |s| ==> key(s[j]) <= key(s[k])
  }

  lemma {:induction false} SortedStays(s: seq<Block>, key: Block -> int)
    requires KeysAscend(s, key)
    ensures SortBy(s, key) == s
  {
    if s != [] { SortedStays(s[..|s| - 1], key); }
  }

  lemma {:induction false} InsertFront(s: seq<Block>, x: Block, key: Block -> int)
    requires forall k :: 0 <= k < |s| ==> key(x) < key(s[k])
    ensures InsertBy(s, x, key) == [x] + s
  {
    if s != [] {
      InsertFront(s[..|s| - 1], x, key);
      assert [x] + s[..|s| - 1] + [s[|s| - 1]] == [x] + s;
    }
  }

  lemma {:induction false} InsertBound(s: seq<Block>, x: Block, key: Block -> int, max: int)
    requires key(x) <= max && forall k :: 0 <= k < |s| ==> key(s[k]) <= max
    ensures forall k :: 0 <= k < |InsertBy(s, x, key)| ==> key(InsertBy(s, x, key)[k]) <= max
  {
    if s != [] && key(s[|s| - 1]) > key(x) { InsertBound(s[..|s| - 1], x, key, max); }
  }

  lemma {:induction false} InsertIsPermutation(s: seq<Block>, x: Block, key: Block -> int)
    ensures multiset(InsertBy(s, x, key)) == multiset(s) + multiset{x}
  {
    if s != [] && key(s[|s| - 1]) > key(x) {
      InsertIsPermutation(s[..|s| - 1], x, key);
      assert s == s[..|s| - 1] + [s[|s| - 1]];
    }
  }

  lemma {:induction false} InsertSorts(s: seq<Block>, x: Block, key: Block -> int)
    requires KeysAscend(s, key)
    ensures KeysAscend(InsertBy(s, x, key), key)
  {
    if s != [] && key(s[|s| - 1]) > key(x) {
      var n := |s| - 1;
      InsertSorts(s[..n], x, key);
      InsertBound(s[..n], x, key, key(s[n]));
    }
  }

  /** The sort really sorts: same blocks, keys ascending. */
  lemma {:induction false} SortIsPermutation(s: seq<Block>, key: Block -> int)
    ensures KeysAscend(SortBy(s, key), key) && multiset(SortBy(s, key)) == multiset(s)
  {
    if s != [] {
      var n := |s| - 1;
      SortIsPermutation(s[..n], key);
      InsertIsPermutation(SortBy(s[..n], key), s[n], key);
      InsertSorts(SortBy(s[..n], key), s[n], key);
      assert s == s[..n] + [s[n]];
    }
  }

  function Above(window: seq<Block>, height: int): seq<Block> {
    if window == [] then []
    else
      var n := |window| - 1;
      Above(window[..n], height) + if Height(window[n]) > height then [window[n]] else []
  }

  lemma {:induction false} AboveMeans(window: seq<Block>, height: int, b: Block)
    ensures b in Above(window, height) <==> b in window && Height(b) > height
  {
    if window != [] {
      var n := |window| - 1;
      AboveMeans(window[..n], height, b);
      assert window == window[..n] + [window[n]];
    }
  }

  /** Add a block at the end unless it is known, and drop everything more than `depth` below it. */
  function Import(window: seq<Block>, depth: nat, b: Block): seq<Block> {
    Above(if b in window then window else window + [b], Height(b) as int - depth - 1)
  }

  /** Every known block, the new one included, that is not more than `depth` below it stays, and every lower one goes. */
  lemma ImportMeans(window: seq<Block>, depth: nat, b: Block)
    ensures forall x :: x in Import(window, depth, b) <==> (x in window || x == b) && Height(x) as int >= Height(b) as int - depth
  {
    forall x ensures x in Import(window, depth, b) <==> (x in window || x == b) && Height(x) as int >= Height(b) as int - depth {
      AboveMeans(if b in window then window else window + [b], Height(b) as int - depth - 1, x);
    }
  }

  // ── What a window has to hold ────────────────────────────────────────────

  /** No known block is more than `depth` above this height. */
  predicate NearTop(window: seq<Block>, depth: nat, height: nat) {
    forall z :: z in window ==> Height(z) - height <= depth
  }

  /** x and its ancestors are known, down to the floor and as far as nothing known is more than `depth` above them. */
  predicate Holds(window: seq<Block>, depth: nat, floor: int, x: Block) {
    && (Height(x) >= floor && NearTop(window, depth, Height(x)) ==> x in window)
    && (x.Child? ==> Holds(window, depth, floor, x.parent))
  }

  /** With every known block its ancestors are known that far. */
  predicate Closed(window: seq<Block>, depth: nat, floor: int) {
    HoldsAll(window, depth, floor, window)
  }

  predicate HoldsAll(window: seq<Block>, depth: nat, floor: int, xs: seq<Block>) {
    xs == [] || (HoldsAll(window, depth, floor, xs[..|xs| - 1]) && Holds(window, depth, floor, xs[|xs| - 1]))
  }

  lemma {:induction false} HoldsAllMeans(window: seq<Block>, depth: nat, floor: int, xs: seq<Block>)
    ensures HoldsAll(window, depth, floor, xs) <==> forall x :: x in xs ==> Holds(window, depth, floor, x)
  {
    if xs != [] {
      var n := |xs| - 1;
      HoldsAllMeans(window, depth, floor, xs[..n]);
      assert xs == xs[..n] + [xs[n]];
      assert xs[n] in xs;
    }
  }

  lemma {:induction false} HeldAncestor(window: seq<Block>, depth: nat, floor: int, x: Block, f: Block)
    requires Holds(window, depth, floor, x) && Ancestor(f, x) && Height(f) >= floor && NearTop(window, depth, Height(f))
    ensures f in window
  {
    if f != x { HeldAncestor(window, depth, floor, x.parent, f); }
  }

  lemma {:induction false} HoldsBelowFloor(window: seq<Block>, depth: nat, floor: int, x: Block)
    requires Height(x) < floor
    ensures Holds(window, depth, floor, x)
  {
    if x.Child? { HoldsBelowFloor(window, depth, floor, x.parent); }
  }

  lemma {:induction false} HoldsHigher(window: seq<Block>, depth: nat, floor: int, higher: int, x: Block)
    requires floor <= higher && Holds(window, depth, floor, x)
    ensures Holds(window, depth, higher, x)
  {
    if x.Child? { HoldsHigher(window, depth, floor, higher, x.parent); }
  }

  lemma ClosedHigher(window: seq<Block>, depth: nat, floor: int, higher: int)
    requires Closed(window, depth, floor)
    ensures floor <= higher ==> Closed(window, depth, higher)
  {
    if floor <= higher {
      HoldsAllMeans(window, depth, floor, window);
      HoldsAllMeans(window, depth, higher, window);
      forall x | x in window ensures Holds(window, depth, higher, x) { HoldsHigher(window, depth, floor, higher, x); }
    }
  }

  /** What is held stays held when a block joins, */
  lemma {:induction false} HoldsStill(window: seq<Block>, depth: nat, floor: int, b: Block, x: Block)
    requires Holds(window, depth, floor, x)
    ensures Holds(Import(window, depth, b), depth, floor, x)
  {
    var after := Import(window, depth, b);
    ImportMeans(window, depth, b);
    if x.Child? { HoldsStill(window, depth, floor, b, x.parent); }
    if Height(x) >= floor && NearTop(after, depth, Height(x)) {
      assert b in after;
      forall z | z in window ensures Height(z) - Height(x) <= depth {
        if z !in after { assert Height(z) < Height(b) - depth <= Height(x); }
      }
      assert NearTop(window, depth, Height(x));
    }
  }

  /** The block is held already, or its parent is, or nothing below it is asked for. */
  predicate CanJoin(window: seq<Block>, depth: nat, floor: int, b: Block) {
    Holds(window, depth, floor, b) || (b.Child? && Holds(window, depth, floor, b.parent)) || Height(b) <= floor
  }

  /** ...and the block is held too when its parent was, or nothing below it is asked for. */
  lemma HoldsNew(window: seq<Block>, depth: nat, floor: int, b: Block)
    requires CanJoin(window, depth, floor, b)
    ensures Holds(Import(window, depth, b), depth, floor, b)
  {
    ImportMeans(window, depth, b);
    if Holds(window, depth, floor, b) {
      HoldsStill(window, depth, floor, b, b);
    } else if b.Child? && Holds(window, depth, floor, b.parent) {
      HoldsStill(window, depth, floor, b, b.parent);
    } else if b.Child? {
      HoldsBelowFloor(Import(window, depth, b), depth, floor, b.parent);
    }
  }

  lemma ClosedStill(window: seq<Block>, depth: nat, floor: int, b: Block)
    requires Closed(window, depth, floor) && CanJoin(window, depth, floor, b)
    ensures Closed(Import(window, depth, b), depth, floor)
  {
    ImportMeans(window, depth, b);
    HoldsAllMeans(window, depth, floor, window);
    HoldsAllMeans(Import(window, depth, b), depth, floor, Import(window, depth, b));
    forall x | x in Import(window, depth, b) ensures Holds(Import(window, depth, b), depth, floor, x) {
      if x in window { HoldsStill(window, depth, floor, b, x); } else { HoldsNew(window, depth, floor, b); }
    }
  }

  predicate HasKnown(window: seq<Block>, tip: Block) {
    tip in window || (tip.Child? && HasKnown(window, tip.parent))
  }

  lemma {:induction false} HasKnownMeans(window: seq<Block>, tip: Block)
    ensures HasKnown(window, tip) <==> exists b :: b in window && Ancestor(b, tip)
  {
    if tip !in window && tip.Child? { HasKnownMeans(window, tip.parent); }
  }

  datatype Diff =
    | Unchanged
    | Changed(orphaned: seq<Block>, added: seq<Block>, commonAncestor: Block)
    | TooFar
    | NoCommonAncestor
    | NodeError

  /** The known blocks above the ancestor, highest first. */
  function Orphans(window: seq<Block>, ancestor: Block): seq<Block> {
    SortBy(Above(window, Height(ancestor)), (b: Block) => 0 - (Height(b) as int))
  }

  lemma OrphansAre(window: seq<Block>, ancestor: Block, b: Block)
    ensures b in Orphans(window, ancestor) <==> b in window && Height(b) > Height(ancestor)
  {
    var key := (b: Block) => 0 - (Height(b) as int);
    AboveMeans(window, Height(ancestor), b);
    SortIsPermutation(Above(window, Height(ancestor)), key);
    assert b in Above(window, Height(ancestor)) <==> b in multiset(Above(window, Height(ancestor)));
    assert b in Orphans(window, ancestor) <==> b in multiset(Orphans(window, ancestor));
  }

  class ReorgDetector {
    const depth: nat
    var window: seq<Block>

    constructor (depth: nat)
      ensures this.depth == depth && window == []
    {
      this.depth, window := depth, [];
    }

    method AddBlock(b: Block)
      modifies this`window
      ensures window == Import(old(window), depth, b)
      ensures forall x :: x in window <==> (x in old(window) || x == b) && Height(x) as int >= Height(b) as int - depth
    {
      var kept := if b in window then window else window + [b];
      var cutoff := Height(b) as int - depth;
      var pruned: seq<Block> := [];
      for k := 0 to |kept|
        invariant pruned == Above(kept[..k], cutoff - 1)
      {
        assert kept[..k + 1][..k] == kept[..k];
        if Height(kept[k]) >= cutoff { pruned := pruned + [kept[k]]; }
      }
      assert kept[..|kept|] == kept;
      window := pruned;
      ImportMeans(old(window), depth, b);
    }

    /**
     * Walk back from the new tip to the nearest known block. The walk ends by height; it gives up only when
     * no known ancestor lies within maxWalk, or none exists at all, or the node fails.
     */
    method ComputeDiff(newTip: Block, oldTip: Block, maxWalk: nat, bounded: bool, healthy: bool) returns (d: Diff)
      ensures d.Unchanged? <==> newTip == oldTip
      ensures d.Changed? ==>
        && HasKnown(window, newTip) && d.commonAncestor in window && Ancestor(d.commonAncestor, newTip)
        && (forall b :: b in window && Ancestor(b, newTip) ==> Height(b) <= Height(d.commonAncestor))
        && d.added == Path(d.commonAncestor, newTip)
        && d.orphaned == Orphans(window, d.commonAncestor) && (bounded ==> |d.added| <= maxWalk)
      ensures d.TooFar? ==> bounded && forall b :: b in window && Ancestor(b, newTip) ==> Height(newTip) - Height(b) > maxWalk
      ensures d.NoCommonAncestor? ==> !HasKnown(window, newTip)
      ensures d.NodeError? ==> !healthy
    {
      if newTip == oldTip { return Unchanged; }
      var added: seq<Block> := [];
      var cursor := newTip;
      var key := b => Height(b);
      while cursor !in window
        invariant Ancestor(cursor, newTip) && |added| == Height(newTip) - Height(cursor) && (bounded ==> |added| <= maxWalk)
        invariant forall b :: b in window && Ancestor(b, newTip) ==> Ancestor(b, cursor)
        invariant SortBy(added, key) == Path(cursor, newTip)
        decreases Height(cursor)
      {
        if bounded && |added| >= maxWalk {
          NoneWithin(window, cursor, newTip);
          return TooFar;
        }
        var failed: bool := *;
        if failed && !healthy { return NodeError; }
        Walked(cursor, newTip, added, key);
        added := added + [cursor];
        if cursor.Root? {
          HasKnownMeans(window, newTip);
          return NoCommonAncestor;
        }
        cursor := cursor.parent;
      }
      HasKnownMeans(window, newTip);
      AllBelow(window, cursor, newTip);
      AncestorHeight(cursor, newTip);
      d := Changed(Orphans(window, cursor), SortBy(added, key), cursor);
    }
  }

  lemma AllBelow(window: seq<Block>, cursor: Block, tip: Block)
    requires forall b :: b in window && Ancestor(b, tip) ==> Ancestor(b, cursor)
    ensures forall b :: b in window && Ancestor(b, tip) ==> Height(b) <= Height(cursor)
  {
    forall b | b in window && Ancestor(b, tip) ensures Height(b) <= Height(cursor) { AncestorHeight(b, cursor); }
  }

  lemma NoneWithin(window: seq<Block>, cursor: Block, tip: Block)
    requires cursor !in window && forall b :: b in window && Ancestor(b, tip) ==> Ancestor(b, cursor)
    ensures forall b :: b in window && Ancestor(b, tip) ==> Height(tip) - Height(b) > Height(tip) - Height(cursor)
  {
    forall b | b in window && Ancestor(b, tip) ensures Height(b) < Height(cursor) { AncestorHeight(b, cursor); }
  }

  /** Collecting one block more, below all others, puts it in front after sorting. */
  lemma Walked(cursor: Block, tip: Block, added: seq<Block>, key: Block -> int)
    requires Ancestor(cursor, tip) && SortBy(added, key) == Path(cursor, tip) && key == (b => Height(b))
    ensures cursor.Child? ==> Ancestor(cursor.parent, tip) && SortBy(added + [cursor], key) == Path(cursor.parent, tip)
  {
    if cursor.Child? {
      assert (added + [cursor])[..|added|] == added;
      forall k | 0 <= k < |Path(cursor, tip)| ensures key(cursor) < key(Path(cursor, tip)[k]) { PathAt(cursor, tip, k); }
      InsertFront(Path(cursor, tip), cursor, key);
      PathFront(cursor, tip);
    }
  }
}
