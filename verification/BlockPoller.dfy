/** Following the node's tip, and catching up after being down (watcher/src/chain/block-poller.ts). */
module BlockPoller {
  import opened BlockTree
  import opened Coins
  import opened ReorgDetector
  import opened Watcher

  datatype CatchUpResult =
    | CaughtUp(replayed: nat, orphaned: nat, tipHeight: nat)
    | CatchUpTooFar(pending: int)
    | NodeBehindCursor
    | NoAncestorFound
    | Failed

  function OrphanEvents(bs: seq<Block>): (es: seq<Event>)
    ensures |es| == |bs| && forall k :: 0 <= k < |bs| ==> es[k] == Orphaned(bs[k])
  {
    seq(|bs|, k requires 0 <= k < |bs| => Orphaned(bs[k]))
  }

  function BlockEvents(bs: seq<Block>): (es: seq<Event>)
    ensures |es| == |bs| && forall k :: 0 <= k < |bs| ==> es[k] == Handled(bs[k])
  {
    seq(|bs|, k requires 0 <= k < |bs| => Handled(bs[k]))
  }

  /** The events a change of tip calls for. */
  function EventsOf(d: Diff): seq<Event> {
    if d.Changed? then OrphanEvents(d.orphaned) + BlockEvents(d.added) else []
  }

  /** healthy: no call fails; recordedAll: whether everything in a block could be recorded. */
  datatype Env = Env(healthy: bool, recordedAll: Block -> bool)

  // ── The seeded window ────────────────────────────────────────────────────

  /** c and its ancestors, n blocks in all, highest first. */
  function Seeds(c: Option<Block>, n: nat): seq<Block>
    decreases n
  {
    if n == 0 || c.None? then [] else [c.value] + Seeds(Parent(c.value), n - 1)
  }

  function Parent(b: Block): Option<Block> {
    if b.Root? then None else Some(b.parent)
  }

  /** The blocks from c down to, not including, f. */
  function Descent(f: Block, c: Block): seq<Block>
    requires Ancestor(f, c)
  {
    if f == c then [] else [c] + Descent(f, c.parent)
  }

  lemma {:induction false} SeedsAre(c: Block, n: nat, b: Block)
    ensures b in Seeds(Some(c), n) <==> Ancestor(b, c) && Height(c) - Height(b) < n
  {
    if n > 0 {
      if c.Child? { SeedsAre(c.parent, n - 1, b); }
      if Ancestor(b, c) { AncestorHeight(b, c); }
      assert Seeds(Parent(c), n - 1) == [] || c.Child?;
    } else if Ancestor(b, c) {
      AncestorHeight(b, c);
    }
  }

  lemma {:induction false} AboveCons(c: Block, rest: seq<Block>, height: int)
    ensures Above([c] + rest, height) == (if Height(c) > height then [c] else []) + Above(rest, height)
  {
    var s, n := [c] + rest, |rest|;
    if n == 0 {
      assert s[..0] == [] && s == [c];
    } else {
      AboveCons(c, rest[..n - 1], height);
      assert s[..n] == [c] + rest[..n - 1] && s[n] == rest[n - 1];
    }
  }

  lemma {:induction false} AboveAll(s: seq<Block>, height: int)
    requires forall k :: 0 <= k < |s| ==> Height(s[k]) > height
    ensures Above(s, height) == s
  {
    if s != [] { AboveAll(s[..|s| - 1], height); }
  }

  lemma {:induction false} AboveNone(s: seq<Block>, height: int)
    requires forall k :: 0 <= k < |s| ==> Height(s[k]) <= height
    ensures Above(s, height) == []
  {
    if s != [] { AboveNone(s[..|s| - 1], height); }
  }

  lemma ImportKeeps(window: seq<Block>, depth: nat, b: Block)
    requires forall x :: x in window ==> Height(x) > Height(b)
    ensures Import(window, depth, b) == window + [b]
  {
    var kept := window + [b];
    forall k | 0 <= k < |kept| ensures Height(kept[k]) > Height(b) as int - depth - 1 {
      if k < |window| { assert window[k] in window; }
    }
    assert b !in window;
    AboveAll(kept, Height(b) as int - depth - 1);
  }

  lemma {:induction false} SeedsLow(c: Option<Block>, n: nat)
    ensures forall k :: 0 <= k < |Seeds(c, n)| ==> Height(Seeds(c, n)[k]) <= Height(c.value)
    decreases n
  {
    if n > 0 && c.Some? { SeedsLow(Parent(c.value), n - 1); }
  }

  /** Of the seeds, exactly those on the cursor's branch above f, highest first. */
  lemma {:induction false} SeedsAbove(c: Block, n: nat, f: Block)
    requires Ancestor(f, c) && Height(c) - Height(f) < n
    ensures Above(Seeds(Some(c), n), Height(f)) == Descent(f, c)
  {
    AncestorHeight(f, c);
    var rest := Seeds(Parent(c), n - 1);
    AboveCons(c, rest, Height(f));
    if f == c {
      SeedsLow(Parent(c), n - 1);
      AboveNone(rest, Height(f));
    } else {
      AncestorHeight(f, c.parent);
      SeedsAbove(c.parent, n - 1, f);
    }
  }

  lemma {:induction false} DescentFalls(f: Block, c: Block)
    requires Ancestor(f, c)
    ensures KeysAscend(Descent(f, c), (b: Block) => 0 - (Height(b) as int))
    ensures |Descent(f, c)| == Height(c) - Height(f)
    ensures forall b :: b in Descent(f, c) ==> Height(b) <= Height(c)
  {
    if f != c { DescentFalls(f, c.parent); }
  }

  /** A window seeded from the cursor orphans exactly the cursor's branch, from the cursor down to the fork. */
  lemma SeedsOrphan(c: Block, n: nat, f: Block)
    requires Ancestor(f, c) && Height(c) - Height(f) < n
    ensures Orphans(Seeds(Some(c), n), f) == Descent(f, c)
  {
    SeedsAbove(c, n, f);
    DescentFalls(f, c);
    SortedStays(Descent(f, c), (b: Block) => 0 - (Height(b) as int));
  }

  /** The seeds hold the cursor and their own ancestors down to the last of them. */
  lemma SeedsClosed(c: Block, n: nat)
    ensures Closed(Seeds(Some(c), n), n, Height(c) - n + 1) && Holds(Seeds(Some(c), n), n, Height(c) - n + 1, c)
  {
    SeedsHold(c, n, c);
    SeedsHoldTo(c, n, |Seeds(Some(c), n)|);
    var seeds := Seeds(Some(c), n);
    assert seeds[..|seeds|] == seeds;
  }

  lemma {:induction false} SeedsHoldTo(c: Block, n: nat, k: nat)
    requires k <= |Seeds(Some(c), n)|
    ensures HoldsAll(Seeds(Some(c), n), n, Height(c) - n + 1, Seeds(Some(c), n)[..k])
  {
    if k > 0 {
      var seeds := Seeds(Some(c), n);
      SeedsHoldTo(c, n, k - 1);
      SeedHolds(c, n, seeds[k - 1]);
      assert seeds[..k][..k - 1] == seeds[..k - 1];
    }
  }

  lemma SeedHolds(c: Block, n: nat, x: Block)
    requires x in Seeds(Some(c), n)
    ensures Holds(Seeds(Some(c), n), n, Height(c) - n + 1, x)
  {
    SeedsAre(c, n, x);
    SeedsHold(c, n, x);
  }

  /** One seed more taken over. */
  lemma SeedTaken(before: seq<Block>, header: Option<Block>, n: nat)
    requires header.Some? && n > 0
    ensures before + Seeds(header, n) == (before + [header.value]) + Seeds(Parent(header.value), n - 1)
  {
  }

  lemma {:induction false} SeedsHold(c: Block, n: nat, x: Block)
    requires Ancestor(x, c)
    ensures Holds(Seeds(Some(c), n), n, Height(c) - n + 1, x)
  {
    SeedsAre(c, n, x);
    if x.Child? {
      AncestorTransitive(x.parent, x, c);
      SeedsHold(c, n, x.parent);
    }
  }

  /** The nearest seeded ancestor of the tip is the fork itself. */
  lemma NearestIsFork(c: Block, n: nat, tip: Block, f: Block, a: Block)
    requires IsFork(f, tip, c) && Height(c) - Height(f) < n
    requires a in Seeds(Some(c), n) && Ancestor(a, tip)
    requires forall b :: b in Seeds(Some(c), n) && Ancestor(b, tip) ==> Height(b) <= Height(a)
    ensures a == f
  {
    SeedsAre(c, n, a);
    SeedsAre(c, n, f);
    AncestorsComparable(a, f, tip);
  }

  /** When the cursor's branch forks off within reach, this is all that catching up does. */
  ghost predicate ReachesFork(f: Block, tip: Block, c: Block, reorgDepth: nat) {
    IsFork(f, tip, c) && Height(c) - Height(f) < reorgDepth
  }

  /** What the walk promises about its answer. */
  ghost predicate Explains(d: Diff, window: seq<Block>, newTip: Block, maxWalk: nat, bounded: bool) {
    && (d.Changed? ==>
          && d.commonAncestor in window && Ancestor(d.commonAncestor, newTip)
          && (forall b :: b in window && Ancestor(b, newTip) ==> Height(b) <= Height(d.commonAncestor))
          && d.added == Path(d.commonAncestor, newTip)
          && d.orphaned == Orphans(window, d.commonAncestor))
    && (d.TooFar? ==> bounded && forall b :: b in window && Ancestor(b, newTip) ==> Height(newTip) - Height(b) > maxWalk)
    && (d.NoCommonAncestor? ==> forall b :: b in window ==> !Ancestor(b, newTip))
  }

  /** One end of the walk for each fork the seeds reach, and none at all for a tip behind the cursor. */
  lemma CatchUpExplained(c: Block, tip: Block, d: Diff, reorgDepth: nat, maxWalk: nat)
    requires d.Unchanged? <==> c == tip
    requires Explains(d, Seeds(Some(c), reorgDepth), tip, maxWalk, true)
    requires maxWalk >= reorgDepth && maxWalk >= Height(tip) - Height(c) + reorgDepth
    ensures forall f | ReachesFork(f, tip, c, reorgDepth) ::
      && !d.TooFar? && !d.NoCommonAncestor?
      && (d.Unchanged? || d.Changed? ==> EventsOf(d) == Replayed(f, tip, c))
      && (d.Unchanged? ==> Descent(f, c) == [] && Path(f, tip) == [])
      && (d.Changed? ==> d.orphaned == Descent(f, c) && d.added == Path(f, tip))
    ensures Ancestor(tip, c) && tip != c && tip !in Seeds(Some(c), reorgDepth) ==> !d.Changed? && !d.Unchanged?
  {
    forall f | ReachesFork(f, tip, c, reorgDepth)
      ensures !d.TooFar? && !d.NoCommonAncestor?
      ensures d.Unchanged? ==> f == c
      ensures d.Changed? ==> d.orphaned == Descent(f, c) && d.added == Path(f, tip)
    {
      SeedsAre(c, reorgDepth, f);
      AncestorHeight(f, c);
      AncestorHeight(f, tip);
      if d.Changed? {
        NearestIsFork(c, reorgDepth, tip, f, d.commonAncestor);
        SeedsOrphan(c, reorgDepth, f);
      }
    }
    if d.Changed? {
      SeedsAre(c, reorgDepth, d.commonAncestor);
      SeedsAre(c, reorgDepth, tip);
      AncestorHeight(d.commonAncestor, tip);
    }
  }

  function Replayed(f: Block, tip: Block, c: Block): seq<Event>
    requires Ancestor(f, tip) && Ancestor(f, c)
  {
    OrphanEvents(Descent(f, c)) + BlockEvents(Path(f, tip))
  }

  /** Stale blocks from the cursor down to the fork, then the blocks from the fork up to the tip, and nothing else. */
  ghost predicate ExactlyReplayed(r: CatchUpResult, before: seq<Event>, after: seq<Event>, c: Block, tip: Block, reorgDepth: nat) {
    forall f | ReachesFork(f, tip, c, reorgDepth) ::
      && !r.NoAncestorFound?
      && (r.CaughtUp? ==>
            && after == before + Replayed(f, tip, c)
            && r.orphaned == |Descent(f, c)| && r.replayed == |Path(f, tip)|)
  }

  ghost predicate QuietWhenBehind(r: CatchUpResult, before: seq<Event>, after: seq<Event>, c: Block, tip: Block) {
    Ancestor(tip, c) && tip != c ==> !r.CaughtUp? && after == before
  }

  /** With nothing failing, catching up succeeds whenever the fork is within reach and the work within the limit. */
  ghost predicate Succeeds(r: CatchUpResult, c: Block, tip: Block, reorgDepth: nat, maxBlocks: nat) {
    && (Height(tip) - Height(c) <= maxBlocks && !(Ancestor(tip, c) && tip != c) && (exists f :: ReachesFork(f, tip, c, reorgDepth)) ==> r.CaughtUp?)
    && (Height(tip) - Height(c) > maxBlocks <==> r.CatchUpTooFar?)
  }

  function ResultOf(d: Diff, done: bool, tipHeight: nat): CatchUpResult {
    if done then CaughtUp(if d.Changed? then |d.added| else 0, if d.Changed? then |d.orphaned| else 0, tipHeight)
    else if d.TooFar? || d.NoCommonAncestor? then NoAncestorFound
    else Failed
  }

  lemma ReplayMeans(before: seq<Event>, after: seq<Event>, d: Diff, done: bool, c: Block, tip: Block, reorgDepth: nat, maxWalk: nat)
    requires (d.Unchanged? <==> c == tip) && Explains(d, Seeds(Some(c), reorgDepth), tip, maxWalk, true)
    requires maxWalk >= reorgDepth && maxWalk >= Height(tip) - Height(c) + reorgDepth
    requires Height(tip) < Height(c) ==> tip !in Seeds(Some(c), reorgDepth)
    requires before <= after <= before + EventsOf(d)
    requires done ==> (d.Unchanged? || d.Changed?) && after == before + EventsOf(d)
    ensures ExactlyReplayed(ResultOf(d, done, Height(tip)), before, after, c, tip, reorgDepth)
    ensures QuietWhenBehind(ResultOf(d, done, Height(tip)), before, after, c, tip)
  {
    CatchUpExplained(c, tip, d, reorgDepth, maxWalk);
    if Ancestor(tip, c) { AncestorHeight(tip, c); }
  }

  // ── A fork the window has forgotten ──────────────────────────────────────

  /** Blocks imported one after the other, the last one first in the list. */
  function ImportAll(window: seq<Block>, depth: nat, newestFirst: seq<Block>): seq<Block> {
    if newestFirst == [] then window else Import(ImportAll(window, depth, newestFirst[1..]), depth, newestFirst[0])
  }

  const R := Root(0)
  const B1 := Child(R, 1)
  const B2 := Child(B1, 1)
  const B3 := Child(B2, 1)
  const B4 := Child(B3, 1)
  const B5 := Child(B4, 1)
  const C3 := Child(B2, 2)
  const D2 := Child(B1, 2)

  /** The heights five down to zero, and what is left of them within three below the top. */
  lemma MainBranch()
    ensures forall x :: x in ImportAll([], 3, [B5, B4, B3, B2, B1, R]) <==> x in {B5, B4, B3, B2}
  {
    var w1 := Import([], 3, R);
    var w2 := Import(w1, 3, B1);
    var w3 := Import(w2, 3, B2);
    var w4 := Import(w3, 3, B3);
    var w5 := Import(w4, 3, B4);
    ImportMeans([], 3, R);
    ImportMeans(w1, 3, B1);
    ImportMeans(w2, 3, B2);
    ImportMeans(w3, 3, B3);
    ImportMeans(w4, 3, B4);
    ImportMeans(w5, 3, B5);
    UnfoldSix([], B5, B4, B3, B2, B1, R);
  }

  lemma UnfoldSix(w: seq<Block>, a: Block, b: Block, c: Block, d: Block, e: Block, f: Block)
    ensures ImportAll(w, 3, [a, b, c, d, e, f]) ==
      Import(Import(Import(Import(Import(Import(w, 3, f), 3, e), 3, d), 3, c), 3, b), 3, a)
  {
    assert [a, b, c, d, e, f][1..] == [b, c, d, e, f] && [b, c, d, e, f][1..] == [c, d, e, f] && [c, d, e, f][1..] == [d, e, f];
    assert [d, e, f][1..] == [e, f] && [e, f][1..] == [f] && [f][1..] == [];
    assert ImportAll(w, 3, []) == w;
    assert ImportAll(w, 3, [f]) == Import(w, 3, f);
    assert ImportAll(w, 3, [e, f]) == Import(Import(w, 3, f), 3, e);
    assert ImportAll(w, 3, [d, e, f]) == Import(Import(Import(w, 3, f), 3, e), 3, d);
    assert ImportAll(w, 3, [c, d, e, f]) == Import(ImportAll(w, 3, [d, e, f]), 3, c);
  }

  lemma ShorterBranch(w: seq<Block>)
    requires forall x :: x in w <==> x in {B5, B4, B3, B2}
    ensures forall x :: x in ImportAll(w, 3, [C3, B3, B4, B5]) <==> x in {B5, B4, B3, B2, C3}
  {
    var w1 := Import(w, 3, B5);
    var w2 := Import(w1, 3, B4);
    var w3 := Import(w2, 3, B3);
    ImportMeans(w, 3, B5);
    assert forall x :: x in w1 <==> x in {B5, B4, B3, B2};
    ImportMeans(w1, 3, B4);
    assert forall x :: x in w2 <==> x in {B5, B4, B3, B2};
    ImportMeans(w2, 3, B3);
    assert forall x :: x in w3 <==> x in {B5, B4, B3, B2};
    ImportMeans(w3, 3, C3);
    UnfoldFour(w, C3, B3, B4, B5);
  }

  lemma UnfoldFour(w: seq<Block>, a: Block, b: Block, c: Block, d: Block)
    ensures ImportAll(w, 3, [a, b, c, d]) == Import(Import(Import(Import(w, 3, d), 3, c), 3, b), 3, a)
  {
    assert [a, b, c, d][1..] == [b, c, d] && [b, c, d][1..] == [c, d] && [c, d][1..] == [d] && [d][1..] == [];
    assert ImportAll(w, 3, []) == w;
    assert ImportAll(w, 3, [d]) == Import(w, 3, d);
    assert ImportAll(w, 3, [c, d]) == Import(Import(w, 3, d), 3, c);
  }

  /**
   * Following a branch two blocks shorter, the orphaned top of the longer one still counts: with a depth of three the fork
   * of the next tip, two below the recorded one, is not known any more, and no ancestor of that tip is.
   */
  lemma ShorterBranchForgets()
    ensures var w := ImportAll([], 3, [B5, B4, B3, B2, B1, R]);
      var after := ImportAll(w, 3, [C3, B3, B4, B5]);
      && HasKnown(w, C3) && Ancestor(B1, C3) && Ancestor(B1, D2) && Height(C3) - Height(B1) == 2
      && C3 in after && !HasKnown(after, D2)
  {
    MainBranch();
    ShorterBranch(ImportAll([], 3, [B5, B4, B3, B2, B1, R]));
    NoneKnown(ImportAll(ImportAll([], 3, [B5, B4, B3, B2, B1, R]), 3, [C3, B3, B4, B5]));
    KnownByParent(ImportAll([], 3, [B5, B4, B3, B2, B1, R]));
  }

  lemma NoneKnown(w: seq<Block>)
    requires D2 !in w && B1 !in w && R !in w
    ensures !HasKnown(w, D2)
  {
    assert !HasKnown(w, R);
    assert !HasKnown(w, B1);
  }

  lemma KnownByParent(w: seq<Block>)
    requires B2 in w
    ensures HasKnown(w, C3)
    ensures Ancestor(B1, C3) && Ancestor(B1, D2) && Height(C3) - Height(B1) == 2
  {
    assert Ancestor(B1, B2);
  }

  class BlockPoller {
    const reorgDepth: nat
    const watcher: Watcher
    var detector: ReorgDetector
    var tipHash: Option<Block>

    /** Nothing below this height was ever known to this process: where it started. */
    ghost var floor: int

    constructor (watcher: Watcher, reorgDepth: nat)
      ensures Valid() && this.watcher == watcher && this.reorgDepth == reorgDepth && tipHash.None? && fresh(detector)
      ensures detector.window == []
    {
      this.watcher, this.reorgDepth, tipHash, floor := watcher, reorgDepth, None, 0;
      detector := new ReorgDetector(reorgDepth);
    }

    /**
     * Everything in the window, and the recorded tip, was handled, and finished as long as the cursor is not held. The window
     * holds the tip's ancestors, and those of every known block, as far down as nothing known is more than the depth above.
     */
    ghost predicate Valid()
      reads this, detector, watcher`handled, watcher`complete, watcher`bases, watcher`cursorHeldAt
    {
      && detector.depth == reorgDepth && Closed(detector.window, reorgDepth, floor)
      && (tipHash.Some? ==> Held(tipHash.value))
      && (forall b :: b in detector.window ==> Good(b))
      && (tipHash.Some? ==> watcher.Covered(tipHash.value))
    }

    ghost predicate Held(b: Block)
      reads this`detector, this`floor, detector`window
    {
      Holds(detector.window, reorgDepth, floor, b)
    }

    ghost predicate AllHeld(bs: set<Block>)
      reads this`detector, this`floor, detector`window
    {
      forall b {:trigger b in bs} :: b in bs ==> Held(b)
    }

    /** Nothing known is above this height. */
    predicate AllAtMost(height: nat)
      reads this`detector, detector`window
    {
      forall x :: x in detector.window ==> Height(x) <= height
    }

    /** Add a block that was handled: what was held stays held, and the block is. */
    method Join(b: Block, ghost bs: set<Block>)
      requires Valid() && watcher.Valid() && Good(b) && CanJoin(detector.window, reorgDepth, floor, b) && AllHeld(bs)
      modifies detector
      ensures Valid() && AllHeld(bs) && Held(b)
      ensures forall x :: x in detector.window ==> x in old(detector.window) || x == b
    {
      ImportGood(b, bs);
    }

    method ImportGood(b: Block, ghost bs: set<Block>)
      requires Valid() && watcher.Valid() && Good(b) && CanJoin(detector.window, reorgDepth, floor, b) && AllHeld(bs)
      modifies detector
      ensures Valid() && AllHeld(bs) && Held(b) && detector.window == Import(old(detector.window), reorgDepth, b)
      ensures forall x :: x in detector.window ==> x in old(detector.window) || x == b
    {
      ghost var before := detector.window;
      ClosedStill(before, reorgDepth, floor, b);
      HoldsNew(before, reorgDepth, floor, b);
      if tipHash.Some? { HoldsStill(before, reorgDepth, floor, b, tipHash.value); }
      forall x {:trigger x in bs} | x in bs ensures Holds(Import(before, reorgDepth, b), reorgDepth, floor, x) {
        HoldsStill(before, reorgDepth, floor, b, x);
      }
      detector.AddBlock(b);
    }

    /**
     * Emit what the move to newTip calls for, orphans first; a failure leaves a prefix of it emitted, and the
     * next poll starts from the last good block.
     */
    method AdvanceTo(newTip: Block, maxWalk: nat, bounded: bool, env: Env) returns (d: Diff, done: bool)
      requires Valid() && watcher.Valid() && tipHash.Some?
      modifies this`tipHash, detector, watcher
      ensures Valid() && watcher.Valid() && watcher.Grew() && watcher.bases == old(watcher.bases)
      ensures d.Unchanged? <==> old(tipHash) == Some(newTip)
      ensures Explains(d, old(detector.window), newTip, maxWalk, bounded)
      ensures old(watcher.events) <= watcher.events <= old(watcher.events) + EventsOf(d)
      ensures env.healthy ==> (done <==> d.Unchanged? || d.Changed?) && !d.NodeError?
      ensures done ==> (d.Unchanged? || d.Changed?) && watcher.events == old(watcher.events) + EventsOf(d)
      ensures done && d.Changed? ==> Blocks(d.orphaned) <= watcher.undone
      ensures done ==> tipHash == Some(newTip) && watcher.Covered(newTip)
      ensures !done ==> tipHash == old(tipHash)
      ensures old(AllAtMost(Height(newTip))) ==> AllAtMost(Height(newTip))
    {
      d := FindDiff(newTip, maxWalk, bounded, env);
      done := d.Unchanged?;
      if d.Changed? { done := Emit(d, newTip, env); }
    }

    method FindDiff(newTip: Block, maxWalk: nat, bounded: bool, env: Env) returns (d: Diff)
      requires Valid() && tipHash.Some?
      ensures d.Unchanged? <==> tipHash == Some(newTip)
      ensures Explains(d, detector.window, newTip, maxWalk, bounded)
      ensures env.healthy ==> !d.NodeError?
      ensures d.Changed? ==> CanEmit(d) && forall b :: b in d.orphaned ==> b in detector.window
    {
      d := detector.ComputeDiff(newTip, tipHash.value, maxWalk, bounded, env.healthy);
      HasKnownMeans(detector.window, newTip);
      HoldsAllMeans(detector.window, reorgDepth, floor, detector.window);
      if d.Changed? {
        forall b | b in d.orphaned ensures Good(b) && Held(b) && b in detector.window { OrphansAre(detector.window, d.commonAncestor, b); }
      }
    }

    method Emit(d: Diff, newTip: Block, env: Env) returns (done: bool)
      requires Valid() && watcher.Valid() && d.Changed? && CanEmit(d) && forall b :: b in d.orphaned ==> b in detector.window
      requires Ancestor(d.commonAncestor, newTip) && d.added == Path(d.commonAncestor, newTip)
      modifies this`tipHash, detector, watcher
      ensures Valid() && watcher.Valid() && watcher.Grew() && watcher.bases == old(watcher.bases)
      ensures old(watcher.events) <= watcher.events <= old(watcher.events) + EventsOf(d)
      ensures env.healthy ==> done
      ensures done ==> watcher.events == old(watcher.events) + EventsOf(d) && Blocks(d.orphaned) <= watcher.undone
      ensures done ==> tipHash == Some(newTip) && watcher.Covered(newTip)
      ensures !done ==> tipHash == old(tipHash)
      ensures old(AllAtMost(Height(newTip))) ==> AllAtMost(Height(newTip))
    {
      done := EmitOrphans(d.orphaned, d.commonAncestor, env);
      if done { done := EmitBlocks(d.commonAncestor, newTip, d.added, env); }
    }

    /** Handled, and finished as long as the cursor is not held. */
    ghost predicate Good(b: Block)
      reads watcher`handled, watcher`complete, watcher`bases, watcher`cursorHeldAt
    {
      watcher.Covered(b) && (watcher.cursorHeldAt.None? ==> watcher.Done(b))
    }

    static function Blocks(bs: seq<Block>): set<Block> {
      set b | b in bs
    }

    /** The common ancestor and the orphans are good and held. */
    ghost predicate CanEmit(d: Diff)
      requires d.Changed?
      reads this, detector, watcher`handled, watcher`complete, watcher`bases, watcher`cursorHeldAt
    {
      && Good(d.commonAncestor) && Held(d.commonAncestor)
      && (forall b :: b in d.orphaned ==> Good(b)) && AllHeld(Blocks(d.orphaned))
    }

    method EmitOrphans(orphaned: seq<Block>, ghost ancestor: Block, env: Env) returns (done: bool)
      requires Valid() && watcher.Valid() && Held(ancestor) && (forall b :: b in orphaned ==> Good(b)) && AllHeld(Blocks(orphaned))
      requires forall b :: b in orphaned ==> b in detector.window
      modifies detector, watcher`events, watcher`undone
      ensures Valid() && watcher.Valid() && watcher.Grew() && Held(ancestor)
      ensures forall x :: x in detector.window ==> x in old(detector.window)
      ensures old(watcher.events) <= watcher.events <= old(watcher.events) + OrphanEvents(orphaned)
      ensures env.healthy ==> done
      ensures done ==> watcher.events == old(watcher.events) + OrphanEvents(orphaned) && Blocks(orphaned) <= watcher.undone
    {
      ghost var held := Blocks(orphaned) + {ancestor};
      for k := 0 to |orphaned|
        invariant Valid() && watcher.Valid() && watcher.Grew() && AllHeld(held)
        invariant forall x :: x in detector.window ==> x in old(detector.window)
        invariant watcher.events == old(watcher.events) + OrphanEvents(orphaned)[..k]
        invariant forall j :: 0 <= j < k ==> orphaned[j] in watcher.undone
      {
        assert OrphanEvents(orphaned)[..k + 1] == OrphanEvents(orphaned)[..k] + [Orphaned(orphaned[k])];
        var ok := watcher.OnOrphan(orphaned[k], env.healthy);
        if !ok { return false; }
        assert orphaned[k] in held;
        Join(orphaned[k], held);
      }
      done := true;
    }

    /** Blocks upward from a good one; a block joins the window only after its handler succeeded. */
    method EmitBlocks(ancestor: Block, newTip: Block, added: seq<Block>, env: Env) returns (done: bool)
      requires Valid() && watcher.Valid() && Good(ancestor) && Held(ancestor)
      requires Ancestor(ancestor, newTip) && added == Path(ancestor, newTip)
      modifies this`tipHash, detector, watcher
      ensures Valid() && watcher.Valid() && watcher.Grew() && watcher.bases == old(watcher.bases)
      ensures old(watcher.events) <= watcher.events <= old(watcher.events) + BlockEvents(added)
      ensures env.healthy ==> done
      ensures done ==> watcher.events == old(watcher.events) + BlockEvents(added)
      ensures done ==> tipHash == Some(newTip) && watcher.Covered(newTip)
      ensures !done ==> tipHash == old(tipHash)
      ensures old(AllAtMost(Height(newTip))) ==> AllAtMost(Height(newTip))
    {
      done := EmitPath(ancestor, newTip, added, env);
      if done { tipHash := Some(newTip); }
    }

    method EmitPath(ancestor: Block, newTip: Block, added: seq<Block>, env: Env) returns (done: bool)
      requires Valid() && watcher.Valid() && Good(ancestor) && Held(ancestor)
      requires Ancestor(ancestor, newTip) && added == Path(ancestor, newTip)
      modifies detector, watcher
      ensures Valid() && watcher.Valid() && watcher.Grew() && watcher.bases == old(watcher.bases)
      ensures old(watcher.events) <= watcher.events <= old(watcher.events) + BlockEvents(added)
      ensures env.healthy ==> done
      ensures done ==> watcher.events == old(watcher.events) + BlockEvents(added)
      ensures done ==> Good(newTip) && Held(newTip)
      ensures old(AllAtMost(Height(newTip))) ==> AllAtMost(Height(newTip))
    {
      for k := 0 to |added|
        invariant Valid() && watcher.Valid() && watcher.Grew() && watcher.bases == old(watcher.bases)
        invariant watcher.events == old(watcher.events) + BlockEvents(added)[..k]
        invariant Good(Before(ancestor, added, k)) && Held(Before(ancestor, added, k))
        invariant old(AllAtMost(Height(newTip))) ==> AllAtMost(Height(newTip))
      {
        assert BlockEvents(added)[..k + 1] == BlockEvents(added)[..k] + [Handled(added[k])];
        done := EmitNext(ancestor, newTip, added, k, env);
        if !done { return; }
      }
      assert BlockEvents(added)[..|added|] == BlockEvents(added);
      done := true;
    }

    /** The block the k-th of the path builds on. */
    static function Before(ancestor: Block, added: seq<Block>, k: nat): Block
      requires k <= |added|
    {
      if k == 0 then ancestor else added[k - 1]
    }

    method EmitNext(ancestor: Block, newTip: Block, added: seq<Block>, k: nat, env: Env) returns (done: bool)
      requires Valid() && watcher.Valid() && Ancestor(ancestor, newTip) && added == Path(ancestor, newTip) && k < |added|
      requires Good(Before(ancestor, added, k)) && Held(Before(ancestor, added, k))
      modifies detector, watcher
      ensures Valid() && watcher.Valid() && watcher.Grew() && watcher.bases == old(watcher.bases)
      ensures watcher.events == old(watcher.events) || watcher.events == old(watcher.events) + [Handled(added[k])]
      ensures env.healthy ==> done
      ensures done ==> Good(added[k]) && Held(added[k]) && watcher.events == old(watcher.events) + [Handled(added[k])]
      ensures old(AllAtMost(Height(newTip))) ==> AllAtMost(Height(newTip))
    {
      PathAt(ancestor, newTip, k);
      AncestorHeight(added[k], newTip);
      done := EmitBlock(added[k], env);
    }

    method EmitBlock(b: Block, env: Env) returns (done: bool)
      requires Valid() && watcher.Valid() && b.Child? && Good(b.parent) && Held(b.parent)
      modifies detector, watcher
      ensures Valid() && watcher.Valid() && watcher.Grew() && watcher.bases == old(watcher.bases)
      ensures watcher.events == old(watcher.events) || watcher.events == old(watcher.events) + [Handled(b)]
      ensures env.healthy ==> done
      ensures done ==> Good(b) && Held(b) && watcher.events == old(watcher.events) + [Handled(b)]
      ensures forall x :: x in detector.window ==> x in old(detector.window) || x == b
    {
      var fetched: bool := *;
      if !fetched && !env.healthy { return false; }
      done := watcher.OnBlock(b, env.recordedAll(b), env.healthy);
      watcher.GrewKeeps();
      if done { Join(b, {}); }
    }

    /** A block the new tip and the recorded one share, not below where this process started nor too far below anything known. */
    ghost predicate WithinReach(f: Block, newTip: Block)
      reads this, detector
    {
      && tipHash.Some? && Ancestor(f, newTip) && Ancestor(f, tipHash.value)
      && Height(f) >= floor && NearTop(detector.window, reorgDepth, Height(f))
    }

    /** Nothing known is above the recorded tip. */
    predicate TipOnTop()
      reads this, detector
    {
      tipHash.Some? && AllAtMost(Height(tipHash.value))
    }

    /** ...and then a fork at most the depth below that tip is within reach. */
    lemma ReachFromTop(f: Block, newTip: Block)
      requires TipOnTop() && Ancestor(f, newTip) && Ancestor(f, tipHash.value)
      requires Height(f) >= floor && Height(tipHash.value) - Height(f) <= reorgDepth
      ensures WithinReach(f, newTip)
    {
    }

    /** The height down to which forks off the recorded tip are to be followed. */
    ghost function Lowest(): int
      requires tipHash.Some?
      reads this
    {
      var low := Height(tipHash.value) - reorgDepth;
      if floor > low && floor > 0 then floor else if low > 0 then low else 0
    }

    /** Some known block is an ancestor of every tip that forks off the recorded one down to that height. */
    ghost predicate FollowsForks()
      requires tipHash.Some?
      reads this, detector
    {
      forall f, newTip :: Ancestor(f, newTip) && Ancestor(f, tipHash.value) && Height(f) >= Lowest() ==> HasKnown(detector.window, newTip)
    }

    /** That is so if and only if the recorded tip's own ancestor at that height has a known one. */
    lemma FollowsForksIff(g: Block)
      requires tipHash.Some? && Ancestor(g, tipHash.value) && Height(g) == Lowest()
      ensures FollowsForks() <==> HasKnown(detector.window, g)
    {
      HasKnownMeans(detector.window, g);
      assert FollowsForks() ==> HasKnown(detector.window, g) by {
        assert Ancestor(g, g);
      }
      if HasKnown(detector.window, g) {
        var b :| b in detector.window && Ancestor(b, g);
        forall f, newTip | Ancestor(f, newTip) && Ancestor(f, tipHash.value) && Height(f) >= Lowest() ensures HasKnown(detector.window, newTip) {
          AncestorsComparable(g, f, tipHash.value);
          AncestorTransitive(b, g, f);
          AncestorTransitive(b, f, newTip);
          HasKnownMeans(detector.window, newTip);
        }
      }
    }

    /** As long as tips do not get lower it is so. */
    lemma FollowsFromTop(g: Block)
      requires Valid() && TipOnTop() && Ancestor(g, tipHash.value) && Height(g) == Lowest()
      ensures FollowsForks()
    {
      HeldAncestor(detector.window, reorgDepth, floor, tipHash.value, g);
      HasKnownMeans(detector.window, g);
      assert Ancestor(g, g);
      FollowsForksIff(g);
    }

    /**
     * One poll: on success every block up to the node's tip, bootstrap aside, has been handled. With nothing failing it
     * succeeds exactly when the new tip is the recorded one or has a known ancestor, and that it has whenever it forks off
     * the recorded one within reach. As long as tips do not get lower, that is at most the depth below the recorded tip.
     */
    method Poll(newTip: Block, env: Env) returns (done: bool, ghost d: Diff)
      requires Valid() && watcher.Valid()
      modifies this`tipHash, this`floor, detector, watcher
      ensures Valid() && watcher.Valid() && watcher.Grew()
      ensures done ==> tipHash == Some(newTip) && watcher.Covered(newTip)
      ensures !done ==> tipHash == old(tipHash)
      ensures old(tipHash).Some? ==> Explains(d, old(detector.window), newTip, 0, false)
      ensures old(tipHash).Some? && done ==>
        (d.Unchanged? || d.Changed?) && watcher.events == old(watcher.events) + EventsOf(d) && (d.Changed? ==> Blocks(d.orphaned) <= watcher.undone)
      ensures env.healthy ==>
        (done <==> old(tipHash) == None || old(tipHash) == Some(newTip) || exists b :: b in old(detector.window) && Ancestor(b, newTip))
      ensures env.healthy && (exists f :: old(WithinReach(f, newTip))) ==> done
      ensures done && old(AllAtMost(Height(newTip))) ==> TipOnTop()
      ensures old(tipHash).Some? ==> tipHash.Some? && watcher.bases == old(watcher.bases) && floor == old(floor)
    {
      if tipHash.None? {
        Start(newTip);
        return true, Unchanged;
      }
      if f :| WithinReach(f, newTip) { HeldAncestor(detector.window, reorgDepth, floor, tipHash.value, f); }
      var diff;
      diff, done := AdvanceTo(newTip, 0, false, env);
      d := diff;
    }

    ghost method RaiseFloor(height: nat)
      requires Valid() && tipHash.None?
      modifies this`floor
      ensures Valid() && floor == if old(floor) > height then old(floor) else height
    {
      ClosedHigher(detector.window, reorgDepth, floor, height);
      if floor < height { floor := height; }
    }

    /** With nothing to start from, the node's tip is where handling begins. */
    method Start(tip: Block)
      requires Valid() && watcher.Valid()
      modifies this`tipHash, this`floor, detector, watcher`bases
      ensures Valid() && watcher.Valid() && watcher.Grew() && watcher.bases == old(watcher.bases) + {tip}
      ensures tipHash == Some(tip) && watcher.Covered(tip)
      ensures floor == if old(floor) > Height(tip) then old(floor) else Height(tip)
      ensures forall x :: x in detector.window ==> x in old(detector.window) || x == tip
    {
      watcher.Bootstrap(tip);
      watcher.GrewKeeps();
      tipHash := None;
      RaiseFloor(Height(tip));
      Join(tip, {});
      tipHash := Some(tip);
    }

    /** Adding a lower block to a window of higher ones drops nothing. */
    method SeedOne(b: Block)
      requires Valid() && watcher.Valid() && watcher.Done(b) && forall x :: x in detector.window ==> Height(x) > Height(b)
      requires Height(b) <= floor
      modifies detector
      ensures Valid() && detector.window == old(detector.window) + [b]
    {
      watcher.DoneIsCovered(b);
      ImportKeeps(detector.window, reorgDepth, b);
      ImportGood(b, {});
    }

    /**
     * The cursor's block and its ancestors, as deep as a live reorg can reach. Until all are there, nothing below the
     * cursor counts as known.
     */
    method SeedWindow(c: Block, env: Env) returns (ok: bool)
      requires Valid() && watcher.Valid() && watcher.Done(c) && detector.window == [] && tipHash.None?
      modifies detector, this`floor
      ensures Valid() && tipHash.None?
      ensures env.healthy ==> ok
      ensures ok ==> detector.window == Seeds(Some(c), reorgDepth) && floor == Height(c) - reorgDepth + 1
    {
      floor := Height(c) + 1;
      ok := SeedAll(c, env);
      if ok {
        SeedsClosed(c, reorgDepth);
        floor := Height(c) - reorgDepth + 1;
      }
    }

    method SeedAll(c: Block, env: Env) returns (ok: bool)
      requires Valid() && watcher.Valid() && watcher.Done(c) && detector.window == [] && tipHash.None? && floor == Height(c) + 1
      modifies detector
      ensures Valid()
      ensures env.healthy ==> ok
      ensures ok ==> detector.window == Seeds(Some(c), reorgDepth)
    {
      var header := Some(c);
      var i := 0;
      while i < reorgDepth && header.Some?
        invariant i <= reorgDepth && Valid() && (header.Some? ==> watcher.Done(header.value) && Height(header.value) <= Height(c))
        invariant detector.window + Seeds(header, reorgDepth - i) == Seeds(Some(c), reorgDepth)
        invariant header.Some? ==> forall b :: b in detector.window ==> Height(b) > Height(header.value)
        decreases reorgDepth - i
      {
        var b := header.value;
        ghost var before := detector.window;
        SeedOne(b);
        SeedTaken(before, header, reorgDepth - i);
        watcher.ParentDone(b);
        header := Parent(b);
        i := i + 1;
        var failed: bool := *;
        if failed && !env.healthy { return false; }
      }
      ok := true;
    }

    /** Of every block orphaned since, the handler ran to its end. */
    static ghost predicate OrphansUndone(before: seq<Event>, after: seq<Event>, undone: set<Block>) {
      before <= after && forall k :: |before| <= k < |after| && after[k].Orphaned? ==> after[k].block in undone
    }

    static lemma AllUndone(before: seq<Event>, after: seq<Event>, d: Diff, undone: set<Block>)
      requires after == before + EventsOf(d) && (d.Changed? ==> Blocks(d.orphaned) <= undone)
      ensures OrphansUndone(before, after, undone)
    {
      forall k | |before| <= k < |after| && after[k].Orphaned? ensures after[k].block in undone {
        assert after[k] == EventsOf(d)[k - |before|];
      }
    }

    /** From a seeded window to the tip. */
    method Replay(c: Block, tip: Block, env: Env) returns (r: CatchUpResult)
      requires Valid() && watcher.Valid() && watcher.Covered(c)
      requires floor == Height(c) - reorgDepth + 1
      requires detector.window == Seeds(Some(c), reorgDepth) && (Height(tip) < Height(c) ==> tip !in detector.window)
      modifies this`tipHash, detector, watcher
      ensures Valid() && watcher.Valid() && watcher.Grew() && watcher.bases == old(watcher.bases)
      ensures r.CaughtUp? ==> tipHash == Some(tip) && watcher.Covered(tip)
      ensures r.CaughtUp? ==> OrphansUndone(old(watcher.events), watcher.events, watcher.undone)
      ensures env.healthy && (exists f :: ReachesFork(f, tip, c, reorgDepth)) ==> r.CaughtUp?
      ensures !r.CatchUpTooFar? && ExactlyReplayed(r, old(watcher.events), watcher.events, c, tip, reorgDepth)
      ensures QuietWhenBehind(r, old(watcher.events), watcher.events, c, tip)
    {
      var pending := Height(tip) - Height(c);
      var maxWalk := (if pending > 0 then pending else 0) + reorgDepth;
      SeedsClosed(c, reorgDepth);
      tipHash := Some(c);
      var d, done := AdvanceTo(tip, maxWalk, true, env);
      r := ResultOf(d, done, Height(tip));
      if done { AllUndone(old(watcher.events), watcher.events, d, watcher.undone); }
      ReplayMeans(old(watcher.events), watcher.events, d, done, c, tip, reorgDepth, maxWalk);
    }

    /**
     * Catching up from the saved cursor. When the cursor's branch forks off within reach it emits exactly the
     * stale blocks, cursor first, and then exactly the blocks from the fork to the tip; the walk is never cut
     * off. A node still behind the cursor on the same chain causes no event at all.
     */
    method CatchUp(maxBlocks: nat, tip: Block, env: Env) returns (r: CatchUpResult)
      requires watcher.Valid()
      modifies this`tipHash, this`detector, this`floor, watcher
      ensures Valid() && watcher.Valid() && watcher.Grew() && fresh(detector)
      ensures r.CaughtUp? ==>
        floor == if old(watcher.cursor).Some? then Height(old(watcher.cursor).value) - reorgDepth + 1 else Height(tip)
      ensures old(watcher.cursor).Some? ==> watcher.bases == old(watcher.bases)
      ensures r.CaughtUp? ==> tipHash == Some(tip) && watcher.Covered(tip)
      ensures r.CaughtUp? ==> OrphansUndone(old(watcher.events), watcher.events, watcher.undone)
      ensures old(watcher.cursor).Some? ==>
        && ExactlyReplayed(r, old(watcher.events), watcher.events, old(watcher.cursor).value, tip, reorgDepth)
        && QuietWhenBehind(r, old(watcher.events), watcher.events, old(watcher.cursor).value, tip)
      ensures old(watcher.cursor).Some? && env.healthy ==> Succeeds(r, old(watcher.cursor).value, tip, reorgDepth, maxBlocks)
      ensures old(watcher.cursor).None? ==> r.CaughtUp? && watcher.events == old(watcher.events)
      ensures r.CatchUpTooFar? <==> old(watcher.cursor).Some? && Height(tip) - Height(old(watcher.cursor).value) > maxBlocks
      ensures r.CatchUpTooFar? ==> r.pending > maxBlocks && watcher.events == old(watcher.events)
    {
      detector := new ReorgDetector(reorgDepth);
      tipHash := None;
      floor := 0;
      if watcher.cursor.None? {
        Start(tip);
        return CaughtUp(0, 0, Height(tip));
      }
      var c := watcher.cursor.value;
      var pending := Height(tip) - Height(c);
      if pending > maxBlocks { return CatchUpTooFar(pending); }
      var ok := SeedWindow(c, env);
      if !ok { return Failed; }
      if pending < 0 && tip in detector.window {
        SeedsAre(c, reorgDepth, tip);
        return NodeBehindCursor;
      }
      watcher.DoneIsCovered(c);
      SeedsAre(c, reorgDepth, tip);
      r := Replay(c, tip, env);
    }
  }

  /** One call of the process: the tip the node answers, and what fails. */
  datatype Turn = Turn(tip: Block, env: Env)

  /** The tip recorded after the first n polls: that of the last one done. */
  function LastTip(first: Block, polls: seq<Turn>, done: seq<bool>, n: nat): Block
    requires n <= |polls| && n <= |done|
  {
    if n == 0 then first else if done[n - 1] then polls[n - 1].tip else LastTip(first, polls, done, n - 1)
  }

  lemma {:induction false} LastTipSame(first: Block, polls: seq<Turn>, done: seq<bool>, more: bool, n: nat)
    requires n <= |polls| && n <= |done|
    ensures LastTip(first, polls, done + [more], n) == LastTip(first, polls, done, n)
  {
    if n > 0 { LastTipSame(first, polls, done, more, n - 1); }
  }

  /** Catching up is tried again until it succeeds or is too far behind to succeed at all. */
  predicate Tried(results: seq<CatchUpResult>, tries: seq<Turn>) {
    && |results| <= |tries| && (forall k :: 0 <= k < |results| - 1 ==> !results[k].CaughtUp? && !results[k].CatchUpTooFar?)
    && (|results| < |tries| ==> results != [] && (results[|results| - 1].CaughtUp? || results[|results| - 1].CatchUpTooFar?))
  }

  predicate Reached(results: seq<CatchUpResult>) {
    results != [] && results[|results| - 1].CaughtUp?
  }

  method OneTry(poller: BlockPoller, maxBlocks: nat, t: Turn) returns (r: CatchUpResult)
    requires poller.watcher.Valid()
    modifies poller, poller.watcher
    ensures poller.watcher.Valid() && poller.Valid() && poller.watcher.Grew() && fresh(poller.detector)
    ensures r.CaughtUp? ==> poller.tipHash == Some(t.tip) && poller.watcher.Covered(t.tip)
    ensures old(poller.watcher.cursor).None? ==> r.CaughtUp?
    ensures old(poller.watcher.cursor).Some? ==> poller.watcher.bases == old(poller.watcher.bases)
  {
    r := poller.CatchUp(maxBlocks, t.tip, t.env);
  }

  /** The first half of a life: a new process, with nothing in memory, catches up. */
  method CatchUpLoop(watcher: Watcher, reorgDepth: nat, maxBlocks: nat, tries: seq<Turn>)
    returns (poller: BlockPoller, results: seq<CatchUpResult>)
    requires watcher.Valid()
    modifies watcher
    ensures watcher.Valid() && watcher.Grew() && poller.Valid() && poller.watcher == watcher && fresh(poller) && fresh(poller.detector)
    ensures Tried(results, tries)
    ensures Reached(results) ==> poller.tipHash == Some(tries[|results| - 1].tip) && watcher.Covered(tries[|results| - 1].tip)
    ensures tries != [] && old(watcher.cursor).None? ==> Reached(results)
    ensures tries == [] ==> results == [] && watcher.cursorHeldAt.None?
    ensures old(watcher.cursor).Some? ==> watcher.cursor.Some? && watcher.bases == old(watcher.bases)
  {
    watcher.Restart();
    poller := new BlockPoller(watcher, reorgDepth);
    results := [];
    for i := 0 to |tries|
      invariant watcher.Valid() && poller.Valid() && watcher.Grew() && poller.watcher == watcher
      invariant fresh(poller) && fresh(poller.detector) && |results| == i
      invariant forall k :: 0 <= k < i ==> !results[k].CaughtUp? && !results[k].CatchUpTooFar?
      invariant i == 0 ==> watcher.cursor == old(watcher.cursor) && watcher.cursorHeldAt.None?
      invariant old(watcher.cursor).None? ==> i == 0
      invariant old(watcher.cursor).Some? ==> watcher.cursor.Some? && watcher.bases == old(watcher.bases)
    {
      var r := OneTry(poller, maxBlocks, tries[i]);
      results := results + [r];
      if r.CaughtUp? || r.CatchUpTooFar? { return; }
    }
  }

  /**
   * One life of the process: catch up, retrying, then poll, against a node that may answer any tip at any
   * call. Whatever fails, every block up to the saved cursor stays finished; and the recorded tip is that of the last call
   * that was done, and had every block up to it handled, except at and below the tips where a watcher without a cursor
   * started.
   */
  method Live(watcher: Watcher, reorgDepth: nat, maxBlocks: nat, tries: seq<Turn>, polls: seq<Turn>)
    returns (poller: BlockPoller, results: seq<CatchUpResult>, done: seq<bool>)
    requires watcher.Valid()
    modifies watcher
    ensures watcher.Valid() && watcher.Grew() && poller.Valid() && Tried(results, tries)
    ensures |done| == if Reached(results) then |polls| else 0
    ensures Reached(results) ==>
      var last := LastTip(tries[|results| - 1].tip, polls, done, |polls|);
      poller.tipHash == Some(last) && watcher.Covered(last)
    ensures tries != [] && old(watcher.cursor).None? ==> Reached(results)
    ensures old(watcher.cursor).Some? ==> watcher.cursor.Some? && watcher.bases == old(watcher.bases)
  {
    poller, results := CatchUpLoop(watcher, reorgDepth, maxBlocks, tries);
    done := [];
    if !Reached(results) { return; }
    ghost var first := tries[|results| - 1].tip;
    for i := 0 to |polls|
      invariant watcher.Valid() && poller.Valid() && watcher.Grew() && poller.watcher == watcher && |done| == i
      invariant fresh(poller) && fresh(poller.detector)
      invariant poller.tipHash == Some(LastTip(first, polls, done, i)) && watcher.Covered(LastTip(first, polls, done, i))
      invariant old(watcher.cursor).Some? ==> watcher.cursor.Some? && watcher.bases == old(watcher.bases)
    {
      label Before:
      var more, d := poller.Poll(polls[i].tip, polls[i].env);
      watcher.GrewKeeps@Before();
      LastTipSame(first, polls, done, more, i);
      done := done + [more];
    }
  }
}
