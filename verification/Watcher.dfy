/** The watcher's block handlers and persisted cursor (watcher/src/index.ts). */
module Watcher {
  import opened BlockTree
  import opened Coins

  datatype Event = Orphaned(block: Block) | Handled(block: Block)

  class Watcher {
    /** The last block recorded as finished; it survives restarts. */
    var cursor: Option<Block>
    var cursorHeldAt: Option<nat>

    // What really happened, over every life of the process.
    ghost var handled: set<Block>
    ghost var complete: set<Block>
    ghost var bases: set<Block>   // tips the watcher started at with no cursor
    ghost var events: seq<Event>
    ghost var undone: set<Block>  // orphaned blocks whose handler ran to its end

    /** At or below a block the watcher bootstrapped at. */
    ghost predicate BelowBase(b: Block)
      reads this`bases
    {
      exists base :: base in bases && Ancestor(b, base)
    }

    /** Every block up to b was handled, bootstrap aside. */
    ghost predicate Covered(b: Block)
      reads this`handled, this`bases
    {
      forall a :: Ancestor(a, b) ==> a in handled || BelowBase(a)
    }

    /** Every block up to b was handled with nothing left unrecorded. */
    ghost predicate Done(b: Block)
      reads this`complete, this`bases
    {
      forall a :: Ancestor(a, b) ==> a in complete || BelowBase(a)
    }

    ghost predicate Valid()
      reads this`cursor, this`handled, this`complete, this`bases
    {
      complete <= handled && (cursor.Some? ==> Done(cursor.value))
    }

    /** Nothing once handled is forgotten. */
    twostate predicate Grew()
      reads this
    {
      && old(handled) <= handled && old(undone) <= undone && old(complete) <= complete && old(bases) <= bases && old(events) <= events
      && (old(cursor).Some? ==> cursor.Some?)
    }

    constructor ()
      ensures Valid() && cursor.None? && cursorHeldAt.None? && events == [] && bases == {}
    {
      cursor, cursorHeldAt, handled, complete, bases, events, undone := None, None, {}, {}, {}, [], {};
    }

    twostate lemma GrewKeeps()
      requires Grew()
      ensures forall b :: old(Covered(b)) ==> Covered(b)
      ensures forall b :: old(Done(b)) ==> Done(b)
    {
      forall a | old(BelowBase(a)) ensures BelowBase(a) {
        var base :| base in old(bases) && Ancestor(a, base);
        assert base in bases;
      }
    }

    lemma DoneIsCovered(b: Block)
      requires Valid() && Done(b)
      ensures Covered(b)
    {
    }

    lemma ParentDone(b: Block)
      requires Done(b)
      ensures b.Child? ==> Done(b.parent)
    {
      if b.Child? {
        forall a | Ancestor(a, b.parent) ensures a in complete || BelowBase(a) { assert Ancestor(a, b); }
      }
    }

    /** A new process remembers nothing but the cursor. */
    method Restart()
      requires Valid()
      modifies this`cursorHeldAt
      ensures cursorHeldAt.None? && Valid()
    {
      cursorHeldAt := None;
    }

    ghost method Bootstrap(tip: Block)
      requires Valid()
      modifies this`bases
      ensures Valid() && Grew() && bases == old(bases) + {tip} && Covered(tip) && Done(tip)
    {
      bases := bases + {tip};
      GrewKeeps();
      forall a | Ancestor(a, tip) ensures BelowBase(a) { assert tip in bases; }
    }

    /**
     * Handle one block whose parent is finished. The cursor moves to it only if everything in it, and in every
     * block of this run before it, was recorded; after the first failure it stays until the next start. healthy:
     * neither the handler nor the saving of the cursor throws.
     */
    method OnBlock(b: Block, recordedAll: bool, healthy: bool) returns (ok: bool)
      requires Valid() && (cursorHeldAt.None? && b.Child? ==> Done(b.parent))
      modifies this
      ensures Valid() && Grew() && events == old(events) + [Handled(b)] && bases == old(bases)
      ensures healthy ==> ok
      ensures ok ==> b in handled
      ensures ok ==> (cursorHeldAt.None? <==> old(cursorHeldAt).None? && recordedAll)
      ensures ok && cursorHeldAt.None? ==> Done(b) && cursor == Some(b)
      ensures cursorHeldAt != old(cursorHeldAt) ==> old(cursorHeldAt).None? && cursorHeldAt == Some(Height(b))
      ensures cursor == old(cursor) || (cursor == Some(b) && cursorHeldAt.None?)
    {
      events := events + [Handled(b)];
      var threw: bool, failed: bool := *, *;
      if threw && !healthy { return false; }
      handled := handled + {b};
      if recordedAll { complete := complete + {b}; }
      GrewKeeps();
      if !recordedAll && cursorHeldAt.None? { cursorHeldAt := Some(Height(b)); }
      if cursorHeldAt.None? {
        if failed && !healthy { return false; }
        assert b.Child? ==> Done(b.parent);
        assert Done(b);
        cursor := Some(b);
      }
      ok := true;
    }

    method OnOrphan(b: Block, healthy: bool) returns (ok: bool)
      requires Valid()
      modifies this`events, this`undone
      ensures Valid() && Grew() && events == old(events) + [Orphaned(b)]
      ensures healthy ==> ok
      ensures ok ==> b in undone
    {
      events := events + [Orphaned(b)];
      var threw: bool := *;
      if threw && !healthy { return false; }
      undone := undone + {b};
      ok := true;
    }
  }
}
