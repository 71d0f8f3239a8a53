/**
  The table of per-key locks: entries are created on demand, shared by every
  handle of their key, and dropped with their last reference.

  Each method is one atomic step, under the table's own mutex or under one
  entry's mutex; an interleaving of threads is a sequence of calls.
 */
module TaskLocks {
  import opened ControlTypes

  /** Tasks and actors have locks in the same table, under names that cannot meet. */
  datatype LockKey = TaskKey(taskId: Id) | ActorLock(actor: ActorKey)

  class Entry {
    var held: bool
    var references: nat

    constructor ()
      ensures !held && references == 0
    {
      held, references := false, 0;
    }
  }

  datatype Phase = Waiting | Holding | Leaving

  class Handle {
    const key: LockKey
    const entry: Entry
    var phase: Phase

    constructor (key: LockKey, entry: Entry)
      ensures this.key == key && this.entry == entry && phase == Waiting
    {
      this.key, this.entry, phase := key, entry, Waiting;
    }
  }

  class LockTable {
    var locks: map<LockKey, Entry>
    /** Every handle that still counts as a reference. */
    ghost var live: set<Handle>

    ghost function Sharing(key: LockKey): set<Handle>
      reads this, live
    {
      set h | h in live && h.key == key
    }

    ghost predicate HandleOk(h: Handle)
      reads this, live, locks.Values
    {
      h in live ==> h.key in locks && locks[h.key] == h.entry && (h.phase == Holding ==> h.entry.held)
    }

    ghost predicate EntryOk(key: LockKey)
      reads this, live, locks.Values
    {
      key in locks ==>
        && Sharing(key) != {} && locks[key].references == |Sharing(key)|
        && (locks[key].held ==> exists h :: h in live && h.key == key && h.phase == Holding)
    }

    ghost predicate OwnEntries(a: LockKey, b: LockKey)
      reads this
    {
      a in locks && b in locks && locks[a] == locks[b] ==> a == b
    }

    ghost predicate OneHolder(a: Handle, b: Handle)
      reads this, live
    {
      a in live && b in live && a.key == b.key && a.phase == Holding && b.phase == Holding ==> a == b
    }

    /**
      An entry is in the table exactly while it has live handles, which are what
      it counts; all of them share it; its mutex is held exactly when one of them
      holds it, and then by that one alone.
     */
    ghost predicate Valid()
      reads this, live, locks.Values
    {
      && (forall h {:trigger HandleOk(h)} :: h in live ==> HandleOk(h))
      && (forall key {:trigger EntryOk(key)} :: EntryOk(key))
      && (forall a, b {:trigger OwnEntries(a, b)} :: OwnEntries(a, b))
      && (forall a, b {:trigger OneHolder(a, b)} :: a in live && b in live ==> OneHolder(a, b))
    }

    constructor ()
      ensures Valid() && locks == map[] && live == {}
    {
      locks, live := map[], {};
      new;
      forall key ensures EntryOk(key) { }
      forall a, b ensures OwnEntries(a, b) { }
    }

    /** Opens a handle on the key's entry, creating the entry if no one refers to it. */
    method TaskLock(key: LockKey) returns (h: Handle)
      requires Valid()
      modifies this, if key in locks then {locks[key]} else {}
      ensures Valid()
      ensures fresh(h) && h.key == key && h.phase == Waiting && live == old(live) + {h}
      ensures key in old(locks) ==> h.entry == old(locks)[key]
    {
      if key in locks {
        h := Join(key);
      } else {
        h := Found(key);
      }
    }

    method Join(key: LockKey) returns (h: Handle)
      requires Valid() && key in locks
      modifies this`live, locks[key]
      ensures Valid()
      ensures fresh(h) && h.key == key && h.phase == Waiting && live == old(live) + {h} && h.entry == locks[key]
    {
      var entry := locks[key];
      h := new Handle(key, entry);
      entry.references := entry.references + 1;
      live := live + {h};
      forall g | g in live ensures HandleOk(g) {
        if g != h { assert old(HandleOk(g)); }
      }
      forall other ensures EntryOk(other) {
        assert old(EntryOk(other)) && old(OwnEntries(key, other));
        assert Sharing(other) == if other == key then old(Sharing(other)) + {h} else old(Sharing(other));
      }
      forall a, b ensures OwnEntries(a, b) { assert old(OwnEntries(a, b)); }
      forall a, b | a in live && b in live ensures OneHolder(a, b) {
        if a != h && b != h { assert old(OneHolder(a, b)); }
      }
    }

    method Found(key: LockKey) returns (h: Handle)
      requires Valid() && key !in locks
      modifies this
      ensures Valid()
      ensures fresh(h) && h.key == key && h.phase == Waiting && live == old(live) + {h}
    {
      var entry := new Entry();
      h := new Handle(key, entry);
      entry.references := 1;
      locks := locks[key := entry];
      live := live + {h};
      forall g | g in live ensures HandleOk(g) {
        if g != h { assert old(HandleOk(g)); }
      }
      forall other ensures EntryOk(other) {
        assert old(EntryOk(other));
        if other == key {
          forall g | g in old(live) ensures g.key != key { assert old(HandleOk(g)); }
          assert Sharing(key) == {h};
        } else {
          assert Sharing(other) == old(Sharing(other));
        }
      }
      forall a, b ensures OwnEntries(a, b) { assert old(OwnEntries(a, b)); }
      forall a, b | a in live && b in live ensures OneHolder(a, b) {
        if a != h && b != h { assert old(OneHolder(a, b)); }
      }
    }

    /** The mutex of the entry is granted; the caller waited until it was free. */
    method Lock(h: Handle)
      requires Valid() && h in live && h.phase == Waiting && !h.entry.held
      modifies h, h.entry
      ensures Valid() && h.phase == Holding && h.entry.held
    {
      h.entry.held := true;
      h.phase := Holding;
      PhaseChanged(h);
    }

    /** Frees the mutex; the reference is dropped by the release that follows. */
    method UnlockEntry(h: Handle)
      requires Valid() && h in live && h.phase == Holding
      modifies h, h.entry
      ensures Valid() && h.phase == Leaving && !h.entry.held
    {
      h.entry.held := false;
      h.phase := Leaving;
      PhaseChanged(h);
    }

    /** One handle took or freed its mutex, and nothing else changed. */
    twostate lemma PhaseChanged(h: Handle)
      requires old(Valid()) && h in live && locks == old(locks) && live == old(live)
      requires old(h.phase) == Holding || !old(h.entry.held)
      requires h.entry.held <==> h.phase == Holding
      requires h.entry.references == old(h.entry.references)
      requires forall g :: g in live && g != h ==> g.phase == old(g.phase)
      requires forall key :: key in locks && locks[key] != h.entry ==>
                 locks[key].held == old(locks[key].held) && locks[key].references == old(locks[key].references)
      ensures Valid()
    {
      forall g | g in live ensures HandleOk(g) {
        assert old(HandleOk(g)) && old(HandleOk(h)) && old(OneHolder(g, h)) && old(OwnEntries(g.key, h.key));
      }
      forall key ensures EntryOk(key) {
        assert old(EntryOk(key)) && old(HandleOk(h)) && old(OwnEntries(key, h.key));
        assert Sharing(key) == old(Sharing(key));
        if key in locks && key != h.key && locks[key].held {
          var g :| g in live && g.key == key && old(g.phase) == Holding;
          assert g.phase == Holding;
        }
      }
      forall a, b ensures OwnEntries(a, b) { assert old(OwnEntries(a, b)); }
      forall a, b | a in live && b in live ensures OneHolder(a, b) {
        assert old(OneHolder(a, b)) && old(HandleOk(a)) && old(HandleOk(b)) && old(HandleOk(h));
      }
    }

    /** Drops one reference; the last one takes the entry out of the table. */
    method Release(h: Handle)
      requires Valid() && h in live && h.phase != Holding
      modifies this, h.entry
      ensures Valid() && live == old(live) - {h}
      ensures h.key in locks <==> old(Sharing(h.key)) != {h}
      ensures h.key in locks ==> locks[h.key] == h.entry
    {
      var key := h.key;
      assert HandleOk(h) && EntryOk(key);
      h.entry.references := h.entry.references - 1;
      live := live - {h};
      assert old(Sharing(key)) == Sharing(key) + {h} && |old(Sharing(key))| == |Sharing(key)| + 1;
      if h.entry.references == 0 {
        assert Sharing(key) == {};
        locks := locks - {key};
      }
      forall g | g in live ensures HandleOk(g) { assert old(HandleOk(g)); assert g.key == key ==> g in Sharing(key); }
      forall other ensures EntryOk(other) {
        assert old(EntryOk(other)) && old(OwnEntries(key, other));
        if other != key { assert Sharing(other) == old(Sharing(other)); }
        if other in locks && locks[other].held {
          var g :| g in old(live) && g.key == other && g.phase == Holding;
          assert g in live;
        }
      }
      forall a, b ensures OwnEntries(a, b) { assert old(OwnEntries(a, b)); }
      forall a, b | a in live && b in live ensures OneHolder(a, b) { assert old(OneHolder(a, b)); }
    }

    /** Takes the mutex if it is free, and otherwise drops the handle. */
    method TryLock(h: Handle) returns (ok: bool)
      requires Valid() && h in live && h.phase == Waiting
      modifies this, h, h.entry
      ensures Valid() && ok == !old(h.entry.held)
      ensures if ok then live == old(live) && h.phase == Holding else live == old(live) - {h}
    {
      ok := !h.entry.held;
      if ok {
        Lock(h);
      } else {
        Release(h);
      }
    }

    method Unlock(h: Handle)
      requires Valid() && h in live && h.phase == Holding
      modifies this, h, h.entry
      ensures Valid() && live == old(live) - {h}
    {
      UnlockEntry(h);
      Release(h);
    }
  }

  /** Two holders of one key never coexist, and all handles of a key share one entry. */
  lemma OneHolderPerKey(table: LockTable, a: Handle, b: Handle)
    requires table.Valid() && a in table.live && b in table.live && a.key == b.key
    ensures a.entry == b.entry && a.key in table.locks && table.locks[a.key] == a.entry
    ensures a.phase == Holding && b.phase == Holding ==> a == b
  {
    assert table.HandleOk(a) && table.HandleOk(b) && table.OneHolder(a, b);
  }

  /** An entry is in the table exactly while some live handle refers to it, and an idle table is empty. */
  lemma TableIsReferences(table: LockTable)
    requires table.Valid()
    ensures table.locks.Keys == set h | h in table.live :: h.key
    ensures table.live == {} ==> table.locks == map[]
  {
    forall key ensures key in table.locks <==> exists h :: h in table.live && h.key == key {
      assert table.EntryOk(key);
      if key in table.locks {
        var h :| h in table.Sharing(key);
        assert h in table.live;
      }
      forall h | h in table.live && h.key == key ensures key in table.locks { assert table.HandleOk(h); }
    }
  }
}
