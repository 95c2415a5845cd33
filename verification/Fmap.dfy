/** The table from file descriptor to description (backup/fmap.cc): a vector
    that only grows, whose empty slots hold NULL.  Its length is an accident of
    which descriptors came first; what callers rely on is the partial map that
    `Mapping` reads off it. */
module Fmap {
  datatype Slot<T> = Null | Mapped(description: T)

  /** The descriptors that are mapped, and to what. */
  function Mapping<T>(slots: seq<Slot<T>>): map<nat, T>
  {
    map fd | 0 <= fd < |slots| && slots[fd].Mapped? :: fd as nat := slots[fd].description
  }

  /** The answer a lookup owes its caller, negative descriptors included. */
  function Lookup<T>(m: map<nat, T>, fd: int): Slot<T>
  {
    if 0 <= fd && fd in m then Mapped(m[fd]) else Null
  }

  lemma GrowthIsInvisible<T>(slots: seq<Slot<T>>, more: seq<Slot<T>>)
    requires forall i :: 0 <= i < |more| ==> more[i] == Null
    ensures Mapping(slots + more) == Mapping(slots)
  {
    var now, was := Mapping(slots + more), Mapping(slots);
    forall fd: nat ensures fd in now <==> fd in was {}
  }

  lemma UpdateMaps<T>(slots: seq<Slot<T>>, fd: nat, d: T)
    requires fd < |slots|
    ensures Mapping(slots[fd := Mapped(d)]) == Mapping(slots)[fd := d]
  {
    var now, was := Mapping(slots[fd := Mapped(d)]), Mapping(slots)[fd := d];
    forall k: nat ensures k in now <==> k in was {}
  }

  lemma UpdateUnmaps<T>(slots: seq<Slot<T>>, fd: nat)
    requires fd < |slots|
    ensures Mapping(slots[fd := Null]) == Mapping(slots) - {fd}
  {
    var now, was := Mapping(slots[fd := Null]), Mapping(slots) - {fd};
    forall k: nat ensures k in now <==> k in was {}
  }

  class FileMap<T(0)> {
    var slots: seq<Slot<T>>

    function View(): map<nat, T>
      reads this
    {
      Mapping(slots)
    }

    constructor ()
      ensures View() == map[]
    {
      slots := [];
      new;
      assert Mapping(slots) == map[];
    }

    method GetUnlocked(fd: int) returns (result: Slot<T>)
      ensures result == Lookup(View(), fd)
      ensures result == if fd >= 0 && fd in View() then Mapped(View()[fd]) else Null
    {
      if fd < 0 {
        return Null;
      }
      if fd >= |slots| {
        result := Null;
      } else {
        result := slots[fd];
      }
    }

    /** Extends the vector so that fd is an index, without mapping anything. */
    method GrowArray(fd: int)
      modifies this
      ensures View() == old(View())
      ensures fd < |slots|
      ensures |slots| == if fd < old(|slots|) then old(|slots|) else fd + 1
    {
      if fd >= 0 {
        ghost var more: seq<Slot<T>> := [];
        while |slots| <= fd
          invariant slots == old(slots) + more
          invariant forall i :: 0 <= i < |more| ==> more[i] == Null
          invariant |slots| <= fd || more == [] || |slots| == fd + 1
          decreases fd + 1 - |slots|
        {
          slots := slots + [Null];
          more := more + [Null];
        }
        GrowthIsInvisible(old(slots), more);
      }
    }

    /** `put` asserts that the slot is free; that it is free whenever the
        program gets here is SessionTheorems.PutFindsAnEmptySlot. */
    method Put(fd: nat, description: T)
      requires fd !in View()
      modifies this
      ensures View() == old(View())[fd := description]
    {
      GrowArray(fd);
      assert slots[fd] == Null by {
        assert fd !in View();
      }
      UpdateMaps(slots, fd, description);
      slots := slots[fd := Mapped(description)];
    }

    /** A descriptor that was never mapped, or no descriptor at all, is not an
        error. */
    method Erase(fd: int) returns (r: int)
      modifies this
      ensures r == 0
      ensures View() == if fd < 0 then old(View()) else old(View()) - {fd}
    {
      if fd < 0 || fd >= |slots| {
        assert fd >= 0 ==> View() - {fd} == View();
        return 0;
      }
      UpdateUnmaps(slots, fd);
      slots := slots[fd := Null];
      return 0;
    }
  }
}
