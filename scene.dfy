/**
 * The debug-property bookkeeping of SCA_IScene: an ordered list of
 * (object, property name) entries, capped at DebugMaxDisplay, each entry
 * holding one reference on its object.
 */
module SceneDebug {
  import opened Optional
  import opened DebugProps

  class Scene {
    /** m_debugList, in display order. */
    var debugList: seq<DebugProp>
    /** The references the debug list holds, per object (AddRef/Release balance). */
    var heldRefs: map<ObjId, int>

    /**
     * The list stays within capacity, every entry names an object, and the
     * references held on each object are exactly its number of entries.
     */
    ghost predicate Valid()
      reads this
    {
      && |debugList| <= DebugMaxDisplay
      && (forall i :: 0 <= i < |debugList| ==> debugList[i].obj.Some?)
      && (forall x :: RefsOn(heldRefs, x) == Occurrences(debugList, x))
    }

    /** A new scene shows no debug properties and holds no references. */
    constructor ()
      ensures Valid()
      ensures debugList == [] && heldRefs == map[]
    {
      debugList := [];
      heldRefs := map[];
    }

    /**
     * Below capacity, appends (o, name) and takes a reference on `o`, with
     * no duplicate check; at capacity, does nothing.
     */
    method AddDebugProperty(o: ObjId, name: string)
      requires Valid()
      modifies this
      ensures Valid()
      ensures old(|debugList|) < DebugMaxDisplay ==>
                debugList == old(debugList) + [DebugProp(Some(o), name)]
                && heldRefs == AddRef(old(heldRefs), o)
                && HasProperty(debugList, o, name)
      ensures old(|debugList|) >= DebugMaxDisplay ==>
                debugList == old(debugList) && heldRefs == old(heldRefs)
    {
      if |debugList| < DebugMaxDisplay {
        var entry := DebugProp(Some(o), name);
        heldRefs := AddRef(heldRefs, o);
        forall x
          ensures Occurrences(debugList + [entry], x) == Occurrences(debugList, x) + (if x == o then 1 else 0)
        {
          OccurrencesAppend(debugList, [entry], x);
          assert [entry][1..] == [];
        }
        debugList := debugList + [entry];
        assert Matches(debugList[|debugList| - 1], o, name);
      }
    }

    /** True iff some entry is the pair (o, name); reads the list only. */
    method PropertyInDebugList(o: ObjId, name: string) returns (found: bool)
      ensures found <==> HasProperty(debugList, o, name)
      ensures found ==> HasObject(debugList, o)
    {
      var i := 0;
      while i < |debugList|
        invariant 0 <= i <= |debugList|
        invariant forall j :: 0 <= j < i ==> !Matches(debugList[j], o, name)
      {
        if debugList[i].obj == Some(o) && debugList[i].name == name {
          assert IsFor(debugList[i], o);
          return true;
        }
        i := i + 1;
      }
      return false;
    }

    /** True iff some entry refers to `o`; reads the list only. */
    method ObjectInDebugList(o: ObjId) returns (found: bool)
      ensures found <==> HasObject(debugList, o)
    {
      var i := 0;
      while i < |debugList|
        invariant 0 <= i <= |debugList|
        invariant forall j :: 0 <= j < i ==> !IsFor(debugList[j], o)
      {
        if debugList[i].obj == Some(o) {
          return true;
        }
        i := i + 1;
      }
      return false;
    }

    /**
     * Deletes the first entry that is the pair (o, name), releasing its
     * reference, and keeps the order of the rest; no match, no change.
     */
    method RemoveDebugProperty(o: ObjId, name: string)
      requires Valid()
      modifies this
      ensures Valid()
      ensures debugList == RemoveFirst(old(debugList), o, name)
      ensures forall x :: RefsOn(heldRefs, x)
                == RefsOn(old(heldRefs), x) - (if x == o && HasProperty(old(debugList), o, name) then 1 else 0)
    {
      ghost var original := debugList;
      var i := 0;
      while i < |debugList|
        invariant debugList == original
        invariant heldRefs == old(heldRefs)
        invariant 0 <= i <= |debugList|
        invariant forall j :: 0 <= j < i ==> !Matches(debugList[j], o, name)
      {
        if debugList[i].obj == Some(o) && debugList[i].name == name {
          RemoveFirstAt(debugList, o, name, i);
          forall x
            ensures Occurrences(debugList[..i] + debugList[i + 1..], x)
                 == Occurrences(debugList, x) - (if x == o then 1 else 0)
          {
            OccurrencesErase(debugList, i, x);
          }
          assert HasProperty(original, o, name) by { assert Matches(original[i], o, name); }
          heldRefs := Release(heldRefs, debugList[i]);
          debugList := debugList[..i] + debugList[i + 1..];
          return;
        }
        i := i + 1;
      }
    }

    /**
     * Deletes every entry that refers to `o`, releasing one reference per
     * entry, and keeps the order of the others.
     */
    method RemoveObjectDebugProperties(o: ObjId)
      requires Valid()
      modifies this
      ensures Valid()
      ensures debugList == Without(old(debugList), o)
      ensures !HasObject(debugList, o)
      ensures RefsOn(heldRefs, o) == 0
      ensures forall x :: x != o ==> RefsOn(heldRefs, x) == RefsOn(old(heldRefs), x)
    {
      ghost var original := debugList;
      ghost var k := 0;
      var i := 0;
      while i < |debugList|
        invariant Valid()
        invariant 0 <= i <= |debugList| && 0 <= k <= |original|
        invariant debugList[..i] == Without(original[..k], o)
        invariant debugList[i..] == original[k..]
        invariant forall x :: x != o ==> RefsOn(heldRefs, x) == RefsOn(old(heldRefs), x)
        decreases |debugList| - i
      {
        assert original[..k + 1] == original[..k] + [original[k]];
        WithoutAppend(original[..k], [original[k]], o);
        assert debugList[i] == original[k];
        if debugList[i].obj == Some(o) {
          forall x
            ensures Occurrences(debugList[..i] + debugList[i + 1..], x)
                 == Occurrences(debugList, x) - (if x == o then 1 else 0)
          {
            OccurrencesErase(debugList, i, x);
          }
          heldRefs := Release(heldRefs, debugList[i]);
          debugList := debugList[..i] + debugList[i + 1..];
          k := k + 1;
          continue;
        }
        i := i + 1;
        k := k + 1;
      }
      assert original[..k] == original;
      OccurrencesPositive(debugList, o);
    }

    /** Releases every entry's reference and empties the list. */
    method RemoveAllDebugProperties()
      requires Valid()
      modifies this
      ensures Valid()
      ensures debugList == []
      ensures forall x :: RefsOn(heldRefs, x) == RefsOn(old(heldRefs), x) - Occurrences(old(debugList), x)
      ensures forall x :: RefsOn(heldRefs, x) == 0
    {
      var i := 0;
      while i < |debugList|
        invariant debugList == old(debugList)
        invariant 0 <= i <= |debugList|
        invariant forall x :: RefsOn(heldRefs, x) == Occurrences(debugList[i..], x)
      {
        assert debugList[i..][1..] == debugList[i + 1..];
        heldRefs := Release(heldRefs, debugList[i]);
        i := i + 1;
      }
      debugList := [];
    }

    /** ~SCA_IScene: the scene lets go of its whole debug list. */
    method Destroy()
      requires Valid()
      modifies this
      ensures debugList == []
      ensures forall x :: RefsOn(heldRefs, x) == RefsOn(old(heldRefs), x) - Occurrences(old(debugList), x)
      ensures forall x :: RefsOn(heldRefs, x) == 0
    {
      RemoveAllDebugProperties();
    }
  }
}
