/**
 * The entries of a scene's on-screen debug list (SCA_DebugProp) and the
 * pure functions that say what the list operations of SCA_IScene do to it.
 */
module DebugProps {
  import opened Optional

  /** Identity of a game object (a `CValue *` in the engine). */
  type ObjId = nat

  /** The most entries a scene's debug list ever holds (DEBUG_MAX_DISPLAY). */
  const DebugMaxDisplay: nat := 100

  /**
   * One entry: the object whose property is displayed and the property's
   * name. `obj` is None only for an entry that was default-constructed and
   * never filled in.
   */
  datatype DebugProp = DebugProp(obj: Option<ObjId>, name: string)

  /** The entry `SCA_DebugProp()` builds: no object, empty name. */
  const DefaultProp := DebugProp(None, "")

  /** The entry refers to object `o`. */
  predicate IsFor(p: DebugProp, o: ObjId) {
    p.obj == Some(o)
  }

  /** The entry is the pair (o, n). */
  predicate Matches(p: DebugProp, o: ObjId, n: string) {
    p.obj == Some(o) && p.name == n
  }

  /** Some entry of `s` is the pair (o, n). */
  ghost predicate HasProperty(s: seq<DebugProp>, o: ObjId, n: string) {
    exists i :: 0 <= i < |s| && Matches(s[i], o, n)
  }

  /** Some entry of `s` refers to object `o`. */
  ghost predicate HasObject(s: seq<DebugProp>, o: ObjId) {
    exists i :: 0 <= i < |s| && IsFor(s[i], o)
  }

  /** The number of entries of `s` that refer to `o`. */
  function Occurrences(s: seq<DebugProp>, o: ObjId): nat {
    if s == [] then 0
    else (if IsFor(s[0], o) then 1 else 0) + Occurrences(s[1..], o)
  }

  /** `a` is `b` with some entries deleted and the order of the rest kept. */
  ghost predicate Embeds(a: seq<DebugProp>, b: seq<DebugProp>)
    decreases |b|
  {
    a == [] || (b != [] && ((a[0] == b[0] && Embeds(a[1..], b[1..])) || Embeds(a, b[1..])))
  }

  // ---------------------------------------------------------------------
  // Reference counting: each entry holds one reference on its object.
  // ---------------------------------------------------------------------

  /** References held on `o` according to `refs` (absent means none). */
  function RefsOn(refs: map<ObjId, int>, o: ObjId): int {
    if o in refs then refs[o] else 0
  }

  /** `o->AddRef()`: one more reference on `o`, none other changes. */
  function AddRef(refs: map<ObjId, int>, o: ObjId): (r: map<ObjId, int>)
    ensures forall x :: RefsOn(r, x) == RefsOn(refs, x) + (if x == o then 1 else 0)
  {
    refs[o := RefsOn(refs, o) + 1]
  }

  /**
   * `~SCA_DebugProp()`: releases the reference the entry holds, if it holds
   * one; an entry without an object releases nothing.
   */
  function Release(refs: map<ObjId, int>, p: DebugProp): (r: map<ObjId, int>)
    ensures forall x :: RefsOn(r, x) == RefsOn(refs, x) - (if IsFor(p, x) then 1 else 0)
    ensures p.obj == None ==> r == refs
  {
    match p.obj
    case None => refs
    case Some(o) => refs[o := RefsOn(refs, o) - 1]
  }

  /** A default-constructed entry holds no object, so destroying it releases nothing. */
  lemma ReleaseDefault(refs: map<ObjId, int>)
    ensures DefaultProp.obj == None
    ensures Release(refs, DefaultProp) == refs
  {
  }

  // ---------------------------------------------------------------------
  // What the removals leave behind.
  // ---------------------------------------------------------------------

  /** The list after deleting the first entry that is the pair (o, n). */
  function RemoveFirst(s: seq<DebugProp>, o: ObjId, n: string): (r: seq<DebugProp>)
    ensures !HasProperty(s, o, n) ==> r == s
    ensures HasProperty(s, o, n) ==> |r| == |s| - 1
  {
    if s == [] then []
    else if Matches(s[0], o, n) then s[1..]
    else
      var rest := RemoveFirst(s[1..], o, n);
      assert HasProperty(s, o, n) ==> HasProperty(s[1..], o, n) by {
        if HasProperty(s, o, n) {
          var i :| 0 <= i < |s| && Matches(s[i], o, n);
          assert i > 0 && s[1..][i - 1] == s[i];
        }
      }
      assert !HasProperty(s, o, n) ==> !HasProperty(s[1..], o, n) by {
        if HasProperty(s[1..], o, n) {
          var i :| 0 <= i < |s[1..]| && Matches(s[1..][i], o, n);
          assert s[i + 1] == s[1..][i];
        }
      }
      [s[0]] + rest
  }

  /** The list after deleting every entry that refers to `o`. */
  function Without(s: seq<DebugProp>, o: ObjId): (r: seq<DebugProp>)
    ensures !HasObject(r, o)
    ensures |r| == |s| - Occurrences(s, o)
  {
    if s == [] then []
    else
      var rest := Without(s[1..], o);
      if IsFor(s[0], o) then rest
      else
        assert forall i :: 0 <= i < |rest| ==> ([s[0]] + rest)[i + 1] == rest[i];
        [s[0]] + rest
  }

  // ---------------------------------------------------------------------
  // Lemmas
  // ---------------------------------------------------------------------

  /** Occurrences distributes over concatenation. */
  lemma {:induction false} OccurrencesAppend(a: seq<DebugProp>, b: seq<DebugProp>, o: ObjId)
    ensures Occurrences(a + b, o) == Occurrences(a, o) + Occurrences(b, o)
  {
    if a != [] {
      assert (a + b)[1..] == a[1..] + b;
      OccurrencesAppend(a[1..], b, o);
    } else {
      assert a + b == b;
    }
  }

  /** Deleting the entries for `o` distributes over concatenation. */
  lemma {:induction false} WithoutAppend(a: seq<DebugProp>, b: seq<DebugProp>, o: ObjId)
    ensures Without(a + b, o) == Without(a, o) + Without(b, o)
  {
    if a == [] {
      assert a + b == b;
    } else {
      assert (a + b)[1..] == a[1..] + b;
      WithoutAppend(a[1..], b, o);
    }
  }

  /** Erasing the entry at `i` gives back exactly the reference count that entry held. */
  lemma OccurrencesErase(s: seq<DebugProp>, i: nat, o: ObjId)
    requires i < |s|
    ensures Occurrences(s[..i] + s[i + 1..], o) == Occurrences(s, o) - (if IsFor(s[i], o) then 1 else 0)
  {
    assert s == s[..i] + ([s[i]] + s[i + 1..]);
    OccurrencesAppend(s[..i], [s[i]] + s[i + 1..], o);
    OccurrencesAppend(s[..i], s[i + 1..], o);
    assert ([s[i]] + s[i + 1..])[1..] == s[i + 1..];
  }

  /** A list holds an entry for `o` exactly when it counts at least one. */
  lemma {:induction false} OccurrencesPositive(s: seq<DebugProp>, o: ObjId)
    ensures Occurrences(s, o) > 0 <==> HasObject(s, o)
  {
    if s != [] {
      OccurrencesPositive(s[1..], o);
      if HasObject(s[1..], o) {
        var i :| 0 <= i < |s[1..]| && IsFor(s[1..][i], o);
        assert IsFor(s[i + 1], o);
      }
      if HasObject(s, o) && !IsFor(s[0], o) {
        var i :| 0 <= i < |s| && IsFor(s[i], o);
        assert IsFor(s[1..][i - 1], o);
      }
    }
  }

  /**
   * The removal deletes the FIRST matching entry: when position `k` holds
   * the first (o, n) pair, the result is the list with position `k` cut out.
   */
  lemma {:induction false} RemoveFirstAt(s: seq<DebugProp>, o: ObjId, n: string, k: nat)
    requires k < |s| && Matches(s[k], o, n)
    requires forall j :: 0 <= j < k ==> !Matches(s[j], o, n)
    ensures RemoveFirst(s, o, n) == s[..k] + s[k + 1..]
  {
    if k > 0 {
      RemoveFirstAt(s[1..], o, n, k - 1);
      assert s[1..][..k - 1] == s[1..k];
      assert s[1..][k..] == s[k + 1..];
      assert s[..k] == [s[0]] + s[1..k];
    }
  }

  /** The removal gives back one reference on `o` when it deletes, none otherwise. */
  lemma {:induction false} RemoveFirstOccurrences(s: seq<DebugProp>, o: ObjId, n: string, x: ObjId)
    ensures Occurrences(RemoveFirst(s, o, n), x)
         == Occurrences(s, x) - (if x == o && HasProperty(s, o, n) then 1 else 0)
  {
    if s != [] {
      if Matches(s[0], o, n) {
        assert HasProperty(s, o, n) by { assert Matches(s[0], o, n); }
      } else {
        RemoveFirstOccurrences(s[1..], o, n, x);
        HasPropertyTail(s, o, n);
        assert ([s[0]] + RemoveFirst(s[1..], o, n))[1..] == RemoveFirst(s[1..], o, n);
      }
    }
  }

  /** When the head is not the pair (o, n), the list has the pair iff its tail does. */
  lemma HasPropertyTail(s: seq<DebugProp>, o: ObjId, n: string)
    requires s != [] && !Matches(s[0], o, n)
    ensures HasProperty(s, o, n) <==> HasProperty(s[1..], o, n)
  {
    if HasProperty(s, o, n) {
      var i :| 0 <= i < |s| && Matches(s[i], o, n);
      assert Matches(s[1..][i - 1], o, n);
    }
    if HasProperty(s[1..], o, n) {
      var i :| 0 <= i < |s[1..]| && Matches(s[1..][i], o, n);
      assert Matches(s[i + 1], o, n);
    }
  }

  /** Every entry other than the deleted one keeps its relative order. */
  lemma {:induction false} RemoveFirstEmbeds(s: seq<DebugProp>, o: ObjId, n: string)
    ensures Embeds(RemoveFirst(s, o, n), s)
  {
    if s != [] && !Matches(s[0], o, n) {
      RemoveFirstEmbeds(s[1..], o, n);
      assert ([s[0]] + RemoveFirst(s[1..], o, n))[1..] == RemoveFirst(s[1..], o, n);
    } else if s != [] {
      EmbedsRefl(s[1..]);
    }
  }

  /** Entries of the other objects all survive, in their original order. */
  lemma {:induction false} WithoutEmbeds(s: seq<DebugProp>, o: ObjId)
    ensures Embeds(Without(s, o), s)
  {
    if s != [] {
      WithoutEmbeds(s[1..], o);
      if !IsFor(s[0], o) {
        assert ([s[0]] + Without(s[1..], o))[1..] == Without(s[1..], o);
      }
    }
  }

  /** Deleting the entries for `o` changes no count of any other object. */
  lemma {:induction false} WithoutKeepsOthers(s: seq<DebugProp>, o: ObjId, x: ObjId)
    requires x != o
    ensures Occurrences(Without(s, o), x) == Occurrences(s, x)
  {
    if s != [] {
      WithoutKeepsOthers(s[1..], o, x);
      if !IsFor(s[0], o) {
        assert ([s[0]] + Without(s[1..], o))[1..] == Without(s[1..], o);
      }
    }
  }

  /** Deleting the entries for `o` keeps every (x, n) pair of another object. */
  lemma {:induction false} WithoutKeepsProperties(s: seq<DebugProp>, o: ObjId, x: ObjId, n: string)
    requires x != o
    ensures HasProperty(Without(s, o), x, n) <==> HasProperty(s, x, n)
  {
    if s != [] {
      WithoutKeepsProperties(s[1..], o, x, n);
      var w := Without(s[1..], o);
      if HasProperty(s, x, n) && !Matches(s[0], x, n) {
        var i :| 0 <= i < |s| && Matches(s[i], x, n);
        assert Matches(s[1..][i - 1], x, n);
      }
      if HasProperty(s[1..], x, n) {
        var i :| 0 <= i < |s[1..]| && Matches(s[1..][i], x, n);
        assert Matches(s[i + 1], x, n);
      }
      if !IsFor(s[0], o) {
        assert Matches(s[0], x, n) ==> Matches(([s[0]] + w)[0], x, n);
        if HasProperty(w, x, n) {
          var i :| 0 <= i < |w| && Matches(w[i], x, n);
          assert ([s[0]] + w)[i + 1] == w[i];
        }
        if HasProperty([s[0]] + w, x, n) && !Matches(s[0], x, n) {
          var i :| 0 <= i < |[s[0]] + w| && Matches(([s[0]] + w)[i], x, n);
          assert Matches(w[i - 1], x, n);
        }
      }
    }
  }

  /** Deleting the entries of an object that has none leaves the list as it was. */
  lemma {:induction false} WithoutAbsent(s: seq<DebugProp>, o: ObjId)
    requires !HasObject(s, o)
    ensures Without(s, o) == s
  {
    if s != [] {
      assert !IsFor(s[0], o);
      forall i | 0 <= i < |s[1..]|
        ensures !IsFor(s[1..][i], o)
      {
        assert s[1..][i] == s[i + 1];
      }
      WithoutAbsent(s[1..], o);
    }
  }

  /**
   * Adding a pair and then removing it: the add does no duplicate check, so
   * the removal takes out the earlier copy when there is one and the new
   * entry otherwise.
   */
  lemma {:induction false} AddThenRemove(s: seq<DebugProp>, o: ObjId, n: string)
    ensures RemoveFirst(s + [DebugProp(Some(o), n)], o, n)
         == if HasProperty(s, o, n) then RemoveFirst(s, o, n) + [DebugProp(Some(o), n)] else s
  {
    var p := DebugProp(Some(o), n);
    if s == [] {
      assert [] + [p] == [p];
    } else {
      assert (s + [p])[1..] == s[1..] + [p];
      AddThenRemove(s[1..], o, n);
      if !Matches(s[0], o, n) {
        HasPropertyTail(s, o, n);
      } else {
        assert HasProperty(s, o, n) by { assert Matches(s[0], o, n); }
      }
    }
  }

  /** Every list embeds in itself. */
  lemma {:induction false} EmbedsRefl(s: seq<DebugProp>)
    ensures Embeds(s, s)
  {
    if s != [] {
      EmbedsRefl(s[1..]);
    }
  }
}
