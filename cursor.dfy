/**
 * The iterator handle: a cursor over the keys of a fixed key-value view in
 * comparator order, or "not valid" when it has fallen off either end.
 */
module Cursor {
  import opened ByteStrings
  import opened ErrorChannel

  predicate StrictlySorted(ks: seq<Bytes>)
  {
    forall i, j :: 0 <= i < j < |ks| ==> LexLess(ks[i], ks[j])
  }

  predicate IsLeast(k: Bytes, s: set<Bytes>)
  {
    k in s && forall x :: x in s ==> x == k || LexLess(k, x)
  }

  predicate IsGreatest(k: Bytes, s: set<Bytes>)
  {
    k in s && forall x :: x in s ==> x == k || LexLess(x, k)
  }

  /** The keys of s that are not before target. */
  function AtOrAfter(s: set<Bytes>, target: Bytes): set<Bytes>
  {
    set k | k in s && !LexLess(k, target)
  }

  function After(s: set<Bytes>, pivot: Bytes): set<Bytes>
  {
    set k | k in s && LexLess(pivot, k)
  }

  function Before(s: set<Bytes>, pivot: Bytes): set<Bytes>
  {
    set k | k in s && LexLess(k, pivot)
  }

  lemma {:induction false} GreatestExists(s: set<Bytes>)
    requires s != {}
    ensures exists k :: k in s && IsGreatest(k, s)
    decreases |s|
  {
    var x :| x in s;
    if s != {x} {
      var rest := s - {x};
      GreatestExists(rest);
      var g :| g in rest && IsGreatest(g, rest);
      LexLessTotal(g, x);
      if LexLess(g, x) {
        forall y | y in s ensures y == x || LexLess(y, x) {
          if y != x && y != g {
            LexLessTransitive(y, g, x);
          }
        }
        assert IsGreatest(x, s);
      } else {
        assert IsGreatest(g, s);
      }
    } else {
      assert IsGreatest(x, s);
    }
  }

  /** Two keys that are both least (or both greatest) in a set are the same key. */
  lemma ExtremesUnique(k1: Bytes, k2: Bytes, s: set<Bytes>)
    ensures IsLeast(k1, s) && IsLeast(k2, s) ==> k1 == k2
    ensures IsGreatest(k1, s) && IsGreatest(k2, s) ==> k1 == k2
  {
    LexLessAsymmetric(k1, k2);
  }

  /** The keys of s in comparator order: what the engine's ordered table yields. */
  function SortedKeys(s: set<Bytes>): (ks: seq<Bytes>)
    ensures StrictlySorted(ks)
    ensures forall k :: k in ks <==> k in s
    decreases |s|
  {
    if s == {} then []
    else
      GreatestExists(s);
      assert forall k1, k2 :: IsGreatest(k1, s) && IsGreatest(k2, s) ==> k1 == k2 by {
        forall k1, k2 | IsGreatest(k1, s) && IsGreatest(k2, s) ensures k1 == k2 {
          ExtremesUnique(k1, k2, s);
        }
      }
      var k :| k in s && IsGreatest(k, s);
      var smaller := SortedKeys(s - {k});
      assert forall i :: 0 <= i < |smaller| ==> smaller[i] in s - {k};
      smaller + [k]
  }

  class Iterator {
    /** The key-value view the iterator was created over (the database, or a snapshot of it). */
    const view: map<Bytes, Bytes>
    const keys: seq<Bytes>
    var valid: bool
    var index: nat

    ghost predicate Valid()
      reads this
    {
      && StrictlySorted(keys)
      && (forall k :: k in keys <==> k in view)
      && (valid ==> index < |keys|)
    }

    /** A freshly created iterator is not valid until it is positioned. */
    constructor (view: map<Bytes, Bytes>)
      ensures Valid() && this.view == view && !valid
    {
      this.view := view;
      this.keys := SortedKeys(view.Keys);
      valid := false;
      index := 0;
    }

    /** iter_valid: the bool byte 1 when positioned at an entry, 0 otherwise. */
    method IsValid() returns (b: byte)
      requires Valid()
      ensures b == if valid then 1 else 0
    {
      b := if valid then 1 else 0;
    }

    /** Moves to the first key of the view; not valid if the view is empty. */
    method SeekToFirst()
      requires Valid()
      modifies this
      ensures Valid()
      ensures valid == (view != map[])
      ensures valid ==> IsLeast(keys[index], view.Keys)
    {
      valid := |keys| > 0;
      index := 0;
      if valid {
        assert keys[0] in view;
        forall x | x in view.Keys ensures x == keys[0] || LexLess(keys[0], x) {
          assert x in keys;
        }
      } else {
        assert forall k :: k !in view;
      }
    }

    /** Moves to the last key of the view; not valid if the view is empty. */
    method SeekToLast()
      requires Valid()
      modifies this
      ensures Valid()
      ensures valid == (view != map[])
      ensures valid ==> IsGreatest(keys[index], view.Keys)
    {
      valid := |keys| > 0;
      index := if valid then |keys| - 1 else 0;
      if valid {
        assert keys[index] in view;
        forall x | x in view.Keys ensures x == keys[index] || LexLess(x, keys[index]) {
          assert x in keys;
        }
      } else {
        assert forall k :: k !in view;
      }
    }

    /** Moves to the first key at or after target; not valid if there is none. */
    method Seek(target: Bytes)
      requires Valid()
      modifies this
      ensures Valid()
      ensures valid == (AtOrAfter(view.Keys, target) != {})
      ensures valid ==> IsLeast(keys[index], AtOrAfter(view.Keys, target))
    {
      var i := 0;
      while i < |keys| && LexLess(keys[i], target)
        invariant 0 <= i <= |keys|
        invariant forall j :: 0 <= j < i ==> LexLess(keys[j], target)
      {
        i := i + 1;
      }
      valid := i < |keys|;
      index := i;
      if valid {
        assert keys[i] in AtOrAfter(view.Keys, target);
        forall x | x in AtOrAfter(view.Keys, target) ensures x == keys[i] || LexLess(keys[i], x) {
          assert x in keys;
        }
      } else {
        forall x | x in view.Keys ensures x !in AtOrAfter(view.Keys, target) {
          assert x in keys;
        }
      }
    }

    /** Moves to the next key; falls off the end into not valid. */
    method Next()
      requires Valid() && valid
      modifies this
      ensures Valid()
      ensures valid == (After(view.Keys, old(keys[index])) != {})
      ensures valid ==> IsLeast(keys[index], After(view.Keys, old(keys[index])))
    {
      var cur := keys[index];
      index := index + 1;
      valid := index < |keys|;
      forall x | x in After(view.Keys, cur)
        ensures index < |keys| && (x == keys[index] || LexLess(keys[index], x))
      {
        var j :| 0 <= j < |keys| && keys[j] == x;
        if j < index - 1 {
          LexLessAsymmetric(x, cur);
        } else if j == index - 1 {
          LexLessIrreflexive(x);
        }
      }
      if valid {
        assert keys[index] in After(view.Keys, cur);
      } else {
        index := 0;
      }
    }

    /** Moves to the previous key; falls off the front into not valid. */
    method Prev()
      requires Valid() && valid
      modifies this
      ensures Valid()
      ensures valid == (Before(view.Keys, old(keys[index])) != {})
      ensures valid ==> IsGreatest(keys[index], Before(view.Keys, old(keys[index])))
    {
      var cur := keys[index];
      var i := index;
      forall x | x in Before(view.Keys, cur)
        ensures 0 < i && (x == keys[i - 1] || LexLess(x, keys[i - 1]))
      {
        var j :| 0 <= j < |keys| && keys[j] == x;
        if j > i {
          LexLessAsymmetric(x, cur);
        } else if j == i {
          LexLessIrreflexive(x);
        }
      }
      valid := i > 0;
      if valid {
        index := i - 1;
        assert keys[index] in Before(view.Keys, cur);
      }
    }

    /** iter_key: the key at the cursor. */
    method Key() returns (k: Bytes)
      requires Valid() && valid
      ensures k in view && k == keys[index]
    {
      k := keys[index];
    }

    /** iter_value: the value stored under the key at the cursor. */
    method Value() returns (v: Bytes)
      requires Valid() && valid
      ensures keys[index] in view && v == view[keys[index]]
    {
      v := view[keys[index]];
    }

    /** iter_get_error: reports the engine's iteration status through the slot. */
    method GetError(fault: Status, err: ErrSlot)
      modifies err
      ensures err.message == AfterCall(old(err.message), fault)
    {
      err.Save(fault);
    }
  }
}
