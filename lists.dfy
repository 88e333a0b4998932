/** The Swift `Array` operations the in-memory stores rely on:
    `firstIndex(where:)` on a key and `remove(atOffsets:)`. */
module Lists {
  import opened Common

  /** `s.firstIndex(where: { key($0) == k })`: the first position whose key
      is `k`, or `None` when no element has that key. */
  function FirstIndexOf<T, K(==)>(s: seq<T>, key: T -> K, k: K): (r: Option<nat>)
    ensures r.None? <==> forall i :: 0 <= i < |s| ==> key(s[i]) != k
    ensures r.Some? ==> r.value < |s| && key(s[r.value]) == k
    ensures r.Some? ==> forall j :: 0 <= j < r.value ==> key(s[j]) != k
  {
    if s == [] then None
    else if key(s[0]) == k then Some(0)
    else
      match FirstIndexOf(s[1..], key, k)
      case None => None
      case Some(i) => Some(i + 1)
  }

  /** The positions below `n` that are not in `offsets`, in ascending order:
      the positions that survive `remove(atOffsets: offsets)`. */
  function KeptIndices(n: nat, offsets: set<nat>): (r: seq<nat>)
    ensures |r| <= n
    ensures forall k :: 0 <= k < |r| ==> r[k] < n && r[k] !in offsets
  {
    if n == 0 then []
    else KeptIndices(n - 1, offsets) + (if n - 1 in offsets then [] else [n - 1])
  }

  /** The kept positions are strictly ascending, and every position below `n`
      that is not an offset is kept. */
  lemma {:induction false} KeptIndicesComplete(n: nat, offsets: set<nat>)
    ensures forall k, l :: 0 <= k < l < |KeptIndices(n, offsets)| ==>
              KeptIndices(n, offsets)[k] < KeptIndices(n, offsets)[l]
    ensures forall i :: 0 <= i < n && i !in offsets ==> i in KeptIndices(n, offsets)
  {
    if n > 0 {
      KeptIndicesComplete(n - 1, offsets);
      var prev := KeptIndices(n - 1, offsets);
      assert KeptIndices(n, offsets) == prev + (if n - 1 in offsets then [] else [n - 1]);
    }
  }

  /** `s.remove(atOffsets: offsets)`: drops the element at every offset. */
  function RemoveOffsets<T>(s: seq<T>, offsets: set<nat>): (r: seq<T>)
    ensures |r| <= |s|
  {
    if s == [] then []
    else
      RemoveOffsets(s[..|s| - 1], offsets)
      + (if |s| - 1 in offsets then [] else [s[|s| - 1]])
  }

  /** The survivors of `remove(atOffsets:)` are exactly the elements at the
      kept positions, in their original relative order. */
  lemma {:induction false} RemoveOffsetsKeeps<T>(s: seq<T>, offsets: set<nat>)
    ensures |RemoveOffsets(s, offsets)| == |KeptIndices(|s|, offsets)|
    ensures forall k :: 0 <= k < |RemoveOffsets(s, offsets)| ==>
              RemoveOffsets(s, offsets)[k] == s[KeptIndices(|s|, offsets)[k]]
  {
    if s != [] {
      var init := s[..|s| - 1];
      RemoveOffsetsKeeps(init, offsets);
      var r0 := RemoveOffsets(init, offsets);
      var k0 := KeptIndices(|init|, offsets);
      assert KeptIndices(|s|, offsets) == k0 + (if |s| - 1 in offsets then [] else [|s| - 1]);
      assert RemoveOffsets(s, offsets) == r0 + (if |s| - 1 in offsets then [] else [s[|s| - 1]]);
      forall k | 0 <= k < |r0|
        ensures r0[k] == s[k0[k]]
      {
        assert r0[k] == init[k0[k]];
      }
    }
  }

  /** Removing no offsets leaves the array as it was. */
  lemma {:induction false} RemoveNoOffsets<T>(s: seq<T>)
    ensures RemoveOffsets(s, {}) == s
  {
    if s != [] {
      RemoveNoOffsets(s[..|s| - 1]);
      assert s[..|s| - 1] + [s[|s| - 1]] == s;
    }
  }

  /** `s.remove(at: i)` is `remove(atOffsets: [i])`. */
  lemma RemoveSingleOffset<T>(s: seq<T>, i: nat)
    requires i < |s|
    ensures RemoveOffsets(s, {i}) == s[..i] + s[i + 1..]
  {
    var r := RemoveOffsets(s, {i});
    var keep := KeptIndices(|s|, {i});
    KeptIndicesSingle(|s|, i);
    RemoveOffsetsKeeps(s, {i});
    assert |r| == |s| - 1;
    forall k | 0 <= k < |r|
      ensures r[k] == (s[..i] + s[i + 1..])[k]
    {
      assert r[k] == s[keep[k]];
    }
  }

  lemma {:induction false} KeptIndicesSingle(n: nat, i: nat)
    requires i < n
    ensures |KeptIndices(n, {i})| == n - 1
    ensures forall k :: 0 <= k < n - 1 ==> KeptIndices(n, {i})[k] == if k < i then k else k + 1
  {
    if n - 1 == i {
      KeptIndicesNone(n - 1, {i});
    } else {
      KeptIndicesSingle(n - 1, i);
    }
  }

  lemma {:induction false} KeptIndicesNone(n: nat, offsets: set<nat>)
    requires forall j :: j in offsets ==> j >= n
    ensures |KeptIndices(n, offsets)| == n
    ensures forall k :: 0 <= k < n ==> KeptIndices(n, offsets)[k] == k
  {
    if n > 0 {
      KeptIndicesNone(n - 1, offsets);
    }
  }

  /** The offsets that fall below `n`. */
  function OffsetsBelow(n: nat, offsets: set<nat>): set<nat>
  {
    set o | o in offsets && o < n
  }

  /** Each offset below `n` removes exactly one position. */
  lemma {:induction false} KeptIndicesCount(n: nat, offsets: set<nat>)
    ensures |KeptIndices(n, offsets)| == n - |OffsetsBelow(n, offsets)|
  {
    if n == 0 {
      assert OffsetsBelow(0, offsets) == {};
    } else {
      KeptIndicesCount(n - 1, offsets);
      if n - 1 in offsets {
        assert OffsetsBelow(n, offsets) == OffsetsBelow(n - 1, offsets) + {n - 1};
      } else {
        assert OffsetsBelow(n, offsets) == OffsetsBelow(n - 1, offsets);
      }
    }
  }

  /** With every offset a valid position, the array shrinks by the number of
      offsets. */
  lemma RemoveOffsetsCount<T>(s: seq<T>, offsets: set<nat>)
    requires forall o :: o in offsets ==> o < |s|
    ensures |RemoveOffsets(s, offsets)| == |s| - |offsets|
  {
    RemoveOffsetsKeeps(s, offsets);
    KeptIndicesCount(|s|, offsets);
    assert OffsetsBelow(|s|, offsets) == offsets;
  }
}
