/** Cutting a list into consecutive pieces: `chunkArray` of the orchestrator and of the scanner. */
module Chunks {

  /** All pieces put back together. */
  function Flatten<T>(parts: seq<seq<T>>): seq<T> {
    if parts == [] then [] else parts[0] + Flatten(parts[1..])
  }

  predicate NoDup<T(==)>(s: seq<T>) {
    forall i, j :: 0 <= i < j < |s| ==> s[i] != s[j]
  }

  /** `parts` cuts `arr` into pieces of exactly `size` elements, the last one possibly shorter, none empty. */
  ghost predicate CutsInto<T>(parts: seq<seq<T>>, arr: seq<T>, size: nat) {
    && Flatten(parts) == arr
    && (forall k :: 0 <= k < |parts| ==> 0 < |parts[k]| <= size)
    && (forall k :: 0 <= k < |parts| - 1 ==> |parts[k]| == size)
  }

  lemma {:induction false} FlattenConcat<T>(a: seq<seq<T>>, b: seq<seq<T>>)
    ensures Flatten(a + b) == Flatten(a) + Flatten(b)
  {
    if a == [] {
      assert a + b == b;
    } else {
      FlattenConcat(a[1..], b);
      assert (a + b)[1..] == a[1..] + b;
      assert Flatten(a + b) == a[0] + (Flatten(a[1..]) + Flatten(b));
    }
  }

  lemma FlattenSnoc<T>(a: seq<seq<T>>, x: seq<T>)
    ensures Flatten(a + [x]) == Flatten(a) + x
  {
    FlattenConcat(a, [x]);
    assert Flatten([x]) == x;
  }

  /** The prefix made of the first `k` pieces, extended by the next piece. */
  lemma FlattenTake<T>(parts: seq<seq<T>>, k: nat)
    requires k < |parts|
    ensures Flatten(parts[..k + 1]) == Flatten(parts[..k]) + parts[k]
  {
    assert parts[..k + 1] == parts[..k] + [parts[k]];
    FlattenSnoc(parts[..k], parts[k]);
  }

  lemma FlattenSplit<T>(parts: seq<seq<T>>, k: nat)
    requires k <= |parts|
    ensures Flatten(parts) == Flatten(parts[..k]) + Flatten(parts[k..])
  {
    assert parts == parts[..k] + parts[k..];
    FlattenConcat(parts[..k], parts[k..]);
  }

  /** The pieces, from the front. */
  function Pieces<T>(arr: seq<T>, size: nat): seq<seq<T>>
    requires size > 0 || arr == []
  {
    if arr == [] then [] else if |arr| <= size then [arr] else [arr[..size]] + Pieces(arr[size..], size)
  }

  /** The pieces cut the list as wanted. */
  lemma {:induction false} PiecesCut<T>(arr: seq<T>, size: nat)
    requires size > 0 || arr == []
    ensures CutsInto(Pieces(arr, size), arr, size)
    decreases |arr|
  {
    var parts := Pieces(arr, size);
    if arr == [] {
      assert parts == [];
    } else if |arr| <= size {
      assert Flatten(parts) == arr + Flatten<T>([]);
    } else {
      PiecesCut(arr[size..], size);
      var rest := Pieces(arr[size..], size);
      assert Flatten(parts) == arr[..size] + arr[size..];
      forall k | 0 <= k < |parts| ensures 0 < |parts[k]| <= size && (k < |parts| - 1 ==> |parts[k]| == size) {
        assert k > 0 ==> parts[k] == rest[k - 1];
      }
    }
  }

  lemma NextPiece<T>(arr: seq<T>, size: nat, i: nat, hi: nat)
    requires size > 0 && i < |arr| && hi == if i + size < |arr| then i + size else |arr|
    ensures Pieces(arr[i..], size) == [arr[i..hi]] + Pieces(arr[hi..], size)
  {
    if |arr[i..]| <= size {
      assert arr[i..hi] == arr[i..] && arr[hi..] == [];
    } else {
      assert arr[i..][..size] == arr[i..hi] && arr[i..][size..] == arr[hi..];
    }
  }

  /** The orchestrator's `chunkArray`. A size of 0 is only passed for an empty list. */
  method ChunkArray<T>(arr: seq<T>, size: nat) returns (result: seq<seq<T>>)
    requires size > 0 || arr == []
    ensures CutsInto(result, arr, size) && result == Pieces(arr, size)
  {
    result := [];
    var i := 0;
    assert arr[0..] == arr;
    while i < |arr|
      invariant 0 <= i
      invariant result + Pieces(arr[if i < |arr| then i else |arr|..], size) == Pieces(arr, size)
      decreases |arr| - i
    {
      var hi := if i + size < |arr| then i + size else |arr|;
      NextPiece(arr, size, i, hi);
      result := result + [arr[i..hi]];
      i := i + size;
    }
    assert arr[|arr|..] == [] && Pieces<T>([], size) == [];
    assert result + [] == result;
    hide Pieces, CutsInto;
    PiecesCut(arr, size);
  }

  function ShortPieces<T>(items: seq<T>, size: nat): seq<seq<T>>
    requires size > 0
  {
    if |items| <= size then [items] else Pieces(items, size)
  }

  lemma ShortPiecesFlatten<T>(items: seq<T>, size: nat)
    requires size > 0
    ensures Flatten(ShortPieces(items, size)) == items
  {
    if |items| <= size {
      assert Flatten([items]) == items + Flatten<T>([]);
    } else {
      PiecesCut(items, size);
    }
  }

  /** The scanner's `chunkArray`: a short list, even an empty one, is returned as a single piece. */
  method ChunkShort<T>(items: seq<T>, size: nat) returns (chunks: seq<seq<T>>)
    requires size > 0
    ensures Flatten(chunks) == items && chunks == ShortPieces(items, size)
    ensures forall k :: 0 <= k < |chunks| ==> |chunks[k]| <= size
  {
    if |items| <= size {
      assert Flatten([items]) == items + Flatten<T>([]);
      return [items];
    }
    chunks := ChunkArray(items, size);
  }

  // --- facts about the pieces of a duplicate-free list ---

  lemma {:induction false} InFlatten<T>(parts: seq<seq<T>>, x: T)
    ensures x in Flatten(parts) <==> exists k :: 0 <= k < |parts| && x in parts[k]
  {
    if parts == [] {
    } else {
      InFlatten(parts[1..], x);
      if x in Flatten(parts[1..]) {
        var k :| 0 <= k < |parts[1..]| && x in parts[1..][k];
        assert x in parts[k + 1];
      }
      if exists k :: 0 < k < |parts| && x in parts[k] {
        var k :| 0 < k < |parts| && x in parts[k];
        assert x in parts[1..][k - 1];
      }
    }
  }

  lemma NoDupSplit<T>(a: seq<T>, b: seq<T>)
    requires NoDup(a + b)
    ensures NoDup(a) && NoDup(b)
    ensures forall x :: x in a ==> x !in b
  {
    forall i, j | 0 <= i < j < |b| ensures b[i] != b[j] {
      assert (a + b)[|a| + i] != (a + b)[|a| + j];
    }
    forall i, j | 0 <= i < j < |a| ensures a[i] != a[j] {
      assert (a + b)[i] != (a + b)[j];
    }
    forall i, j | 0 <= i < |a| && 0 <= j < |b| ensures a[i] != b[j] {
      assert (a + b)[i] == a[i] && (a + b)[|a| + j] == b[j];
    }
  }

  /** Two different pieces of a duplicate-free list have no element in common. */
  lemma DisjointPieces<T>(parts: seq<seq<T>>, i: nat, j: nat, e: T)
    requires NoDup(Flatten(parts)) && i < j < |parts| && e in parts[i]
    ensures e !in parts[j]
  {
    FlattenSplit(parts, j);
    NoDupSplit(Flatten(parts[..j]), Flatten(parts[j..]));
    InFlatten(parts[..j], e);
    assert parts[..j][i] == parts[i];
    InFlatten(parts[j..], e);
    assert parts[j..][0] == parts[j];
  }
}
