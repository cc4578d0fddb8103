/** List helpers of the simulator: flattening a list of lists, cutting a list
    into consecutive chunks, and distinctness. */
module Lists {

  predicate Distinct<T(==)>(s: seq<T>) {
    forall p, q :: 0 <= p < q < |s| ==> s[p] != s[q]
  }

  /** A list without repeats holds each value at most once. */
  lemma {:induction false} DistinctCount<T>(s: seq<T>, x: T)
    requires Distinct(s)
    ensures multiset(s)[x] <= 1
  {
    if s != [] {
      assert s == [s[0]] + s[1..];
      DistinctCount(s[1..], x);
      if x == s[0] {
        assert x !in s[1..] by {
          forall q | 0 <= q < |s[1..]|
            ensures s[1..][q] != x
          {
            assert s[1..][q] == s[q + 1];
          }
        }
      }
    }
  }

  /** Reordering a list without repeats leaves none. */
  lemma DistinctMultiset<T>(a: seq<T>, b: seq<T>)
    requires Distinct(a) && multiset(a) == multiset(b)
    ensures Distinct(b)
  {
    forall p, q | 0 <= p < q < |b|
      ensures b[p] != b[q]
    {
      if b[p] == b[q] {
        assert b == b[..q] + b[q..];
        assert b[p] in b[..q] && b[q] in b[q..];
        assert multiset(b)[b[p]] == multiset(b[..q])[b[p]] + multiset(b[q..])[b[p]];
        DistinctCount(a, b[p]);
      }
    }
  }

  /** The inner lists joined in order. */
  function Concat<T>(lists: seq<seq<T>>): seq<T> {
    if lists == [] then [] else Concat(lists[..|lists| - 1]) + lists[|lists| - 1]
  }

  function TotalLength<T>(lists: seq<seq<T>>): nat {
    if lists == [] then 0 else TotalLength(lists[..|lists| - 1]) + |lists[|lists| - 1]|
  }

  /** Consecutive slices of `s`, each of length `size` except possibly the last,
      as Python's s[i:i+size] for i in range(0, len(s), size). */
  function Chunks<T>(s: seq<T>, size: nat): (r: seq<seq<T>>)
    requires size > 0
    decreases |s|
  {
    if s == [] then []
    else if |s| <= size then [s]
    else [s[..size]] + Chunks(s[size..], size)
  }

  /** Flattening a list of lists, by appending every element of every inner
      list in turn. */
  method Flatten<T>(lists: seq<seq<T>>) returns (flat: seq<T>)
    ensures flat == Concat(lists)
    ensures |flat| == TotalLength(lists)
  {
    flat := [];
    var i := 0;
    while i < |lists|
      invariant 0 <= i <= |lists|
      invariant flat == Concat(lists[..i])
      invariant |flat| == TotalLength(lists[..i])
    {
      var inner := lists[i];
      var j := 0;
      while j < |inner|
        invariant 0 <= j <= |inner|
        invariant flat == Concat(lists[..i]) + inner[..j]
        invariant |flat| == TotalLength(lists[..i]) + j
      {
        flat := flat + [inner[j]];
        j := j + 1;
      }
      assert lists[..i + 1][..i] == lists[..i];
      assert inner[..j] == inner;
      i := i + 1;
    }
    assert lists[..i] == lists;
  }

  lemma {:induction false} ConcatAppend<T>(lists: seq<seq<T>>, s: seq<T>)
    ensures Concat([s] + lists) == s + Concat(lists)
    decreases |lists|
  {
    if lists == [] {
      assert ([s] + lists)[..0] == [];
    } else {
      var init := lists[..|lists| - 1];
      assert ([s] + lists)[..|[s] + lists| - 1] == [s] + init;
      ConcatAppend(init, s);
    }
  }

  /** Chunking then flattening gives back the list, and every chunk but the
      last holds exactly `size` elements. */
  lemma {:induction false} ChunksFlatten<T>(s: seq<T>, size: nat)
    requires size > 0
    ensures Concat(Chunks(s, size)) == s
    ensures forall c :: c in Chunks(s, size) ==> 0 < |c| <= size
    decreases |s|
  {
    if s == [] {
    } else if |s| <= size {
      assert Concat([s]) == Concat([s][..0]) + s;
    } else {
      ChunksFlatten(s[size..], size);
      ConcatAppend(Chunks(s[size..], size), s[..size]);
      assert s[..size] + s[size..] == s;
    }
  }

  function Min(a: int, b: int): int {
    if a <= b then a else b
  }

  /** One step of chunking: the first chunk of the rest of the list from i is
      the slice s[i:i+size], clamped at the end as Python clamps it. */
  lemma ChunksStep<T>(s: seq<T>, i: nat, size: nat)
    requires size > 0 && i < |s|
    ensures Chunks(s[i..], size) == [s[i..Min(i + size, |s|)]] + Chunks(s[Min(i + size, |s|)..], size)
  {
    var rest := s[i..];
    if |rest| <= size {
      assert s[Min(i + size, |s|)..] == [];
      assert rest == s[i..Min(i + size, |s|)];
    } else {
      assert rest[..size] == s[i..i + size];
      assert rest[size..] == s[i + size..];
    }
  }

  /** The grouping loop of the driver: consecutive slices of `size` elements
      appended in turn, the last one possibly shorter. */
  method Group<T>(s: seq<T>, size: nat) returns (groups: seq<seq<T>>)
    requires size > 0
    ensures groups == Chunks(s, size)
  {
    groups := [];
    var i := 0;
    while i < |s|
      invariant 0 <= i < |s| + size
      invariant i < |s| ==> groups + Chunks(s[i..], size) == Chunks(s, size)
      invariant i >= |s| ==> groups == Chunks(s, size)
      decreases |s| - i
    {
      ChunksStep(s, i, size);
      groups := groups + [s[i..Min(i + size, |s|)]];
      i := i + size;
      if i >= |s| {
        assert s[Min(i, |s|)..] == [];
      } else {
        assert Min(i, |s|) == i;
      }
    }
    if |s| == 0 {
      assert groups == [] && Chunks(s, size) == [];
    }
  }

  /** Cutting 4k teams into groups of four makes k groups of four, group g
      holding teams 4g to 4g+3; for the 32 teams of the tournament, 8 groups. */
  lemma {:induction false} ChunksOfFour<T>(s: seq<T>, k: nat)
    requires |s| == 4 * k
    ensures |Chunks(s, 4)| == k
    ensures forall g :: 0 <= g < k ==> Chunks(s, 4)[g] == s[4 * g..4 * g + 4]
    decreases k
  {
    if k > 1 {
      var rest := s[4..];
      ChunksOfFour(rest, k - 1);
      forall g | 0 <= g < k
        ensures Chunks(s, 4)[g] == s[4 * g..4 * g + 4]
      {
        if g > 0 {
          assert Chunks(s, 4)[g] == Chunks(rest, 4)[g - 1];
          assert rest[4 * (g - 1)..4 * (g - 1) + 4] == s[4 * g..4 * g + 4];
        }
      }
    }
  }

  /** The length of the flattened list is the sum of the inner lengths. */
  lemma {:induction false} ConcatLength<T>(lists: seq<seq<T>>)
    ensures |Concat(lists)| == TotalLength(lists)
  {
    if lists != [] {
      ConcatLength(lists[..|lists| - 1]);
    }
  }
}
