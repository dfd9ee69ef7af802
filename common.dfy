/**
 * Shared vocabulary for the WAVE model: optional values, the C++ fixed-width
 * unsigned integer types, little-endian byte encoding (the wire layout of
 * ns-3 tag buffers) and two sequence operations the containers use.
 */
module Common {

  datatype Option<T> = None | Some(value: T)

  type uint8 = x: int | 0 <= x < 0x100
  type uint32 = x: int | 0 <= x < 0x1_0000_0000
  type uint64 = x: int | 0 <= x < 0x1_0000_0000_0000_0000

  const TWO_TO_THE_32: int := 0x1_0000_0000

  /** Reduction of an integer result into `uint32_t`, as C++ unsigned arithmetic does. */
  function Wrap32(x: int): (r: uint32)
    ensures 0 <= x < TWO_TO_THE_32 ==> r == x
    ensures -TWO_TO_THE_32 <= x < 0 ==> r == x + TWO_TO_THE_32
    ensures TWO_TO_THE_32 <= x < 2 * TWO_TO_THE_32 ==> r == x - TWO_TO_THE_32
  {
    x % TWO_TO_THE_32
  }

  // ---------------------------------------------------------------------
  // Little-endian encoding
  // ---------------------------------------------------------------------

  function Pow256(n: nat): (r: nat)
    ensures r >= 1
  {
    if n == 0 then 1 else 256 * Pow256(n - 1)
  }

  /** The `n` bytes of `x`, least significant byte first. */
  function EncodeLE(x: nat, n: nat): (r: seq<uint8>)
    requires x < Pow256(n)
    ensures |r| == n
  {
    if n == 0 then [] else [x % 256] + EncodeLE(x / 256, n - 1)
  }

  /** The number whose little-endian bytes are `s`. */
  function DecodeLE(s: seq<uint8>): (r: nat)
    ensures r < Pow256(|s|)
  {
    if s == [] then 0 else s[0] + 256 * DecodeLE(s[1..])
  }

  lemma {:induction false} DecodeEncode(x: nat, n: nat)
    requires x < Pow256(n)
    ensures DecodeLE(EncodeLE(x, n)) == x
  {
    if n > 0 {
      var e := EncodeLE(x, n);
      assert e[1..] == EncodeLE(x / 256, n - 1);
      DecodeEncode(x / 256, n - 1);
    }
  }

  lemma {:induction false} EncodeDecode(s: seq<uint8>)
    ensures EncodeLE(DecodeLE(s), |s|) == s
  {
    if s != [] {
      var d := DecodeLE(s[1..]);
      assert (s[0] + 256 * d) % 256 == s[0];
      assert (s[0] + 256 * d) / 256 == d;
      EncodeDecode(s[1..]);
    }
  }

  /** Two values of the same width encode alike exactly when they are equal. */
  lemma EncodeInjective(x: nat, y: nat, n: nat)
    requires x < Pow256(n) && y < Pow256(n)
    ensures EncodeLE(x, n) == EncodeLE(y, n) <==> x == y
  {
    if EncodeLE(x, n) == EncodeLE(y, n) {
      DecodeEncode(x, n);
      DecodeEncode(y, n);
    }
  }

  lemma Pow256Values()
    ensures Pow256(4) == TWO_TO_THE_32
    ensures Pow256(8) == 0x1_0000_0000_0000_0000
  {
    assert Pow256(2) == 0x1_0000;
    assert Pow256(4) == 0x1_0000_0000;
    assert Pow256(6) == 0x1_0000_0000_0000;
  }

  // ---------------------------------------------------------------------
  // Sequence helpers
  // ---------------------------------------------------------------------

  /** The elements of `s` that satisfy `keep`, in their original order. */
  function Filter<T>(s: seq<T>, keep: T -> bool): (r: seq<T>)
    ensures |r| <= |s|
    ensures forall x :: x in r ==> x in s && keep(x)
    ensures forall i :: 0 <= i < |s| && keep(s[i]) ==> s[i] in r
  {
    if s == [] then []
    else
      var init := Filter(s[..|s| - 1], keep);
      assert forall i :: 0 <= i < |s| - 1 ==> s[..|s| - 1][i] == s[i];
      if keep(s[|s| - 1]) then init + [s[|s| - 1]] else init
  }

  /** The multiset of `s` is split by `keep` into the kept and the dropped part. */
  lemma {:induction false} FilterPartition<T>(s: seq<T>, keep: T -> bool)
    ensures multiset(Filter(s, keep)) + multiset(Filter(s, x => !keep(x))) == multiset(s)
  {
    if s != [] {
      var init, x := s[..|s| - 1], s[|s| - 1];
      var drop := y => !keep(y);
      FilterPartition(init, keep);
      assert s == init + [x];
      assert multiset(s) == multiset(init) + multiset{x};
      assert Filter(s, keep) == Filter(init, keep) + (if keep(x) then [x] else []);
      assert Filter(s, drop) == Filter(init, drop) + (if keep(x) then [] else [x]);
    }
  }

  /** Filtering distributes over concatenation. */
  lemma {:induction false} FilterAppend<T>(s: seq<T>, t: seq<T>, keep: T -> bool)
    ensures Filter(s + t, keep) == Filter(s, keep) + Filter(t, keep)
    decreases |t|
  {
    if t == [] {
      assert s + t == s;
    } else {
      var u := t[..|t| - 1];
      assert (s + t)[..|s + t| - 1] == s + u;
      FilterAppend(s, u, keep);
    }
  }

  /** Filtering twice by the same test is filtering once. */
  lemma {:induction false} FilterIdempotent<T>(s: seq<T>, keep: T -> bool)
    ensures Filter(Filter(s, keep), keep) == Filter(s, keep)
  {
    if s != [] {
      var init := s[..|s| - 1];
      FilterIdempotent(init, keep);
      if keep(s[|s| - 1]) {
        FilterAppend(Filter(init, keep), [s[|s| - 1]], keep);
        assert Filter([s[|s| - 1]], keep) == [s[|s| - 1]] by {
          assert [s[|s| - 1]][..0] == [];
        }
      }
    }
  }

  /** Filtering a sequence extended by one element. */
  lemma FilterSnoc<T>(s: seq<T>, x: T, keep: T -> bool)
    ensures Filter(s + [x], keep) == Filter(s, keep) + (if keep(x) then [x] else [])
  {
    assert (s + [x])[..|s + [x]| - 1] == s;
  }

  /** Two filters may be applied in either order. */
  lemma {:induction false} FilterCommutes<T>(s: seq<T>, p: T -> bool, q: T -> bool)
    ensures Filter(Filter(s, p), q) == Filter(Filter(s, q), p)
  {
    if s != [] {
      var init := s[..|s| - 1];
      var x := s[|s| - 1];
      assert s == init + [x];
      FilterCommutes(init, p, q);
      FilterSnoc(init, x, p);
      FilterSnoc(init, x, q);
      if p(x) {
        FilterSnoc(Filter(init, p), x, q);
      }
      if q(x) {
        FilterSnoc(Filter(init, q), x, p);
      }
    }
  }

  /** `s` with its first occurrence of `x` removed (the erase-and-break loop over a vector). */
  function RemoveFirst<T(==)>(s: seq<T>, x: T): (r: seq<T>)
    ensures x !in s ==> r == s
    ensures x in s ==> |r| == |s| - 1
    ensures multiset(r) == multiset(s) - multiset{x}
  {
    if s == [] then []
    else if s[0] == x then
      assert s == [s[0]] + s[1..];
      s[1..]
    else
      assert s == [s[0]] + s[1..];
      [s[0]] + RemoveFirst(s[1..], x)
  }

  /** When `i` is the first position holding `x`, removing the first `x` deletes exactly index `i`. */
  lemma {:induction false} RemoveFirstAt<T>(s: seq<T>, x: T, i: nat)
    requires i < |s| && s[i] == x && x !in s[..i]
    ensures RemoveFirst(s, x) == s[..i] + s[i + 1..]
  {
    if i > 0 {
      var t := s[1..];
      assert s[0] in s[..i];
      assert t[..i - 1] == s[1..i];
      assert x !in t[..i - 1];
      RemoveFirstAt(t, x, i - 1);
      assert RemoveFirst(s, x) == [s[0]] + RemoveFirst(t, x);
      assert s[..i] == [s[0]] + t[..i - 1];
      assert s[i + 1..] == t[i..];
    }
  }
}
