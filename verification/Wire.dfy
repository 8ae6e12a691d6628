/** Fields inside fixed-size message buffers, on a little-endian machine: integers stored through a pointer
    cast, and text stored with strncpy. */
module Wire {
  import opened Bytes

  // ----- integers

  function Le16(x: int): (s: seq<byte>)
    ensures |s| == 2
  {
    var u := x % 0x1_0000;
    [u % 256, u / 256]
  }

  function Le32(x: int): (s: seq<byte>)
    ensures |s| == 4
  {
    var u := x % 0x1_0000_0000;
    var q := u / 256;
    var r := q / 256;
    [u % 256, q % 256, r % 256, r / 256]
  }

  function Int16(s: seq<byte>): (r: int16)
    requires |s| == 2
  {
    var a: int, b: int := s[0], s[1];
    Wrap16(a + 256 * b)
  }

  function Int32(s: seq<byte>): (r: int32)
    requires |s| == 4
  {
    var a: int, b: int, c: int, d: int := s[0], s[1], s[2], s[3];
    Wrap32(a + 256 * b + 0x1_0000 * c + 0x100_0000 * d)
  }

  /** Storing an integer and loading it keeps what fits into the field. */
  lemma Le16RoundTrip(x: int)
    ensures Int16(Le16(x)) == Wrap16(x) && (-0x8000 <= x < 0x8000 ==> Int16(Le16(x)) == x)
  {
  }

  lemma Le32RoundTrip(x: int)
    ensures Int32(Le32(x)) == Wrap32(x) && (-0x8000_0000 <= x < 0x8000_0000 ==> Int32(Le32(x)) == x)
  {
    var u := x % 0x1_0000_0000;
    var q := u / 256;
    var r := q / 256;
    assert u == u % 256 + 256 * q && q == q % 256 + 256 * r && r == r % 256 + 256 * (r / 256);
    Wrap32Once(x);
    hide Wrap32;
  }

  lemma Wrap32Once(x: int)
    ensures Wrap32(x % 0x1_0000_0000) == Wrap32(x)
    ensures -0x8000_0000 <= x < 0x8000_0000 ==> Wrap32(x) == x
  {
  }

  // ----- text

  /** The length of the C string at the start of t, where the end of t stands for a NUL. */
  function StrLen(t: Text): (k: nat)
    ensures k <= |t| && NulFree(t[..k])
    ensures k < |t| ==> t[k] == 0
  {
    if t == [] || t[0] == 0 then 0 else 1 + StrLen(t[1..])
  }

  function Zeros(n: nat): (r: seq<byte>) { seq(n, _ => 0) }

  /** What strncpy(_, t.data(), n) writes: the C string cut after n bytes, then NULs up to n. */
  function StrNCpy(t: Text, n: nat): (s: seq<byte>)
    ensures |s| == n
  {
    if StrLen(t) >= n then t[..n] else t[..StrLen(t)] + Zeros(n - StrLen(t))
  }

  /** strnlen on a whole field, and the string made from it. */
  function FieldText(s: seq<byte>): (r: Text) { s[..StrLen(s)] }

  /** What a field of n bytes keeps of t. */
  function Kept(t: Text, n: nat): (r: Text) { t[..if StrLen(t) < n then StrLen(t) else n] }

  lemma {:induction false} StrLenIs(t: Text, k: nat)
    requires k <= |t| && NulFree(t[..k]) && (k < |t| ==> t[k] == 0)
    ensures StrLen(t) == k
  {
    if k > 0 {
      assert t[..k][0] == t[0];
      assert t[1..][..k - 1] == t[..k][1..];
      StrLenIs(t[1..], k - 1);
    }
  }

  lemma FieldRoundTrip(t: Text, n: nat)
    ensures FieldText(StrNCpy(t, n)) == Kept(t, n)
  {
    var s := StrNCpy(t, n);
    if StrLen(t) >= n {
      assert t[..n] == t[..StrLen(t)][..n];
      StrLenIs(s, n);
    } else {
      assert s[..StrLen(t)] == t[..StrLen(t)];
      StrLenIs(s, StrLen(t));
    }
  }

  /** Text without NULs that fits survives; a text of exactly n bytes fills the field. */
  lemma KeptFits(t: Text, n: nat)
    requires NulFree(t) && |t| <= n
    ensures Kept(t, n) == t
    ensures |t| == n ==> StrNCpy(t, n) == t
  {
    assert t[..|t|] == t;
    StrLenIs(t, |t|);
  }

  // ----- a field inside a buffer

  function Splice(d: seq<byte>, at: nat, s: seq<byte>): (d': seq<byte>)
    requires at + |s| <= |d|
    ensures |d'| == |d|
  {
    d[..at] + s + d[at + |s|..]
  }

  /** A field reads back as it was written, and everything outside it as before. */
  lemma SpliceReads(d: seq<byte>, at: nat, s: seq<byte>)
    requires at + |s| <= |d|
    ensures Splice(d, at, s)[at..at + |s|] == s
    ensures forall i, j ::
      0 <= i <= j <= |d| && (j <= at || at + |s| <= i) ==> Splice(d, at, s)[i..j] == d[i..j]
  {
  }

  /** Writing through a cast pointer. */
  method Put(data: array<byte>, at: nat, s: seq<byte>)
    requires at + |s| <= data.Length
    modifies data
    ensures data[..] == Splice(old(data[..]), at, s)
  {
    ghost var before := data[..];
    var i := 0;
    while i < |s|
      invariant i <= |s|
      invariant data[..] == before[..at] + s[..i] + before[at + i..]
    {
      data[at + i] := s[i];
      i := i + 1;
    }
    assert s[..|s|] == s;
  }

  /** std::strncpy: copy up to the first NUL, then pad. */
  method PutText(data: array<byte>, at: nat, t: Text, n: nat)
    requires at + n <= data.Length
    modifies data
    ensures data[..] == Splice(old(data[..]), at, StrNCpy(t, n))
  {
    var k := 0;
    while k < n && k < |t| && t[k] != 0
      invariant k <= n && k <= |t| && NulFree(t[..k])
    {
      k := k + 1;
    }
    CutIs(t, k, n);
    SpliceTwice(data[..], at, t[..k], Zeros(n - k));
    hide Splice, StrNCpy;
    Put(data, at, t[..k]);
    Put(data, at + k, Zeros(n - k));
  }

  lemma SpliceTwice(d: seq<byte>, at: nat, s: seq<byte>, t: seq<byte>)
    requires at + |s| + |t| <= |d|
    ensures Splice(Splice(d, at, s), at + |s|, t) == Splice(d, at, s + t)
  {
  }

  lemma CutIs(t: Text, k: nat, n: nat)
    requires k <= n && k <= |t| && NulFree(t[..k]) && (k < n && k < |t| ==> t[k] == 0)
    ensures StrNCpy(t, n) == t[..k] + Zeros(n - k)
  {
    if k < n {
      StrLenIs(t, k);
    } else {
      StrLenAtLeast(t, n);
      assert t[..n] + Zeros(0) == t[..n];
    }
  }

  lemma {:induction false} StrLenAtLeast(t: Text, n: nat)
    requires n <= |t| && NulFree(t[..n])
    ensures StrLen(t) >= n
  {
    if n > 0 {
      assert t[..n][0] == t[0];
      assert t[1..][..n - 1] == t[..n][1..];
      StrLenAtLeast(t[1..], n - 1);
    }
  }
}
