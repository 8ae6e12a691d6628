/** Where each field of a message lies, byte by byte, with the numbers of the protocol written out
    (system/common/messages.hpp, runtime/include/praas/messages.hpp, runtime/local-memory/messages.hpp). */
module Layouts {
  import opened Bytes
  import opened Wire
  import opened MemoryOps
  import SessionRecord
  import C = CommonMessages
  import R = RuntimeMessages
  import M = MemoryMessages

  // ----- fields

  /** The lowest byte comes first. */
  lemma LittleEndian(x: int)
    ensures
      var a: int, b: int := Le16(x)[0], Le16(x)[1];
      a + 256 * b == x % 0x1_0000
    ensures
      var a: int, b: int, c: int, d: int := Le32(x)[0], Le32(x)[1], Le32(x)[2], Le32(x)[3];
      a + 256 * b + 0x1_0000 * c + 0x100_0000 * d == x % 0x1_0000_0000
  {
    var u := x % 0x1_0000_0000;
    var q := u / 256;
    var r := q / 256;
    assert u == u % 256 + 256 * q && q == q % 256 + 256 * r && r == r % 256 + 256 * (r / 256);
  }

  /** A text field holds the text up to its first NUL or the field's size, and NULs behind it. */
  lemma TextField(t: Text, n: nat, k: nat)
    requires k < n
    ensures StrNCpy(t, n)[k] == if k < |t| && NulFree(t[..k + 1]) then t[k] else 0
  {
    if k < StrLen(t) {
      assert t[..k + 1] == t[..StrLen(t)][..k + 1];
    } else if k < |t| {
      assert t[..k + 1][StrLen(t)] == 0;
    }
  }

  // ----- control plane to runtime: 39 bytes

  lemma SessionRequest(d: seq<byte>, id: Text, functions: int32, memory: int32)
    requires |d| == 39
    ensures C.REQUEST_LENGTH == R.EXPECTED_LENGTH == 39
    ensures C.FillSessionRequest(d, id, functions, memory)
      == [12, 0] + Le32(functions) + Le32(memory) + StrNCpy(id, 16) + d[26..]
  {
    assert Le16(12) == [12, 0];
    hide Le16, Le32, StrNCpy;
    var (a, b, c) := (Le32(functions), Le32(memory), StrNCpy(id, 16));
    var d1 := Splice(d, 0, [12, 0]);
    var d2 := Splice(d1, 2, a);
    var d3 := Splice(d2, 6, b);
    assert d1 == [12, 0] + d[2..];
    assert d2 == [12, 0] + a + d[6..];
    assert d3 == [12, 0] + a + b + d[10..];
    assert Splice(d3, 10, c) == [12, 0] + a + b + c + d[26..];
  }

  lemma ProcessRequest(d: seq<byte>, sessions: int16, port: int32, ip: Text, id: Text)
    requires |d| == 39
    ensures C.FillProcessRequest(d, sessions, port, ip, id)
      == [11, 0] + Le16(sessions) + Le32(port) + StrNCpy(ip, 15) + StrNCpy(id, 16)
  {
    assert Le16(11) == [11, 0];
    hide Le16, Le32, StrNCpy;
  }

  /** Bytes 4 and 5, the upper half of the size, are not written. */
  lemma FunctionRequest(d: seq<byte>, name: Text, id: Text, size: int32)
    requires |d| == 39
    ensures C.FillFunctionRequest(d, name, id, size)
      == [13, 0] + Le16(size) + d[4..6] + StrNCpy(name, 16) + StrNCpy(id, 16) + d[38..]
  {
    assert Le16(13) == [13, 0];
    hide Le16, StrNCpy;
    var (a, b, c) := (Le16(size), StrNCpy(name, 16), StrNCpy(id, 16));
    var d1 := Splice(d, 0, [13, 0]);
    var d2 := Splice(d1, 2, a);
    var d3 := Splice(d2, 6, b);
    assert d1 == [13, 0] + d[2..];
    assert d2 == [13, 0] + a + d[4..];
    assert d3 == [13, 0] + a + d[4..6] + b + d[22..];
    assert Splice(d3, 22, c) == [13, 0] + a + d[4..6] + b + c + d[38..];
  }

  // ----- runtime to control plane: 24 bytes

  lemma Identification(d: seq<byte>, id: Text)
    requires |d| == 24
    ensures C.HEADER_LENGTH == R.SEND_LENGTH == 24
    ensures R.Fill(d, R.ProcessIdentification(id)) == [1, 0] + StrNCpy(id, 16) + d[18..]
    ensures R.Fill(d, R.SessionIdentification(id)) == [2, 0] + StrNCpy(id, 16) + d[18..]
  {
    assert Le16(1) == [1, 0] && Le16(2) == [2, 0];
    hide Le16, StrNCpy;
  }

  /** The size comes before the status. */
  lemma SessionMessages(d: seq<byte>, size: int32, status: int32, id: Text)
    requires |d| == 24
    ensures R.Fill(d, R.SessionClose(size, id)) == [3, 0] + Le32(size) + [255, 255] + StrNCpy(id, 16)
    ensures R.Fill(d, R.SessionStatus(status, id)) == [3, 0] + [0, 0, 0, 0] + Le16(status) + StrNCpy(id, 16)
  {
    assert Le16(3) == [3, 0] && Le16(-1) == [255, 255] && Le32(0) == [0, 0, 0, 0];
    hide Le16, Le32, StrNCpy;
  }

  // ----- a function's answers: 24 bytes

  lemma Answers(d: seq<byte>, size: int32, status: int16, code: int, id: Text)
    requires |d| == 24
    ensures R.FillAnswer(d, R.Data(size, id)) == [0, 0] + [255, 255] + Le32(size) + StrNCpy(id, 16)
    ensures R.FillAnswer(d, R.Error(status, id)) == Le16(status) + [255, 255] + [0, 0, 0, 0] + StrNCpy(id, 16)
    ensures R.FillAnswer(d, R.End(code, id)) == [0, 0] + Le16(code) + [0, 0, 0, 0] + StrNCpy(id, 16)
    ensures R.UNKNOWN_REQUEST == 1 && R.OUT_OF_MEMORY == 2 && R.UNKNOWN_FUNCTION == 3
  {
    assert Le16(0) == [0, 0] && Le16(-1) == [255, 255] && Le32(0) == [0, 0, 0, 0];
    hide Le16, Le32, StrNCpy;
  }

  // ----- local memory: 38 bytes

  lemma MemoryMessage(d: seq<byte>, kind: int16, name: Text, size: int32)
    requires |d| == 38
    ensures M.BUF_SIZE == 38
    ensures M.Fill(d, kind, name, size) == Le16(kind) + Le32(size) + StrNCpy(name, 32)
    ensures M.CREATE == 100 && M.GET == 101 && M.PUT == 102 && M.DELETE == 103
  {
    hide Le16, Le32, StrNCpy;
  }

  // ----- the session record

  function Power(k: nat): (p: nat)
    ensures p > 0
  {
    if k == 0 then 1 else 10 * Power(k - 1)
  }

  /** Decimal: the k-th digit from the right is the number's k-th, and there are no leading zeros. */
  lemma {:induction false} Decimal(n: nat, k: nat)
    requires k < |SessionRecord.Digits(n)|
    ensures
      var digits := SessionRecord.Digits(n);
      && digits[|digits| - 1 - k] == 48 + (n / Power(k)) % 10
      && (n > 9 ==> digits[0] != 48)
  {
    if n >= 10 {
      Decimal(n / 10, if k == 0 then 0 else k - 1);
      if k > 0 {
        DivideTwice(n, Power(k - 1));
      }
    }
  }

  lemma DivideTwice(n: nat, p: nat)
    requires p > 0
    ensures n / 10 / p == n / (10 * p)
  {
    var q := n / (10 * p);
    var r := n % (10 * p);
    assert n == 10 * p * q + r && 0 <= r < 10 * p;
    assert n / 10 == p * q + r / 10;
    assert r / 10 < p;
    Quotient(p, q, r / 10);
  }

  lemma Quotient(p: nat, q: nat, r: nat)
    requires r < p
    ensures (p * q + r) / p == q
  {
    var d := (p * q + r) / p;
    if d > q {
      Times(p, q + 1, d);
    } else if d < q {
      Times(p, d + 1, q);
    }
  }

  lemma Times(p: nat, a: nat, b: nat)
    requires a <= b
    ensures p * a <= p * b
  {
  }

  /** Memory size, a semicolon, number of functions. */
  lemma Record(c: SessionRecord.Config)
    ensures
      var (m, f) := (c.memory as int, c.maxFunctions as int);
      SessionRecord.PrintRecord(c)
      == (if m < 0 then [45] + SessionRecord.Digits(-m) else SessionRecord.Digits(m)) + [59]
         + (if f < 0 then [45] + SessionRecord.Digits(-f) else SessionRecord.Digits(f))
  {
  }
}
