/** The SESSION_<id> record kept in Redis: "<memory>;<functions>" in decimal.
    It is printed once, when a session is created, and parsed on every swap-in. */
module SessionRecord {
  import opened Bytes

  datatype Config = Config(maxFunctions: int32, memory: int32)

  const MINUS: byte := 45
  const ZERO: byte := 48
  const SEMICOLON: byte := 59

  predicate IsDigit(b: byte) { ZERO <= b <= ZERO + 9 }

  // ----- printing: std::to_string

  function Digits(n: nat): (t: Text)
    ensures t != []
    ensures forall i :: 0 <= i < |t| ==> IsDigit(t[i])
  {
    if n < 10 then [ZERO + n] else Digits(n / 10) + [ZERO + n % 10]
  }

  function Print(n: int): (r: Text) {
    if n < 0 then [MINUS] + Digits(-n) else Digits(n)
  }

  function PrintRecord(c: Config): (r: Text) {
    Print(c.memory) + [SEMICOLON] + Print(c.maxFunctions)
  }

  // ----- parsing: split at the first separator, then std::from_chars

  function Find(t: Text, c: byte): (k: nat)
    ensures k <= |t|
    ensures forall i :: 0 <= i < k ==> t[i] != c
    ensures k < |t| ==> t[k] == c
  {
    if t == [] || t[0] == c then 0 else 1 + Find(t[1..], c)
  }

  function Split(t: Text, c: byte): (r: (Text, Text)) {
    var k := Find(t, c);
    if k == |t| then ([], []) else (t[..k], t[k + 1..])
  }

  /** How many digits the text starts with. */
  function DigitCount(t: Text): (k: nat)
    ensures k <= |t|
    ensures forall i :: 0 <= i < k ==> IsDigit(t[i])
    ensures k < |t| ==> !IsDigit(t[k])
  {
    if t == [] || !IsDigit(t[0]) then 0 else 1 + DigitCount(t[1..])
  }

  function Value(digits: Text): (r: nat)
    requires forall i :: 0 <= i < |digits| ==> IsDigit(digits[i])
  {
    if digits == [] then 0
    else
      assert IsDigit(digits[|digits| - 1]);
      10 * Value(digits[..|digits| - 1]) + (digits[|digits| - 1] - ZERO)
  }

  /** from_chars leaves its target alone when there is no number or it does not fit. */
  function FromChars(t: Text, target: int32): (r: int32) {
    var negative := t != [] && t[0] == MINUS;
    var body := if negative then t[1..] else t;
    var k := DigitCount(body);
    var magnitude: int := Value(body[..k]);
    var n: int := if negative then -magnitude else magnitude;
    if k == 0 || !(-0x8000_0000 <= n < 0x8000_0000) then target else n
  }

  function ParseRecord(t: Text, before: Config): (r: Config) {
    var (mem, func) := Split(t, SEMICOLON);
    Config(FromChars(func, before.maxFunctions), FromChars(mem, before.memory))
  }

  // ----- printing and parsing undo each other

  lemma {:induction false} DigitsValue(n: nat)
    ensures Value(Digits(n)) == n
  {
    if n >= 10 {
      DigitsValue(n / 10);
      assert Digits(n)[..|Digits(n)| - 1] == Digits(n / 10);
    }
  }

  lemma FromCharsPrint(n: int32, target: int32)
    ensures FromChars(Print(n), target) == n
  {
    var magnitude: int := if n < 0 then -(n as int) else n;
    var digits := Digits(magnitude);
    DigitsValue(magnitude);
    assert DigitCount(digits) == |digits|;
    assert digits[..|digits|] == digits;
    if n < 0 {
      assert Print(n)[1..] == digits;
    } else {
      assert digits[0] != MINUS;
    }
  }

  lemma PrintHasNoSeparator(n: int)
    ensures forall i :: 0 <= i < |Print(n)| ==> Print(n)[i] != SEMICOLON
  {
  }

  /** Whatever the variables held before, parsing a record gives back the numbers it was made from. */
  lemma RecordRoundTrip(c: Config, before: Config)
    ensures ParseRecord(PrintRecord(c), before) == c
  {
    var r := PrintRecord(c);
    var mem := Print(c.memory);
    PrintHasNoSeparator(c.memory);
    var k := Find(r, SEMICOLON);
    assert r[|mem|] == SEMICOLON;
    assert forall i :: 0 <= i < |mem| ==> r[i] == mem[i];
    assert k == |mem|;
    assert r[..k] == mem;
    assert r[k + 1..] == Print(c.maxFunctions);
    FromCharsPrint(c.memory, before.memory);
    FromCharsPrint(c.maxFunctions, before.maxFunctions);
  }
}
