/** Todo ids: 128-bit UUIDs and their canonical text form.
  *
  * Every implementation stores the id as a UUID value and renders it as the
  * 36-character 8-4-4-4-12 text of section 4 of RFC 9562 (Python `str(uuid)`,
  * Rust `Uuid::to_string`, Go `uuid.UUID.String`). How new ids are generated
  * (UUIDv7 from the clock) is not modelled: ids are opaque values here. */
module Uuids {
  import opened Wrappers

  /** One hexadecimal digit of the 128-bit value. */
  type Nibble = x: int | 0 <= x < 16

  /** A UUID as its 32 hexadecimal digits, most significant first. */
  type Uuid = s: seq<Nibble> | |s| == 32 witness seq(32, _ => 0)

  /** The all-zero UUID (Go `uuid.Nil`, the id of a zero-valued Go Todo). */
  const Nil: Uuid := [0, 0, 0, 0, 0, 0, 0, 0, 0, 0, 0, 0, 0, 0, 0, 0, 0, 0, 0, 0, 0, 0, 0, 0, 0, 0, 0, 0, 0, 0, 0, 0]

  /** Lower-case hexadecimal digit of `n`. */
  function HexDigit(n: Nibble): char
  {
    if n < 10 then ('0' as int + n) as char else ('a' as int + n - 10) as char
  }

  predicate IsHexChar(c: char)
  {
    '0' <= c <= '9' || 'a' <= c <= 'f' || 'A' <= c <= 'F'
  }

  /** Value of a hexadecimal digit of either case. */
  function HexValue(c: char): Nibble
    requires IsHexChar(c)
  {
    if c <= '9' then c as int - '0' as int
    else if c <= 'F' then c as int - 'A' as int + 10
    else c as int - 'a' as int + 10
  }

  /** ASCII lower-casing, which is all the canonical form changes in a parsed text. */
  function LowerChar(c: char): char
  {
    if 'A' <= c <= 'Z' then (c as int - 'A' as int + 'a' as int) as char else c
  }

  function Lower(s: string): (r: string)
    ensures |r| == |s|
  {
    seq(|s|, j requires 0 <= j < |s| => LowerChar(s[j]))
  }

  /** Text positions 8, 13, 18 and 23 hold the hyphens of the 8-4-4-4-12 layout. */
  predicate IsHyphenAt(j: int)
  {
    j == 8 || j == 13 || j == 18 || j == 23
  }

  /** Position, in the 36-character text, of hex digit `i`. */
  function TextPos(i: int): int
  {
    if i < 8 then i else if i < 12 then i + 1 else if i < 16 then i + 2 else if i < 20 then i + 3 else i + 4
  }

  /** Index of the hex digit shown at text position `j` (a position that is not a hyphen). */
  function DigitAt(j: int): int
  {
    if j < 8 then j else if j < 13 then j - 1 else if j < 18 then j - 2 else if j < 23 then j - 3 else j - 4
  }

  /** Canonical text: lower-case digits in groups of 8-4-4-4-12 separated by hyphens. */
  function ToString(u: Uuid): (s: string)
    ensures |s| == 36
    ensures Hyphenated(s) && Lower(s) == s
  {
    seq(36, j requires 0 <= j < 36 => if IsHyphenAt(j) then '-' else HexDigit(u[DigitAt(j)]))
  }

  /** The hyphenated text form, digits of either case. */
  predicate Hyphenated(s: string)
  {
    |s| == 36 && forall j | 0 <= j < 36 :: if IsHyphenAt(j) then s[j] == '-' else IsHexChar(s[j])
  }

  /** Parses the hyphenated text form; `None` for anything else. */
  function Parse(s: string): (r: Option<Uuid>)
    ensures r.Some? <==> Hyphenated(s)
  {
    if Hyphenated(s) then Some(seq(32, i requires 0 <= i < 32 => HexValue(s[TextPos(i)]))) else None
  }

  lemma HexDigitRoundTrip(n: Nibble)
    ensures IsHexChar(HexDigit(n)) && HexValue(HexDigit(n)) == n
  {
  }

  lemma HexValueRoundTrip(c: char)
    requires IsHexChar(c)
    ensures HexDigit(HexValue(c)) == LowerChar(c)
  {
  }

  /** The 128-bit value of a digit sequence, most significant digit first
    * (Python `UUID.int`). */
  function Value(s: seq<Nibble>): nat
  {
    if s == [] then 0 else Value(s[..|s| - 1]) * 16 + s[|s| - 1]
  }

  function Pow16(k: nat): nat
  {
    if k == 0 then 1 else 16 * Pow16(k - 1)
  }

  /** The value of a concatenation: the high digits shifted past the low ones. */
  lemma {:induction false} ValueAppend(a: seq<Nibble>, b: seq<Nibble>)
    ensures Value(a + b) == Value(a) * Pow16(|b|) + Value(b)
  {
    if b == [] {
      assert a + b == a;
    } else {
      var b', d := b[..|b| - 1], b[|b| - 1];
      assert (a + b)[..|a + b| - 1] == a + b';
      ValueAppend(a, b');
      var x, p, y := Value(a), Pow16(|b'|), Value(b');
      assert (a + b)[|a + b| - 1] == d;
      assert Value(a + b) == Value(a + b') * 16 + d;
      assert Value(a + b') == x * p + y;
      assert Pow16(|b|) == 16 * p;
      assert Value(b) == y * 16 + d;
      ScaleBy16(x, p);
    }
  }

  lemma ScaleBy16(x: nat, p: nat)
    ensures x * (16 * p) == (x * p) * 16
  {
  }

  /** `k` digits hold a value below 16^k. */
  lemma {:induction false} ValueBound(s: seq<Nibble>)
    ensures Value(s) < Pow16(|s|)
  {
    if s != [] {
      var s' := s[..|s| - 1];
      ValueBound(s');
      assert Value(s') * 16 <= (Pow16(|s'|) - 1) * 16;
    }
  }

  lemma NonzeroMultiple(k: int, c: int)
    requires c > 0
    ensures k >= 1 ==> k * c >= c
    ensures k <= -1 ==> k * c <= -c
  {
  }

  /** Division by `c` recovers the quotient of a value laid out as `hi * c + r`. */
  lemma DivPlaced(hi: int, r: int, c: int)
    requires c > 0 && 0 <= r < c
    ensures (hi * c + r) / c == hi
  {
    var q, m := (hi * c + r) / c, (hi * c + r) % c;
    assert (hi - q) * c == m - r;
    NonzeroMultiple(hi - q, c);
  }

  /** 16^15 and 16^19 written out: bit 60 and bit 76. */
  lemma Pow16Literals()
    ensures Pow16(15) == 0x1000_0000_0000_0000
    ensures Pow16(19) == 0x1000_0000_0000_0000_0000
  {
    assert Pow16(4) == 0x1_0000;
    assert Pow16(8) == 0x1_0000_0000;
    assert Pow16(12) == 0x1_0000_0000_0000;
    assert Pow16(16) == 0x1_0000_0000_0000_0000;
  }

  /** Digit `i` of a UUID sits at bits 4 * (31 - i) of its value. */
  lemma {:induction false} DigitPlace(u: Uuid, i: nat)
    requires i < 32
    ensures Value(u) == (Value(u[..i]) * 16 + u[i]) * Pow16(31 - i) + Value(u[i + 1..])
    ensures Value(u[i + 1..]) < Pow16(31 - i)
  {
    assert u == u[..i + 1] + u[i + 1..];
    ValueAppend(u[..i + 1], u[i + 1..]);
    assert u[..i + 1][..i] == u[..i];
    ValueBound(u[i + 1..]);
  }

  /** Rendering an id and parsing the text gives the id back: no id is lost or
    * minted when it travels as text. */
  lemma {:induction false} ParseToString(u: Uuid)
    ensures Parse(ToString(u)) == Some(u)
  {
    var s := ToString(u);
    forall j | 0 <= j < 36
      ensures if IsHyphenAt(j) then s[j] == '-' else IsHexChar(s[j])
    {
      if !IsHyphenAt(j) {
        HexDigitRoundTrip(u[DigitAt(j)]);
      }
    }
    assert Hyphenated(s);
    var v := Parse(s).value;
    forall i | 0 <= i < 32
      ensures v[i] == u[i]
    {
      assert DigitAt(TextPos(i)) == i && !IsHyphenAt(TextPos(i));
      HexDigitRoundTrip(u[i]);
    }
    assert v == u;
  }

  /** The text of a parsed id is the input text, lower-cased: parsing keeps
    * every digit and its position. */
  lemma {:induction false} ToStringParse(s: string)
    requires Parse(s).Some?
    ensures ToString(Parse(s).value) == Lower(s)
  {
    var u := Parse(s).value;
    var t := ToString(u);
    forall j | 0 <= j < 36
      ensures t[j] == Lower(s)[j]
    {
      if !IsHyphenAt(j) {
        assert TextPos(DigitAt(j)) == j;
        HexValueRoundTrip(s[j]);
      }
    }
  }

  /** Two distinct ids never share a text, so the text is a faithful key. */
  lemma ToStringInjective(u: Uuid, v: Uuid)
    requires ToString(u) == ToString(v)
    ensures u == v
  {
    ParseToString(u);
    ParseToString(v);
  }
}
