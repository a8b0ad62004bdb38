/** MongoDB ObjectIds as the routes see them: the text a route receives
    as `:id`, the cast `findById` applies to it, and the text of the ids
    the database issues. An ObjectId is twelve bytes, written as 24
    lower-case hexadecimal digits; the database's n-th id is the 24 digits
    of n. The cast is the one of the bson 4 releases that Mongoose 5 and 6
    use (`notification.remove()` in the routes needs one of those). */
module ObjectIds {
  import opened Basics

  predicate IsHexDigit(c: char) {
    '0' <= c <= '9' || 'a' <= c <= 'f' || 'A' <= c <= 'F'
  }

  /** The digits an ObjectId's own text uses. */
  predicate IsLowerHex(c: char) {
    '0' <= c <= '9' || 'a' <= c <= 'f'
  }

  predicate AllHex(s: string) {
    forall i :: 0 <= i < |s| ==> IsHexDigit(s[i])
  }

  /** Every character is one UTF-8 byte. */
  predicate IsAscii(s: string) {
    forall i :: 0 <= i < |s| ==> s[i] as int < 128
  }

  /** What `findById` can cast to an ObjectId: twelve characters that are
      twelve bytes, or twenty-four hexadecimal digits of either case.
      Anything else throws a CastError. */
  predicate IsObjectId(s: string) {
    (|s| == 12 && IsAscii(s)) || (|s| == 24 && AllHex(s))
  }

  /** A digit in lower case, as `Buffer.from(s, "hex")` reads it. */
  function LowerHex(c: char): (r: char)
    requires IsHexDigit(c)
    ensures IsLowerHex(r)
    ensures IsLowerHex(c) ==> r == c
    ensures 'A' <= c <= 'F' ==> r as int == c as int + 32
  {
    if 'A' <= c <= 'F' then (c as int + 32) as char else c
  }

  /** The digits of `s` in lower case. */
  function Lower(s: string): (r: string)
    requires AllHex(s)
    ensures |r| == |s|
    ensures forall i :: 0 <= i < |s| ==> r[i] == LowerHex(s[i])
  {
    if s == [] then [] else [LowerHex(s[0])] + Lower(s[1..])
  }

  /** The lower-case hexadecimal digit of `d`. */
  function HexChar(d: nat): (c: char)
    requires d < 16
    ensures IsHexDigit(c) && IsLowerHex(c)
    ensures d < 10 ==> c as int == '0' as int + d
    ensures d >= 10 ==> c as int == 'a' as int + d - 10
  {
    if d < 10 then (48 + d) as char else (87 + d) as char
  }

  function Pow16(width: nat): (p: nat)
    ensures p >= 1
  {
    if width == 0 then 1 else 16 * Pow16(width - 1)
  }

  /** The last `width` hexadecimal digits of `n`, most significant first. */
  function Hex(n: nat, width: nat): (s: string)
    ensures |s| == width
    ensures forall i :: 0 <= i < width ==> IsHexDigit(s[i]) && IsLowerHex(s[i])
  {
    if width == 0 then [] else Hex(n / 16, width - 1) + [HexChar(n % 16)]
  }

  /** The text of the database's id `n`. */
  function IdText(n: nat): (s: string)
    ensures IsObjectId(s) && |s| == 24
    ensures forall i :: 0 <= i < 24 ==> IsLowerHex(s[i])
  {
    Hex(n, 24)
  }

  /** The twelve-byte spelling: each character's code as two digits. */
  function ByteHex(s: string): (r: string)
    requires IsAscii(s)
    ensures |r| == 2 * |s|
    ensures forall i :: 0 <= i < |r| ==> IsLowerHex(r[i])
  {
    if s == [] then [] else Hex(s[0] as int, 2) + ByteHex(s[1..])
  }

  /** The text of the ObjectId that `findById` casts `s` to, or `None`
      when the cast throws. Twenty-four digits are read whatever their
      case; twelve one-byte characters are the id's bytes. */
  function Cast(s: string): (r: Option<string>)
    ensures r.Some? <==> IsObjectId(s)
    ensures r.Some? ==> |r.value| == 24 && forall i :: 0 <= i < 24 ==> IsLowerHex(r.value[i])
    ensures |s| == 24 && r.Some? ==> forall i :: 0 <= i < 24 ==> r.value[i] == LowerHex(s[i])
  {
    if |s| == 24 && AllHex(s) then Some(Lower(s))
    else if |s| == 12 && IsAscii(s) then Some(ByteHex(s))
    else None
  }

  lemma HexCharInjective(a: nat, b: nat)
    requires a < 16 && b < 16 && HexChar(a) == HexChar(b)
    ensures a == b
  {
    assert HexChar(a) as int == HexChar(b) as int;
  }

  /** Different numbers below 16^width have different digits. */
  lemma {:induction false} HexInjective(a: nat, b: nat, width: nat)
    requires a < Pow16(width) && b < Pow16(width)
    requires Hex(a, width) == Hex(b, width)
    ensures a == b
  {
    if width > 0 {
      var ha, hb := Hex(a, width), Hex(b, width);
      assert ha[width - 1] == HexChar(a % 16) && hb[width - 1] == HexChar(b % 16);
      HexCharInjective(a % 16, b % 16);
      assert ha[..width - 1] == Hex(a / 16, width - 1);
      assert hb[..width - 1] == Hex(b / 16, width - 1);
      HexInjective(a / 16, b / 16, width - 1);
    }
  }

  /** Every issued id passes the cast, and two ids below 16^24 have the
      same text only when they are the same id, so a lookup by text finds
      the document the text came from. */
  lemma IdTextInjective(a: nat, b: nat)
    requires a < Pow16(24) && b < Pow16(24)
    ensures IsObjectId(IdText(a))
    ensures IdText(a) == IdText(b) <==> a == b
  {
    if IdText(a) == IdText(b) {
      HexInjective(a, b, 24);
    }
  }

  /** Every spelling of an issued id that differs from its text only in
      the case of its letters casts to that id, so a lookup through the
      cast finds the same document. */
  lemma SpellingsOfIssuedId(s: string, n: nat)
    requires |s| == 24 && AllHex(s)
    requires forall i :: 0 <= i < 24 ==> LowerHex(s[i]) == IdText(n)[i]
    ensures Cast(s) == Some(IdText(n))
  {
    assert Cast(s).value == IdText(n);
  }
}
