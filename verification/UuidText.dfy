/** The text form of a UUID (section 4 of RFC 9562) and the parser the program uses on it.
    The parser is the one of the UUID library the program imports; it accepts four layouts. */
module UuidText {
  import opened Wrappers
  import opened Text

  type Byte = b: nat | b < 256

  type Uuid = u: seq<Byte> | |u| == 16 witness seq(16, _ => 0)

  /** The lower-case digit of a value below 16. */
  function Digit(n: nat): char
    requires n < 16
  {
    if n < 10 then ('0' as int + n) as char else ('a' as int + n - 10) as char
  }

  function Lower(c: char): char {
    if 'A' <= c <= 'Z' then (c as int + 32) as char else c
  }

  function LowerText(s: string): string {
    seq(|s|, i requires 0 <= i < |s| => Lower(s[i]))
  }

  /** The value of one hexadecimal digit, either case. */
  function DigitValue(c: char): (v: Option<nat>)
    ensures v.Some? ==> v.value < 16 && Lower(c) == Digit(v.value)
  {
    if '0' <= c <= '9' then Some(c as int - '0' as int)
    else if 'a' <= c <= 'f' then Some(c as int - 'a' as int + 10)
    else if 'A' <= c <= 'F' then Some(c as int - 'A' as int + 10)
    else None
  }

  function ByteValue(high: char, low: char): (b: Option<Byte>)
    ensures b.Some? ==> Lower(high) == Digit(b.value / 16) && Lower(low) == Digit(b.value % 16)
  {
    match (DigitValue(high), DigitValue(low))
    case (Some(h), Some(l)) => Some(16 * h + l)
    case _ => None
  }

  predicate IsHyphen(k: nat) {
    k == 8 || k == 13 || k == 18 || k == 23
  }

  function HyphensBefore(k: nat): nat {
    if k <= 8 then 0 else if k <= 13 then 1 else if k <= 18 then 2 else if k <= 23 then 3 else 4
  }

  /** Where the two digits of byte `i` stand in the canonical text. */
  function Offset(i: nat): nat {
    2 * i + (if i < 4 then 0 else if i < 6 then 1 else if i < 8 then 2 else if i < 10 then 3 else 4)
  }

  function PrintedChar(u: Uuid, k: nat): char
    requires k < 36
  {
    if IsHyphen(k) then '-' else
      var d := k - HyphensBefore(k);
      if d % 2 == 0 then Digit(u[d / 2] / 16) else Digit(u[d / 2] % 16)
  }

  /** uuid.UUID.String: lower-case digits in groups of 8, 4, 4, 4 and 12. */
  function Print(u: Uuid): string {
    seq(36, k requires 0 <= k < 36 => PrintedChar(u, k))
  }

  /** Where byte `i` is read from: bare digits have no hyphens to skip. */
  function At(hyphens: bool, i: nat): nat {
    if hyphens then Offset(i) else 2 * i
  }

  function PairAt(s: string, hyphens: bool, i: nat): Option<Byte>
    requires At(hyphens, i) + 1 < |s|
  {
    ByteValue(s[At(hyphens, i)], s[At(hyphens, i) + 1])
  }

  /** Reads sixteen bytes; fails when any pair is not two digits. */
  function ReadBytes(s: string, hyphens: bool): Option<Uuid>
    requires |s| >= if hyphens then 36 else 32
  {
    if forall i: nat | i < 16 :: PairAt(s, hyphens, i).Some? then
      Some(seq(16, i requires 0 <= i < 16 => PairAt(s, hyphens, i).value))
    else None
  }

  /** Text with hyphens: the hyphens are checked first, then the digits; anything after the
      36th character is not looked at. */
  function ParseHyphenated(s: string): Option<Uuid>
    requires |s| >= 36
  {
    if s[8] == '-' && s[13] == '-' && s[18] == '-' && s[23] == '-' then ReadBytes(s, true) else None
  }

  predicate HasUrnPrefix(s: string)
    requires |s| >= 9
  {
    forall i | 0 <= i < 9 :: Lower(s[i]) == "urn:uuid:"[i]
  }

  /** uuid.Parse: canonical, URN, braced (the characters in the place of the braces are not
      checked) and bare digits. */
  function Parse(s: string): Option<Uuid> {
    if |s| == 36 then ParseHyphenated(s)
    else if |s| == 45 then (if HasUrnPrefix(s) then ParseHyphenated(s[9..]) else None)
    else if |s| == 38 then ParseHyphenated(s[1..])
    else if |s| == 32 then ReadBytes(s, false)
    else None
  }

  /** alkemio.isUUID and challenge.isKratosIdentityID. */
  predicate IsUuid(s: string) {
    s != "" && Parse(s).Some?
  }

  lemma DigitReadsBack(n: nat)
    requires n < 16
    ensures DigitValue(Digit(n)) == Some(n) && !IsSpace(Digit(n))
  {
  }

  lemma OffsetSkipsHyphens(i: nat)
    requires i < 16
    ensures Offset(i) < 35 && !IsHyphen(Offset(i)) && !IsHyphen(Offset(i) + 1)
    ensures Offset(i) - HyphensBefore(Offset(i)) == 2 * i
    ensures Offset(i) + 1 - HyphensBefore(Offset(i) + 1) == 2 * i + 1
  {
  }

  lemma PrintedByte(u: Uuid, i: nat)
    requires i < 16
    ensures Offset(i) < 35 && PairAt(Print(u), true, i) == Some(u[i])
  {
    OffsetSkipsHyphens(i);
    var high, low := Print(u)[Offset(i)], Print(u)[Offset(i) + 1];
    assert high == Digit(u[i] / 16) by { assert (2 * i) / 2 == i && (2 * i) % 2 == 0; }
    assert low == Digit(u[i] % 16) by { assert (2 * i + 1) / 2 == i && (2 * i + 1) % 2 == 1; }
    DigitReadsBack(u[i] / 16);
    DigitReadsBack(u[i] % 16);
  }

  lemma ReadBytesOf(s: string, u: Uuid)
    requires |s| >= 36 && forall i: nat | i < 16 :: PairAt(s, true, i) == Some(u[i])
    ensures ReadBytes(s, true) == Some(u)
  {
    assert ReadBytes(s, true).value == u;
  }

  lemma PrintIsTrimmed(u: Uuid)
    ensures Trimmed(Print(u))
  {
    DigitReadsBack(u[0] / 16);
    DigitReadsBack(u[15] % 16);
    assert Print(u)[0] == Digit(u[0] / 16) && Print(u)[35] == Digit(u[15] % 16);
  }

  lemma PrintHasHyphens(u: Uuid)
    ensures var s := Print(u); |s| == 36 && s[8] == s[13] == s[18] == s[23] == '-'
  {
  }

  /** Printing loses nothing: the parser gives back the same sixteen bytes. */
  lemma ParsePrint(u: Uuid)
    ensures |Print(u)| == 36 && Trimmed(Print(u)) && IsUuid(Print(u))
    ensures Parse(Print(u)) == Some(u)
  {
    PrintIsTrimmed(u);
    PrintHasHyphens(u);
    var s := Print(u);
    forall i: nat | i < 16
      ensures PairAt(s, true, i) == Some(u[i])
    {
      PrintedByte(u, i);
    }
    ReadBytesOf(s, u);
  }

  /** The byte whose digits cover position `k` of the canonical text. */
  lemma DigitPosition(k: nat) returns (i: nat)
    requires k < 36 && !IsHyphen(k)
    ensures i < 16 && i == (k - HyphensBefore(k)) / 2
    ensures k == Offset(i) + (k - HyphensBefore(k)) % 2
  {
    i := (k - HyphensBefore(k)) / 2;
  }

  /** Parsing loses only the case of the digits: a hyphenated text that parses is, in lower
      case, the printed form of what it parses to. */
  lemma PrintParse(s: string)
    requires |s| == 36 && Parse(s).Some?
    ensures Print(Parse(s).value) == LowerText(s)
  {
    var u := Parse(s).value;
    forall k: nat | k < 36
      ensures PrintedChar(u, k) == Lower(s[k])
    {
      if !IsHyphen(k) {
        var i := DigitPosition(k);
        assert PairAt(s, true, i) == Some(u[i]);
      }
    }
  }

  /** The 32 digits of a UUID, without hyphens. */
  function Bare(u: Uuid): string {
    seq(32, k requires 0 <= k < 32 => if k % 2 == 0 then Digit(u[k / 2] / 16) else Digit(u[k / 2] % 16))
  }

  lemma BareParses(u: Uuid)
    ensures Parse(Bare(u)) == Some(u)
  {
    var s := Bare(u);
    forall i: nat | i < 16
      ensures PairAt(s, false, i) == Some(u[i])
    {
      assert (2 * i) / 2 == i && (2 * i + 1) / 2 == i;
      DigitReadsBack(u[i] / 16);
      DigitReadsBack(u[i] % 16);
    }
    assert ReadBytes(s, false).value == u;
  }

  /** Text with more after the canonical form: only the first 36 characters are looked at. */
  lemma HeadParses(u: Uuid, rest: string)
    ensures ParseHyphenated(Print(u) + rest) == Some(u)
  {
    PrintHasHyphens(u);
    var s := Print(u) + rest;
    forall i: nat | i < 16
      ensures PairAt(s, true, i) == Some(u[i])
    {
      PrintedByte(u, i);
      OffsetSkipsHyphens(i);
      assert s[Offset(i)] == Print(u)[Offset(i)] && s[Offset(i) + 1] == Print(u)[Offset(i) + 1];
    }
    ReadBytesOf(s, u);
  }

  lemma UrnPrefixHolds(rest: string)
    ensures HasUrnPrefix("urn:uuid:" + rest)
  {
    var prefix := "urn:uuid:";
    forall i | 0 <= i < 9
      ensures Lower((prefix + rest)[i]) == prefix[i]
    {
      assert (prefix + rest)[i] == prefix[i];
    }
  }

  /** The other three layouts give the same bytes: the URN, the braced text, and the digits
      alone. */
  lemma OtherLayoutsParse(u: Uuid, open: char, close: char)
    ensures Parse("urn:uuid:" + Print(u)) == Some(u)
    ensures Parse([open] + Print(u) + [close]) == Some(u)
    ensures Parse(Bare(u)) == Some(u)
  {
    UrnPrefixHolds(Print(u));
    HeadParses(u, []);
    assert ("urn:uuid:" + Print(u))[9..] == Print(u) == Print(u) + [];
    HeadParses(u, [close]);
    assert ([open] + Print(u) + [close])[1..] == Print(u) + [close];
    BareParses(u);
  }
}
