/** `L.glify.color.fromHex`: a colour string such as "#ff8000" or "ff8000"
    to the colour object `{r, g, b}` with components divided by 255. Each
    component is read with `parseInt(pair, 16)`, modelled here in full. */
module Color {
  import opened Js

  /** The characters `parseInt` skips at the start of its argument (white
      space and line terminators of ECMAScript). */
  predicate IsWhite(c: char) {
    c in WhiteSpace || '\U{2000}' <= c <= '\U{200A}'
  }

  const WhiteSpace: set<char> := {
    ' ', '\t', '\n', '\r', '\U{000B}', '\U{000C}', '\U{00A0}', '\U{1680}',
    '\U{2028}', '\U{2029}', '\U{202F}', '\U{205F}', '\U{3000}', '\U{FEFF}'
  }

  /** The value of a hexadecimal digit, in either case. */
  function HexDigit(c: char): (v: Option<nat>)
    ensures v.Some? ==> v.value < 16
  {
    if '0' <= c <= '9' then Some(c as int - '0' as int)
    else if 'a' <= c <= 'f' then Some(c as int - 'a' as int + 10)
    else if 'A' <= c <= 'F' then Some(c as int - 'A' as int + 10)
    else None
  }

  function TrimStart(s: string): (t: string)
    ensures |t| <= |s|
    ensures |t| > 0 ==> !IsWhite(t[0])
  {
    if |s| > 0 && IsWhite(s[0]) then TrimStart(s[1..]) else s
  }

  /** The number of leading hexadecimal digits. */
  function DigitRun(s: string): (n: nat)
    ensures n <= |s|
    ensures forall k :: 0 <= k < n ==> HexDigit(s[k]).Some?
  {
    if |s| > 0 && HexDigit(s[0]).Some? then 1 + DigitRun(s[1..]) else 0
  }

  /** The value of a run of hexadecimal digits, most significant first. */
  function DigitsValue(s: string): nat
    requires forall k :: 0 <= k < |s| ==> HexDigit(s[k]).Some?
  {
    if |s| == 0 then 0 else DigitsValue(s[..|s| - 1]) * 16 + HexDigit(s[|s| - 1]).value
  }

  /** Whether the text after the white space starts with a minus sign. */
  function Negative(t: string): bool {
    |t| > 0 && t[0] == '-'
  }

  /** The text after an optional sign. */
  function AfterSign(t: string): (u: string)
    ensures |u| <= |t|
  {
    if |t| > 0 && (t[0] == '-' || t[0] == '+') then t[1..] else t
  }

  /** The text after an optional "0x" or "0X". */
  function AfterPrefix(u: string): (d: string)
    ensures |d| <= |u|
  {
    if |u| >= 2 && u[0] == '0' && (u[1] == 'x' || u[1] == 'X') then u[2..] else u
  }

  /** The longest run of leading digits as a number: NaN for none. */
  function DigitsNumber(negative: bool, digits: string): Value {
    var n := DigitRun(digits);
    if n == 0 then NaN
    else
      var v := DigitsValue(digits[..n]) as real;
      Num(if negative then -v else v)
  }

  /** `parseInt(s, 16)`: skip white space, take an optional sign and an
      optional "0x" or "0X", then the longest run of hexadecimal digits;
      NaN when that run is empty. */
  function ParseHex(s: string): Value {
    var t := TrimStart(s);
    DigitsNumber(Negative(t), AfterPrefix(AfterSign(t)))
  }

  lemma HexNotWhite(c: char)
    requires HexDigit(c).Some?
    ensures !IsWhite(c)
  {
  }

  /** Text that starts with a hexadecimal digit parses from its first
      character on. */
  lemma ParseFromDigit(s: string)
    requires |s| > 0 && HexDigit(s[0]).Some?
    requires |s| >= 2 && s[0] == '0' ==> s[1] != 'x' && s[1] != 'X'
    ensures ParseHex(s) == DigitsNumber(false, s)
  {
    HexNotWhite(s[0]);
    assert TrimStart(s) == s;
    assert AfterSign(s) == s;
    assert AfterPrefix(s) == s;
  }

  /** `x / 255` on a number or NaN. */
  function Over255(v: Value): Value {
    match v
    case Num(n) => Num(n / 255.0)
    case _ => NaN
  }

  /** The two characters `hex[k] + hex[k + 1]`. Past the end `hex[k + 1]`
      is `undefined` and the concatenation reads `hex[k] + "undefined"`;
      'u' stands for that tail, which parses the same way (see
      PairPastEnd). */
  function PairText(hex: string, k: nat): string
    requires k < |hex|
  {
    [hex[k], if k + 1 < |hex| then hex[k + 1] else 'u']
  }

  /** `parseInt(hex[k] + hex[k + 1], 16)` */
  function Pair(hex: string, k: nat): Value
    requires k < |hex|
  {
    ParseHex(PairText(hex, k))
  }

  /** A character followed by the text "undefined" parses like the character
      followed by 'u' alone: 'u' is neither white space, a sign, an 'x' nor a
      hexadecimal digit, so parsing stops there either way. */
  lemma {:induction false} PairPastEnd(c: char)
    ensures ParseHex([c] + "undefined") == ParseHex([c, 'u'])
  {
    var long, short := [c] + "undefined", [c, 'u'];
    assert long[1..] == "undefined" && short[1..] == "u";
    assert !IsWhite('u') && HexDigit('u').None?;
    assert TrimStart("undefined") == "undefined";
    assert TrimStart("u") == "u";
    assert DigitRun("undefined") == 0 && DigitRun("u") == 0;
    if IsWhite(c) {
      assert TrimStart(long) == "undefined";
      assert TrimStart(short) == "u";
    } else {
      assert TrimStart(long) == long && TrimStart(short) == short;
      if c == '-' || c == '+' {
        assert AfterPrefix(AfterSign(long)) == "undefined";
        assert AfterPrefix(AfterSign(short)) == "u";
      } else {
        assert AfterPrefix(AfterSign(long)) == long && AfterPrefix(AfterSign(short)) == short;
        if HexDigit(c).Some? {
          assert DigitRun(long) == 1 && DigitRun(short) == 1;
          assert long[..1] == short[..1];
        }
      }
    }
  }

  /** The colour object `{r, g, b}` */
  function Rgb(r: Value, g: Value, b: Value): Value {
    Obj(map["r" := r, "g" := g, "b" := b])
  }

  /** The colour object read from three pairs of characters. */
  function FromPairs(h: string): Value
    requires |h| >= 5
  {
    Rgb(Over255(Pair(h, 0)), Over255(Pair(h, 2)), Over255(Pair(h, 4)))
  }

  /** `fromHex(hex)`: null for fewer than six characters; otherwise a leading
      '#' is dropped and three pairs of characters are parsed. Lower-casing
      is not modelled: `parseInt` reads hexadecimal digits in either case. */
  function FromHex(hex: string): (r: Value)
    ensures |hex| < 6 <==> r == Null
    ensures r != Null ==> r.Obj? && r.props.Keys == {"r", "g", "b"}
  {
    if |hex| < 6 then Null
    else
      FromPairs(if hex[0] == '#' then hex[1..] else hex)
  }

  predicate AllHex(s: string) {
    forall k :: 0 <= k < |s| ==> HexDigit(s[k]).Some?
  }

  /** Two hexadecimal digits parse to 16 * first + second. */
  lemma ParseTwoDigits(a: char, b: char)
    requires HexDigit(a).Some? && HexDigit(b).Some?
    ensures ParseHex([a, b]) == Num((16 * HexDigit(a).value + HexDigit(b).value) as real)
  {
    var s := [a, b];
    ParseFromDigit(s);
    assert DigitRun(s[1..]) == 1;
    assert DigitRun(s) == 2;
    assert s[..2] == s && s[..1] == [a];
    assert DigitsValue(s) == DigitsValue([a]) * 16 + HexDigit(b).value;
    assert DigitsValue([a]) == HexDigit(a).value;
  }

  /** The value of the colour component read from two hexadecimal digits. */
  function Component(a: char, b: char): (c: real)
    requires HexDigit(a).Some? && HexDigit(b).Some?
    ensures 0.0 <= c <= 1.0
  {
    (16 * HexDigit(a).value + HexDigit(b).value) as real / 255.0
  }

  /** Two hexadecimal digits at k and k + 1 give that component. */
  lemma PairOfDigits(h: string, k: nat)
    requires k + 1 < |h| && HexDigit(h[k]).Some? && HexDigit(h[k + 1]).Some?
    ensures Over255(Pair(h, k)) == Num(Component(h[k], h[k + 1]))
  {
    ParseTwoDigits(h[k], h[k + 1]);
  }

  /** For six hexadecimal digits, with or without a leading '#', each
      component is the value of its pair divided by 255, so between 0 and 1. */
  lemma {:induction false} FromHexSixDigits(digits: string, hash: bool)
    requires |digits| == 6 && AllHex(digits)
    ensures var hex := if hash then "#" + digits else digits;
      FromHex(hex) == Rgb(Num(Component(digits[0], digits[1])), Num(Component(digits[2], digits[3])),
                           Num(Component(digits[4], digits[5])))
  {
    var hex := if hash then "#" + digits else digits;
    var h := if hex[0] == '#' then hex[1..] else hex;
    assert h == digits by {
      if hash {
        assert hex[1..] == digits;
      } else {
        assert HexDigit(digits[0]).Some?;
      }
    }
    SixDigitPairs(digits);
  }

  lemma SixDigitPairs(digits: string)
    requires |digits| == 6
    requires HexDigit(digits[0]).Some? && HexDigit(digits[1]).Some? && HexDigit(digits[2]).Some?
    requires HexDigit(digits[3]).Some? && HexDigit(digits[4]).Some? && HexDigit(digits[5]).Some?
    ensures FromPairs(digits) == Rgb(Num(Component(digits[0], digits[1])), Num(Component(digits[2], digits[3])),
                                     Num(Component(digits[4], digits[5])))
  {
    PairOfDigits(digits, 0);
    PairOfDigits(digits, 2);
    PairOfDigits(digits, 4);
  }

  /** A leading '#' is dropped before the pairs are read, so it changes
      nothing on a string of six or more characters. */
  lemma FromHexHash(hex: string)
    requires |hex| >= 6 && hex[0] != '#'
    ensures FromHex("#" + hex) == FromHex(hex)
  {
    assert ("#" + hex)[1..] == hex;
  }

  /** The length check comes before the '#' is dropped: five digits after
      a '#' are not null, and the last pair reads the fifth digit followed
      by `undefined`, which parses as the fifth digit alone. */
  lemma FromHexHashFiveDigits(h: string)
    requires |h| == 5 && AllHex(h)
    ensures FromHex("#" + h) == Rgb(Num(Component(h[0], h[1])), Num(Component(h[2], h[3])),
                                    Num(HexDigit(h[4]).value as real / 255.0))
  {
    assert ("#" + h)[1..] == h;
    assert FromHex("#" + h) == FromPairs(h);
    assert HexDigit(h[0]).Some? && HexDigit(h[1]).Some? && HexDigit(h[2]).Some?;
    assert HexDigit(h[3]).Some? && HexDigit(h[4]).Some?;
    FiveDigitPairs(h);
  }

  lemma FiveDigitPairs(h: string)
    requires |h| == 5
    requires HexDigit(h[0]).Some? && HexDigit(h[1]).Some? && HexDigit(h[2]).Some?
    requires HexDigit(h[3]).Some? && HexDigit(h[4]).Some?
    ensures FromPairs(h) == Rgb(Num(Component(h[0], h[1])), Num(Component(h[2], h[3])),
                                Num(HexDigit(h[4]).value as real / 255.0))
  {
    PairOfDigits(h, 0);
    PairOfDigits(h, 2);
    LastPairAlone(h);
  }

  /** The last pair of five characters is the fifth digit alone. */
  lemma LastPairAlone(h: string)
    requires |h| == 5 && HexDigit(h[4]).Some?
    ensures Over255(Pair(h, 4)) == Num(HexDigit(h[4]).value as real / 255.0)
  {
    assert PairText(h, 4) == [h[4], 'u'];
    DigitThenStop(h[4]);
  }

  /** "#12345" is not null: its components are 0x12, 0x34 and 0x5. */
  lemma FromHexFiveDigitsWithHash()
    ensures FromHex("#12345") == Rgb(Num(18.0 / 255.0), Num(52.0 / 255.0), Num(5.0 / 255.0))
  {
    var h := "12345";
    assert "#" + h == "#12345";
    FromHexHashFiveDigits(h);
  }

  /** A digit followed by a character that is no digit parses as that digit. */
  lemma DigitThenStop(c: char)
    requires HexDigit(c).Some?
    ensures ParseHex([c, 'u']) == Num(HexDigit(c).value as real)
  {
    var s := [c, 'u'];
    ParseFromDigit(s);
    assert DigitRun(s[1..]) == 0;
    assert s[..1] == [c];
    assert DigitsValue([c]) == DigitsValue([]) * 16 + HexDigit(c).value;
  }

  /** A pair with no leading hexadecimal digit is NaN. */
  lemma FromHexNotHex()
    ensures FromHex("zzzzzz") == Rgb(NaN, NaN, NaN)
  {
    var z := "zz";
    assert !IsWhite('z');
    assert TrimStart(z) == z;
    assert AfterPrefix(AfterSign(z)) == z;
    assert DigitRun(z) == 0;
    assert ParseHex(z) == NaN;
    var hex := "zzzzzz";
    assert PairText(hex, 0) == z;
    assert PairText(hex, 2) == z;
    assert PairText(hex, 4) == z;
  }
}
