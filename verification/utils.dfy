/** Composite string keys for coordinates (src/utils.ts): `fromCoord` joins the two
    numbers with a comma, `toCoord` splits the key again but keeps the pieces as text. */
module CoordKeys {
  import opened GameTypes

  predicate IsDigit(c: char) { '0' <= c <= '9' }

  function DigitChar(d: nat): (c: char)
    requires d < 10
    ensures IsDigit(c)
  {
    ('0' as int + d) as char
  }

  /** The decimal text of a natural number, most significant digit first, no leading zeros. */
  function NatToDecimal(n: nat): (s: string)
    ensures |s| >= 1
    ensures forall i :: 0 <= i < |s| ==> IsDigit(s[i])
    decreases n
  {
    if n < 10 then [DigitChar(n)] else NatToDecimal(n / 10) + [DigitChar(n % 10)]
  }

  /** Number.prototype.toString for an integer value: an optional minus sign and the digits. */
  function IntToDecimal(i: int): (s: string)
    ensures ',' !in s
  {
    if i < 0 then "-" + NatToDecimal(-i) else NatToDecimal(i)
  }

  /** fromCoord: `[coord.x, coord.y].join(',')`. The key holds exactly one comma. */
  function FromCoord(c: Coord): (key: string)
    ensures Count(key, ',') == 1
  {
    var x, y := IntToDecimal(c.x), IntToDecimal(c.y);
    CountAppend(x + ",", y, ',');
    CountAppend(x, ",", ',');
    CountAbsent(x, ',');
    CountAbsent(y, ',');
    x + "," + y
  }

  /** String.prototype.split with a one-character separator: always at least one piece,
      no piece contains the separator, there is more than one piece exactly when the
      separator occurs, and the first piece is the text before its first occurrence. */
  function Split(s: string, sep: char): (parts: seq<string>)
    ensures |parts| >= 1
    ensures forall i :: 0 <= i < |parts| ==> sep !in parts[i]
    ensures |parts| > 1 <==> sep in s
    ensures parts[0] <= s
    ensures |parts| > 1 ==> |parts[0]| < |s| && s[|parts[0]|] == sep
  {
    if s == [] then [""]
    else
      var rest := Split(s[1..], sep);
      if s[0] == sep then [""] + rest
      else [[s[0]] + rest[0]] + rest[1..]
  }

  /** The result of toCoord: the first two pieces of the key, as strings; `y` is
      `undefined` when the key holds no comma. */
  datatype KeyParts = KeyParts(x: string, y: Option<string>)

  /** toCoord: `x` is the text before the first comma (the whole text when there is
      none), and `y` is present exactly when the text holds a comma. */
  function ToCoord(str: string): (r: KeyParts)
    ensures r.x <= str && ',' !in r.x
    ensures r.y.Some? <==> ',' in str
    ensures r.y.Some? ==> |r.x| < |str| && str[|r.x|] == ','
  {
    var arr := Split(str, ',');
    KeyParts(arr[0], if |arr| > 1 then Some(arr[1]) else None)
  }

  function Count(s: string, c: char): nat
  {
    if s == [] then 0 else (if s[0] == c then 1 else 0) + Count(s[1..], c)
  }

  // ---------------------------------------------------------------------------
  // Reference parser: the inverse of IntToDecimal, used to prove key injectivity.

  ghost function DigitValue(c: char): nat
    requires IsDigit(c)
  {
    (c as int - '0' as int) as nat
  }

  ghost function ParseNat(s: string): Option<nat>
    decreases |s|
  {
    if s == [] || !IsDigit(s[|s| - 1]) then None
    else if |s| == 1 then Some(DigitValue(s[0]))
    else match ParseNat(s[..|s| - 1])
      case None => None
      case Some(n) => Some(10 * n + DigitValue(s[|s| - 1]))
  }

  ghost function ParseInt(s: string): Option<int>
  {
    if |s| > 0 && s[0] == '-' then
      match ParseNat(s[1..])
      case None => None
      case Some(n) => if n == 0 then None else Some(0 - n as int)
    else match ParseNat(s)
      case None => None
      case Some(n) => Some(n)
  }

  lemma {:induction false} NatDecimalRoundTrip(n: nat)
    ensures ParseNat(NatToDecimal(n)) == Some(n)
    decreases n
  {
    var s := NatToDecimal(n);
    if n >= 10 {
      var q, d := n / 10, n % 10;
      NatDecimalRoundTrip(q);
      assert s == NatToDecimal(q) + [DigitChar(d)];
      assert s[..|s| - 1] == NatToDecimal(q);
      assert DigitValue(s[|s| - 1]) == d;
      assert n == 10 * q + d;
    }
  }

  /** Parsing the decimal text of an integer gives the integer back. */
  lemma IntDecimalRoundTrip(i: int)
    ensures ParseInt(IntToDecimal(i)) == Some(i)
  {
    var s := IntToDecimal(i);
    if i < 0 {
      NatDecimalRoundTrip(-i);
      assert s[0] == '-' && s[1..] == NatToDecimal(-i);
      assert ParseNat(s[1..]) == Some(-i);
    } else {
      NatDecimalRoundTrip(i);
      assert IsDigit(s[0]);
    }
  }

  lemma IntToDecimalInjective(a: int, b: int)
    ensures IntToDecimal(a) == IntToDecimal(b) ==> a == b
  {
    IntDecimalRoundTrip(a);
    IntDecimalRoundTrip(b);
  }

  // ---------------------------------------------------------------------------
  // Properties of split, join and the key round trip.

  lemma {:induction false} SplitNoSeparator(s: string, sep: char)
    requires sep !in s
    ensures Split(s, sep) == [s]
  {
    if s != [] {
      SplitNoSeparator(s[1..], sep);
      assert [s[0]] + s[1..] == s;
    }
  }

  lemma {:induction false} SplitAtSeparator(a: string, b: string, sep: char)
    requires sep !in a
    ensures Split(a + [sep] + b, sep) == [a] + Split(b, sep)
  {
    if a == [] {
      assert (a + [sep] + b)[1..] == b;
    } else {
      assert (a + [sep] + b)[1..] == a[1..] + [sep] + b;
      SplitAtSeparator(a[1..], b, sep);
      assert [a[0]] + a[1..] == a;
    }
  }

  lemma {:induction false} CountAppend(s: string, t: string, c: char)
    ensures Count(s + t, c) == Count(s, c) + Count(t, c)
  {
    if s != [] {
      assert (s + t)[1..] == s[1..] + t;
      CountAppend(s[1..], t, c);
    } else {
      assert s + t == t;
    }
  }

  lemma {:induction false} CountAbsent(s: string, c: char)
    requires c !in s
    ensures Count(s, c) == 0
  {
    if s != [] {
      CountAbsent(s[1..], c);
    }
  }

  /** toCoord(fromCoord(c)) gives back the decimal texts of both numbers (as strings). */
  lemma ToCoordFromCoord(c: Coord)
    ensures ToCoord(FromCoord(c)) == KeyParts(IntToDecimal(c.x), Some(IntToDecimal(c.y)))
  {
    var x, y := IntToDecimal(c.x), IntToDecimal(c.y);
    assert FromCoord(c) == x + [','] + y;
    SplitAtSeparator(x, y, ',');
    SplitNoSeparator(y, ',');
  }

  /** fromCoord is injective: distinct coordinates never share a key. */
  lemma FromCoordInjective(a: Coord, b: Coord)
    ensures FromCoord(a) == FromCoord(b) ==> a == b
  {
    if FromCoord(a) == FromCoord(b) {
      ToCoordFromCoord(a);
      ToCoordFromCoord(b);
      IntToDecimalInjective(a.x, b.x);
      IntToDecimalInjective(a.y, b.y);
    }
  }

  /** A string with no comma is a single piece: `x` is the whole string, `y` is undefined. */
  lemma ToCoordWithoutComma(s: string)
    requires ',' !in s
    ensures ToCoord(s) == KeyParts(s, None)
  {
    SplitNoSeparator(s, ',');
  }
}
