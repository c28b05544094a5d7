/** The text keys of the scene's tile-damage map. A grabbed tile is counted
    under the key `${x}x${y}`; the destruction scan recovers the tile from
    the key with `split("x")` and `parseInt` of the first two parts. */
module TileKeys {
  import opened Common

  /** A wall tile, by column and row of the walls layer. */
  datatype Tile = Tile(x: int, y: int)

  predicate IsDigit(c: char) {
    '0' <= c <= '9'
  }

  function DigitValue(c: char): (d: nat)
    requires IsDigit(c)
    ensures d < 10
  {
    c as int - '0' as int
  }

  function DigitChar(d: nat): (c: char)
    requires d < 10
    ensures IsDigit(c) && DigitValue(c) == d
  {
    (d + '0' as int) as char
  }

  /** Decimal text of a natural number, without leading zeros, as a
      template literal prints it. */
  function NatText(n: nat): (s: string)
    ensures |s| >= 1
    ensures forall i :: 0 <= i < |s| ==> IsDigit(s[i])
    decreases n
  {
    if n < 10 then [DigitChar(n)] else NatText(n / 10) + [DigitChar(n % 10)]
  }

  /** Decimal text of an integer: a minus sign before the text of its magnitude. */
  function IntText(i: int): (s: string)
    ensures |s| >= 1
  {
    if i < 0 then "-" + NatText(-i) else NatText(i)
  }

  /** The damage-map key of a tile (Game.ts, `${x}x${y}`). */
  function Key(t: Tile): string {
    IntText(t.x) + "x" + IntText(t.y)
  }

  /** `s.split(sep)` for a one-character separator: the pieces between
      separators, including empty ones; never an empty list. */
  function Split(s: string, sep: char): (parts: seq<string>)
    ensures |parts| >= 1
  {
    if s == [] then [""]
    else
      var rest := Split(s[1..], sep);
      if s[0] == sep then [""] + rest else [[s[0]] + rest[0]] + rest[1..]
  }

  /** `parts.join(sep)`, the inverse of Split. */
  function Join(parts: seq<string>, sep: char): string
    requires |parts| >= 1
  {
    if |parts| == 1 then parts[0] else parts[0] + [sep] + Join(parts[1..], sep)
  }

  /** Value of a run of decimal digits, read left to right. */
  function DigitsValue(s: string): nat
    requires forall i :: 0 <= i < |s| ==> IsDigit(s[i])
  {
    if s == [] then 0 else DigitsValue(s[..|s| - 1]) * 10 + DigitValue(s[|s| - 1])
  }

  /** Length of the longest prefix of `s` made of decimal digits. */
  function DigitRun(s: string): (n: nat)
    ensures n <= |s|
    ensures forall i :: 0 <= i < n ==> IsDigit(s[i])
    ensures n < |s| ==> !IsDigit(s[n])
  {
    if s == [] || !IsDigit(s[0]) then 0 else 1 + DigitRun(s[1..])
  }

  /** `parseInt(s)` in base 10: an optional sign, then the longest run of
      decimal digits; NaN (None) when that run is empty. */
  function ParseInt(s: string): Option<int> {
    var negative := |s| > 0 && s[0] == '-';
    var body := if |s| > 0 && (s[0] == '-' || s[0] == '+') then s[1..] else s;
    var n := DigitRun(body);
    var magnitude: int := if n == 0 then 0 else DigitsValue(body[..n]);
    if n == 0 then None
    else if negative then Some(-magnitude)
    else Some(magnitude)
  }

  /** The tile the destruction scan removes for a key: both coordinates must
      parse; a missing second part is `parseInt(undefined)`, which is NaN,
      and a NaN coordinate names no tile. Parts after the second are ignored. */
  function DecodeKey(k: string): Option<Tile> {
    var parts := Split(k, 'x');
    if |parts| < 2 then None
    else
      match (ParseInt(parts[0]), ParseInt(parts[1]))
      case (Some(x), Some(y)) => Some(Tile(x, y))
      case _ => None
  }

  /** A key the scene itself would write: the key of some tile. */
  ghost predicate IsCanonicalKey(k: string) {
    exists t :: Key(t) == k
  }

  /** Split and Join are inverse, and no piece contains the separator. */
  lemma {:induction false} SplitJoin(s: string, sep: char)
    ensures Join(Split(s, sep), sep) == s
    ensures forall i :: 0 <= i < |Split(s, sep)| ==> sep !in Split(s, sep)[i]
  {
    if s != [] {
      SplitJoin(s[1..], sep);
      var rest := Split(s[1..], sep);
      if s[0] == sep {
        assert Split(s, sep) == [""] + rest;
        assert Split(s, sep)[1..] == rest;
      } else {
        var parts := Split(s, sep);
        assert parts == [[s[0]] + rest[0]] + rest[1..];
        if |rest| == 1 {
          assert Join(parts, sep) == [s[0]] + rest[0];
          assert Join(rest, sep) == rest[0];
        } else {
          assert parts[1..] == rest[1..];
          assert Join(rest, sep) == rest[0] + [sep] + Join(rest[1..], sep);
        }
        assert s == [s[0]] + s[1..];
        forall i | 0 <= i < |parts| ensures sep !in parts[i] {
          if i > 0 { assert parts[i] == rest[i]; }
        }
      }
    }
  }

  /** A piece without separators followed by a separator splits off as one part. */
  lemma {:induction false} SplitAtFirst(a: string, b: string, sep: char)
    requires sep !in a
    ensures Split(a + [sep] + b, sep) == [a] + Split(b, sep)
  {
    if a == [] {
      assert a + [sep] + b == [sep] + b;
      assert ([sep] + b)[1..] == b;
    } else {
      var s := a + [sep] + b;
      assert s[1..] == a[1..] + [sep] + b;
      SplitAtFirst(a[1..], b, sep);
      assert [a[0]] + a[1..] == a;
    }
  }

  /** A string without separators is its own single part. */
  lemma {:induction false} SplitNoSeparator(s: string, sep: char)
    requires sep !in s
    ensures Split(s, sep) == [s]
  {
    if s != [] {
      SplitNoSeparator(s[1..], sep);
      assert [s[0]] + s[1..] == s;
    }
  }

  lemma {:induction false} NatTextValue(n: nat)
    ensures DigitsValue(NatText(n)) == n
    decreases n
  {
    if n >= 10 {
      NatTextValue(n / 10);
      var s := NatText(n / 10) + [DigitChar(n % 10)];
      assert s[..|s| - 1] == NatText(n / 10);
    }
  }

  /** parseInt reads back every integer's decimal text. */
  lemma ParseIntText(i: int)
    ensures ParseInt(IntText(i)) == Some(i)
  {
    var m: nat := if i < 0 then -i else i;
    var digits := NatText(m);
    NatTextValue(m);
    assert DigitRun(digits) == |digits|;
    assert digits[..|digits|] == digits;
    if i < 0 {
      assert IntText(i)[1..] == digits;
    } else {
      assert IntText(i)[0] == digits[0];
    }
  }

  lemma NoSeparatorInText(i: int)
    ensures 'x' !in IntText(i)
  {
    var m: nat := if i < 0 then -i else i;
    var digits := NatText(m);
    if i < 0 {
      assert IntText(i) == ['-'] + digits;
    }
  }

  /** Decoding a tile's key gives the tile back, for every integer pair. */
  lemma KeyRoundTrip(t: Tile)
    ensures DecodeKey(Key(t)) == Some(t)
  {
    NoSeparatorInText(t.x);
    NoSeparatorInText(t.y);
    SplitAtFirst(IntText(t.x), IntText(t.y), 'x');
    SplitNoSeparator(IntText(t.y), 'x');
    assert Key(t) == IntText(t.x) + ['x'] + IntText(t.y);
    ParseIntText(t.x);
    ParseIntText(t.y);
  }

  /** Distinct tiles never share a key, so the map counts each tile on its own. */
  lemma KeyInjective(a: Tile, b: Tile)
    ensures Key(a) == Key(b) <==> a == b
  {
    KeyRoundTrip(a);
    KeyRoundTrip(b);
  }

  /** A key the scene writes decodes to the one tile it was written for. */
  lemma CanonicalKeyDecodes(k: string)
    requires IsCanonicalKey(k)
    ensures DecodeKey(k).Some? && Key(DecodeKey(k).value) == k
  {
    var t :| Key(t) == k;
    KeyRoundTrip(t);
  }
}
