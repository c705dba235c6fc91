/**
 * The JavaScript string built-ins the commands rely on, stated over `seq<char>`:
 * `split` on one separator character and its inverse `join`, a regex
 * character-class `replace(/[...]/g, '')`, `replaceAll` of one character,
 * ASCII `toLowerCase`, and `Number.toString(16)` with `padStart`.
 */
module Text {

  /** `pieces.join([sep])`: the pieces with one separator between neighbours. */
  function Join(pieces: seq<string>, sep: char): string
    requires |pieces| >= 1
  {
    if |pieces| == 1 then pieces[0] else pieces[0] + [sep] + Join(pieces[1..], sep)
  }

  /**
   * `s.split(sep)` for a one-character separator: always at least one piece,
   * no piece holds the separator, and joining the pieces gives `s` back.
   */
  function Split(s: string, sep: char): (r: seq<string>)
    ensures |r| >= 1
    ensures forall i :: 0 <= i < |r| ==> sep !in r[i]
    ensures Join(r, sep) == s
    decreases |s|
  {
    if |s| == 0 then [""]
    else
      var rest := Split(s[1..], sep);
      if s[0] == sep then
        assert Join([""] + rest, sep) == [sep] + Join(rest, sep) by {
          assert ([""] + rest)[1..] == rest;
        }
        assert s == [s[0]] + s[1..];
        [""] + rest
      else
        var r := [[s[0]] + rest[0]] + rest[1..];
        assert r[1..] == rest[1..];
        assert Join(r, sep) == [s[0]] + Join(rest, sep) by {
          if |rest| > 1 {
            assert Join(rest, sep) == rest[0] + [sep] + Join(rest[1..], sep);
          }
        }
        assert s == [s[0]] + s[1..];
        r
  }

  /** Splitting text that was joined from separator-free pieces recovers the pieces. */
  lemma {:induction false} SplitJoin(pieces: seq<string>, sep: char)
    requires |pieces| >= 1
    requires forall i :: 0 <= i < |pieces| ==> sep !in pieces[i]
    ensures Split(Join(pieces, sep), sep) == pieces
    decreases |pieces|, |pieces[0]|
  {
    var p := pieces[0];
    if |p| > 0 {
      // Peel the first character off the first piece.
      var shorter := [p[1..]] + pieces[1..];
      assert shorter[1..] == pieces[1..];
      forall i | 0 <= i < |shorter| ensures sep !in shorter[i] {
        if i == 0 {
          assert forall c :: c in p[1..] ==> c in p;
        } else {
          assert shorter[i] == pieces[i];
        }
      }
      SplitJoin(shorter, sep);
      assert Join(pieces, sep) == [p[0]] + Join(shorter, sep) by {
        if |pieces| > 1 {
          assert p == [p[0]] + p[1..];
        }
      }
      assert p[0] != sep by { assert p[0] in p; }
      var s := Join(pieces, sep);
      assert s[1..] == Join(shorter, sep);
      assert [[p[0]] + p[1..]] + pieces[1..] == pieces by { assert [p[0]] + p[1..] == p; }
    } else if |pieces| > 1 {
      SplitJoin(pieces[1..], sep);
      var s := Join(pieces, sep);
      assert s == [sep] + Join(pieces[1..], sep);
      assert s[1..] == Join(pieces[1..], sep);
      assert [""] + pieces[1..] == pieces;
    }
  }

  /** `s.replace(/[chars]/g, '')`: every character of the class removed, all others kept in order. */
  function Strip(s: string, chars: set<char>): (r: string)
    ensures forall c :: c in r <==> c in s && c !in chars
    ensures |r| <= |s|
  {
    if |s| == 0 then ""
    else if s[0] in chars then Strip(s[1..], chars)
    else [s[0]] + Strip(s[1..], chars)
  }

  /** Stripping works piecewise, so it keeps the order of the kept characters. */
  lemma {:induction false} StripAppend(a: string, b: string, chars: set<char>)
    ensures Strip(a + b, chars) == Strip(a, chars) + Strip(b, chars)
    decreases |a|
  {
    if |a| > 0 {
      assert (a + b)[0] == a[0];
      assert (a + b)[1..] == a[1..] + b;
      StripAppend(a[1..], b, chars);
      if a[0] !in chars {
        assert [a[0]] + (Strip(a[1..], chars) + Strip(b, chars)) == ([a[0]] + Strip(a[1..], chars)) + Strip(b, chars);
      }
    } else {
      assert a + b == b;
    }
  }

  /** Text with none of the class's characters is left exactly as it was. */
  lemma {:induction false} StripUntouched(s: string, chars: set<char>)
    requires forall i :: 0 <= i < |s| ==> s[i] !in chars
    ensures Strip(s, chars) == s
    decreases |s|
  {
    if |s| > 0 {
      StripUntouched(s[1..], chars);
      assert s == [s[0]] + s[1..];
    }
  }

  /** `s.replaceAll(from, to)` for single characters. */
  function ReplaceAll(s: string, from: char, to: char): (r: string)
    ensures |r| == |s|
    ensures forall i :: 0 <= i < |s| ==> r[i] == (if s[i] == from then to else s[i])
  {
    seq(|s|, i requires 0 <= i < |s| => if s[i] == from then to else s[i])
  }

  predicate IsUpper(c: char) { 'A' <= c <= 'Z' }

  /** ASCII `toLowerCase` of one character. */
  function LowerChar(c: char): char
  {
    if IsUpper(c) then (c as int + 32) as char else c
  }

  /** ASCII `toUpperCase` of one character, the inverse of `LowerChar` on letters. */
  function UpperChar(c: char): char
  {
    if 'a' <= c <= 'z' then (c as int - 32) as char else c
  }

  /** `s.toLowerCase()` restricted to ASCII letters. */
  function Lower(s: string): (r: string)
    ensures |r| == |s|
    ensures forall i :: 0 <= i < |s| ==> r[i] == LowerChar(s[i])
  {
    seq(|s|, i requires 0 <= i < |s| => LowerChar(s[i]))
  }

  /** `s.toUpperCase()` restricted to ASCII letters. */
  function Upper(s: string): (r: string)
    ensures |r| == |s|
    ensures forall i :: 0 <= i < |s| ==> r[i] == UpperChar(s[i])
  {
    seq(|s|, i requires 0 <= i < |s| => UpperChar(s[i]))
  }

  /** The lower-case hexadecimal digit for `d`, as `Number.toString(16)` writes it. */
  function HexDigit(d: nat): char
    requires d < 16
  {
    "0123456789abcdef"[d]
  }

  /** The value of a hexadecimal digit character (lower case), or 0 for anything else. */
  function DigitValue(c: char): (v: nat)
    ensures v < 16
  {
    if '0' <= c <= '9' then c as int - '0' as int
    else if 'a' <= c <= 'f' then c as int - 'a' as int + 10
    else 0
  }

  predicate IsHexDigit(c: char) { '0' <= c <= '9' || 'a' <= c <= 'f' }

  /** `n.toString(16)`: the shortest lower-case hexadecimal numeral of `n`. */
  function ToHex(n: nat): (r: string)
    ensures |r| >= 1
    ensures forall i :: 0 <= i < |r| ==> IsHexDigit(r[i])
    ensures n > 0 ==> r[0] != '0'
  {
    if n < 16 then [HexDigit(n)] else ToHex(n / 16) + [HexDigit(n % 16)]
  }

  /** Reads a hexadecimal numeral, most significant digit first. */
  function ParseHex(s: string): nat
  {
    if |s| == 0 then 0 else ParseHex(s[..|s| - 1]) * 16 + DigitValue(s[|s| - 1])
  }

  /** Sixteen to the power `k`. */
  function Pow16(k: nat): (p: nat)
    ensures p >= 1
  {
    if k == 0 then 1 else 16 * Pow16(k - 1)
  }

  /** Reading back what `ToHex` wrote gives the number. */
  lemma {:induction false} ParseToHex(n: nat)
    ensures ParseHex(ToHex(n)) == n
  {
    var r := ToHex(n);
    if n < 16 {
      assert r[..0] == [];
    } else {
      ParseToHex(n / 16);
      assert r[..|r| - 1] == ToHex(n / 16);
    }
  }

  /** `ToHex(n)` has at most `k` digits exactly when `n < 16^k`. */
  lemma {:induction false} ToHexLength(n: nat, k: nat)
    requires k >= 1
    ensures |ToHex(n)| <= k <==> n < Pow16(k)
  {
    if n >= 16 {
      if k == 1 {
        assert |ToHex(n)| >= 2;
      } else {
        ToHexLength(n / 16, k - 1);
        assert n < Pow16(k) <==> n / 16 < Pow16(k - 1);
      }
    }
  }

  /** `s.padStart(width, fill)`. */
  function PadStart(s: string, width: nat, fill: char): (r: string)
    ensures |r| == if |s| >= width then |s| else width
    ensures r[|r| - |s|..] == s
    ensures forall i :: 0 <= i < |r| - |s| ==> r[i] == fill
  {
    if |s| >= width then s else seq(width - |s|, _ => fill) + s
  }

  /** Leading zeros do not change the value of a numeral. */
  lemma {:induction false} ParseLeadingZeros(z: nat, s: string)
    ensures ParseHex(seq(z, _ => '0') + s) == ParseHex(s)
    decreases |s|
  {
    var t := seq(z, _ => '0') + s;
    if |s| == 0 {
      assert t == seq(z, _ => '0');
      ZerosParseToZero(z);
    } else {
      assert t[..|t| - 1] == seq(z, _ => '0') + s[..|s| - 1];
      ParseLeadingZeros(z, s[..|s| - 1]);
    }
  }

  lemma {:induction false} ZerosParseToZero(z: nat)
    ensures ParseHex(seq(z, _ => '0')) == 0
  {
    if z > 0 {
      var t := seq(z, _ => '0');
      assert t[..z - 1] == seq(z - 1, _ => '0');
      ZerosParseToZero(z - 1);
    }
  }
}
