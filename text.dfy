/**
 * Character classes and string operations of JavaScript, on `seq<char>`.
 * Case mapping is restricted to ASCII letters; every other character maps to itself.
 */
module Text {
  import opened Wrappers


  predicate IsLowerAscii(c: char) { 'a' <= c <= 'z' }

  predicate IsUpperAscii(c: char) { 'A' <= c <= 'Z' }

  predicate IsDigit(c: char) { '0' <= c <= '9' }

  /** The regular-expression class `\w`. */
  predicate IsWordChar(c: char) { IsLowerAscii(c) || IsUpperAscii(c) || IsDigit(c) || c == '_' }

  /** The regular-expression class `\s`: JavaScript's WhiteSpace and LineTerminator characters. */
  predicate IsSpace(c: char)
  {
    c == ' ' || c == '\t' || c == '\n' || c == '\U{B}' || c == '\U{C}' || c == '\r'
    || c == '\U{A0}' || c == '\U{1680}' || ('\U{2000}' <= c <= '\U{200A}')
    || c == '\U{2028}' || c == '\U{2029}' || c == '\U{202F}' || c == '\U{205F}'
    || c == '\U{3000}' || c == '\U{FEFF}'
  }

  function UpperChar(c: char): (r: char)
    ensures !IsLowerAscii(r)
    ensures r != c ==> IsLowerAscii(c) && IsUpperAscii(r)
    ensures IsWordChar(r) == IsWordChar(c) && IsSpace(r) == IsSpace(c)
  {
    if IsLowerAscii(c) then (c as int - 32) as char else c
  }

  function LowerChar(c: char): (r: char)
    ensures !IsUpperAscii(r)
    ensures r != c ==> IsUpperAscii(c) && IsLowerAscii(r)
    ensures IsWordChar(r) == IsWordChar(c) && IsSpace(r) == IsSpace(c)
  {
    if IsUpperAscii(c) then (c as int + 32) as char else c
  }

  /** `String.prototype.toUpperCase`, narrowed to ASCII. */
  function Upper(s: string): (r: string)
    ensures |r| == |s|
    ensures forall i :: 0 <= i < |s| ==> r[i] == UpperChar(s[i])
  {
    seq(|s|, i requires 0 <= i < |s| => UpperChar(s[i]))
  }

  /** `String.prototype.toLowerCase`, narrowed to ASCII. */
  function Lower(s: string): (r: string)
    ensures |r| == |s|
    ensures forall i :: 0 <= i < |s| ==> r[i] == LowerChar(s[i])
  {
    seq(|s|, i requires 0 <= i < |s| => LowerChar(s[i]))
  }

  /** `s.endsWith(suffix)`. */
  predicate HasSuffix(s: string, suffix: string)
  {
    |suffix| <= |s| && s[|s| - |suffix|..] == suffix
  }

  lemma ConcatHasSuffix(head: string, tail: string)
    ensures HasSuffix(head + tail, tail)
  {
    assert (head + tail)[|head + tail| - |tail|..] == tail;
  }

  /** `s.startsWith(prefix)`. */
  predicate HasPrefix(s: string, prefix: string)
  {
    |prefix| <= |s| && s[..|prefix|] == prefix
  }

  lemma ConcatHasPrefix(head: string, tail: string)
    ensures HasPrefix(head + tail, head)
  {
    assert (head + tail)[..|head|] == head;
  }

  /** Appending text keeps a prefix. */
  lemma PrefixAppend(s: string, t: string, prefix: string)
    requires HasPrefix(s, prefix)
    ensures HasPrefix(s + t, prefix)
  {
    assert (s + t)[..|prefix|] == s[..|prefix|];
  }

  /** `s.includes(part)`: `part` occurs in `s` at some offset. */
  predicate Includes(s: string, part: string)
  {
    exists i :: 0 <= i <= |s| - |part| && s[i..][..|part|] == part
  }

  lemma IncludesSelf(s: string)
    ensures Includes(s, s)
  {
    assert s[0..][..|s|] == s;
  }

  lemma PrefixIncluded(s: string, prefix: string)
    requires HasPrefix(s, prefix)
    ensures Includes(s, prefix)
  {
    assert s[0..][..|prefix|] == prefix;
  }

  /** Text around an occurrence keeps it. */
  lemma IncludesAppend(s: string, t: string, part: string)
    requires Includes(s, part)
    ensures Includes(s + t, part) && Includes(t + s, part)
  {
    var i :| 0 <= i <= |s| - |part| && s[i..][..|part|] == part;
    assert (s + t)[i..][..|part|] == s[i..][..|part|];
    assert (t + s)[|t| + i..][..|part|] == s[i..][..|part|];
  }

  predicate HasNoLowerAscii(s: string)
  {
    forall i :: 0 <= i < |s| ==> !IsLowerAscii(s[i])
  }

  /** An upper-cased string holds no lower-case letter, and upper-casing it again changes nothing. */
  lemma UpperIsIdempotent(s: string)
    ensures HasNoLowerAscii(Upper(s))
    ensures Upper(Upper(s)) == Upper(s)
  {
  }

  lemma UpperDistributes(a: string, b: string)
    ensures Upper(a + b) == Upper(a) + Upper(b)
  {
  }

  /** `String.prototype.split` with a one-character separator: never empty, separators dropped. */
  function Split(s: string, sep: char): (parts: seq<string>)
    ensures |parts| >= 1
    ensures forall i :: 0 <= i < |parts| ==> sep !in parts[i]
    decreases |s|
  {
    if |s| == 0 then [""]
    else
      var rest := Split(s[1..], sep);
      if s[0] == sep then [""] + rest
      else [[s[0]] + rest[0]] + rest[1..]
  }

  /** `Array.prototype.join`. */
  function Join(parts: seq<string>, sep: string): string
  {
    if |parts| == 0 then ""
    else if |parts| == 1 then parts[0]
    else parts[0] + sep + Join(parts[1..], sep)
  }

  /** Splitting and joining again gives the original string back. */
  lemma {:induction false} JoinSplit(s: string, sep: char)
    ensures Join(Split(s, sep), [sep]) == s
    decreases |s|
  {
    if |s| > 0 {
      JoinSplit(s[1..], sep);
      var rest := Split(s[1..], sep);
      if s[0] == sep {
        assert s == [sep] + s[1..];
      } else if |rest| == 1 {
        assert s == [s[0]] + s[1..];
      } else {
        assert Join(rest, [sep]) == rest[0] + [sep] + Join(rest[1..], [sep]);
        assert s == [s[0]] + s[1..];
      }
    }
  }

  /** Joining parts that hold no separator and splitting again gives the parts back. */
  lemma {:induction false} SplitJoin(parts: seq<string>, sep: char)
    requires |parts| >= 1
    requires forall i :: 0 <= i < |parts| ==> sep !in parts[i]
    ensures Split(Join(parts, [sep]), sep) == parts
    decreases |parts|, |parts[0]|
  {
    if |parts[0]| == 0 {
      if |parts| > 1 {
        SplitJoin(parts[1..], sep);
        assert Join(parts, [sep]) == [sep] + Join(parts[1..], [sep]);
      }
    } else {
      var s := Join(parts, [sep]);
      var tail := [parts[0][1..]] + parts[1..];
      assert tail[0] == parts[0][1..];
      assert forall i :: 1 <= i < |tail| ==> tail[i] == parts[i];
      SplitJoin(tail, sep);
      if |parts| == 1 {
        assert s[1..] == Join(tail, [sep]);
      } else {
        assert s == parts[0] + [sep] + Join(parts[1..], [sep]);
        assert Join(tail, [sep]) == parts[0][1..] + [sep] + Join(parts[1..], [sep]);
        assert s[1..] == Join(tail, [sep]);
      }
      assert s[0] == parts[0][0] && s[0] != sep;
      assert [s[0]] + tail[0] == parts[0];
      assert parts == [parts[0]] + tail[1..];
    }
  }

  /** Appending `sep + b` to a string adds the parts of `b` after those of `a`. */
  lemma {:induction false} SplitAppend(a: string, b: string, sep: char)
    ensures Split(a + [sep] + b, sep) == Split(a, sep) + Split(b, sep)
    decreases |a|
  {
    var s := a + [sep] + b;
    if |a| == 0 {
      assert s == [sep] + b;
      SplitCons(sep, b, sep);
    } else {
      assert s == [a[0]] + (a[1..] + [sep] + b);
      assert a == [a[0]] + a[1..];
      SplitAppend(a[1..], b, sep);
      SplitCons(a[0], a[1..] + [sep] + b, sep);
      SplitCons(a[0], a[1..], sep);
    }
  }

  /** One step of `Split`: the first character either closes a part or joins the first part. */
  lemma SplitCons(c: char, t: string, sep: char)
    ensures var rest := Split(t, sep);
            Split([c] + t, sep) == if c == sep then [""] + rest else [[c] + rest[0]] + rest[1..]
  {
    assert ([c] + t)[1..] == t;
  }

  /** A position of `String.prototype.slice`: negative counts from the end; both clamp to the length. */
  function SliceIndex(len: nat, i: int): (r: nat)
    ensures r <= len
    ensures 0 <= i <= len ==> r == i
    ensures i < 0 ==> r == if len + i < 0 then 0 else len + i
  {
    if i < 0 then (if len + i < 0 then 0 else len + i)
    else if i > len then len
    else i
  }

  /** `String.prototype.slice(start, end)`. */
  function JsSlice(s: string, start: int, end: int): (r: string)
    ensures |r| <= |s|
    ensures 0 <= start <= end <= |s| ==> r == s[start..end]
  {
    var from := SliceIndex(|s|, start);
    var to := SliceIndex(|s|, end);
    if from >= to then "" else s[from..to]
  }

  function DigitChar(d: nat): (c: char)
    requires d < 10
    ensures IsDigit(c)
  {
    ('0' as int + d) as char
  }

  function DigitValue(c: char): (d: nat)
    requires IsDigit(c)
    ensures d < 10 && DigitChar(d) == c
  {
    c as int - '0' as int
  }

  /** The decimal digits of a natural number, as `String(n)` prints them. */
  function NatToString(n: nat): (r: string)
    ensures |r| >= 1
    ensures forall i :: 0 <= i < |r| ==> IsDigit(r[i])
    decreases n
  {
    if n < 10 then [DigitChar(n)] else NatToString(n / 10) + [DigitChar(n % 10)]
  }

  /** `String(i)` for an integer. */
  function IntToString(i: int): string
  {
    if i < 0 then "-" + NatToString(-i) else NatToString(i)
  }

  /** Removes every occurrence of `pat` (non-empty), scanning left to right, as `replace(/pat/g, '')` does. */
  function RemoveAll(s: string, pat: string): (r: string)
    requires |pat| > 0
    ensures |r| <= |s|
    decreases |s|
  {
    if |s| < |pat| then s
    else if s[..|pat|] == pat then RemoveAll(s[|pat|..], pat)
    else [s[0]] + RemoveAll(s[1..], pat)
  }

  /** A digit of base 10 or 16 (either case), as `parseInt` reads them. */
  predicate IsDigitIn(c: char, radix: nat)
  {
    IsDigit(c) || (radix == 16 && ('a' <= c <= 'f' || 'A' <= c <= 'F'))
  }

  function DigitIn(c: char, radix: nat): (d: nat)
    requires IsDigitIn(c, radix)
    ensures d < (if IsDigit(c) then 10 else 16)
  {
    if IsDigit(c) then DigitValue(c)
    else if 'a' <= c <= 'f' then c as int - 'a' as int + 10
    else c as int - 'A' as int + 10
  }

  /** The length of the longest prefix of `s` made of digits of `radix`. */
  function DigitRun(s: string, radix: nat): (k: nat)
    ensures k <= |s|
    ensures forall i :: 0 <= i < k ==> IsDigitIn(s[i], radix)
    ensures k < |s| ==> !IsDigitIn(s[k], radix)
    decreases |s|
  {
    if |s| == 0 || !IsDigitIn(s[0], radix) then 0 else 1 + DigitRun(s[1..], radix)
  }

  /** The number a run of digits denotes, most significant first. */
  function DigitsValue(s: string, radix: nat): nat
    requires forall i :: 0 <= i < |s| ==> IsDigitIn(s[i], radix)
    decreases |s|
  {
    if |s| == 0 then 0 else DigitsValue(s[..|s| - 1], radix) * radix + DigitIn(s[|s| - 1], radix)
  }

  /** `s` without its leading white space, as `parseInt` first strips it. */
  function TrimStart(s: string): (r: string)
    ensures |r| <= |s| && r == s[|s| - |r|..]
    ensures |r| > 0 ==> !IsSpace(r[0])
    ensures forall i :: 0 <= i < |s| - |r| ==> IsSpace(s[i])
    decreases |s|
  {
    if |s| > 0 && IsSpace(s[0]) then TrimStart(s[1..]) else s
  }

  /**
   * `parseInt(s)` without a radix: leading white space and one sign are skipped, a `0x` or
   * `0X` prefix selects base 16, and the longest run of digits after that is read; trailing
   * characters are ignored. None stands for NaN, which is also the answer when no digit follows.
   */
  function ParseInt(s: string): Option<int>
  {
    ParseSigned(TrimStart(s))
  }

  /** What `parseInt` reads once the white space is gone: an optional sign, then the digits. */
  function ParseSigned(t: string): Option<int>
  {
    if |t| > 0 && t[0] == '-' then
      match ParseUnsigned(t[1..])
      case None => None
      case Some(n) => Some(-n)
    else if |t| > 0 && t[0] == '+' then ParseUnsigned(t[1..])
    else ParseUnsigned(t)
  }

  /** The digits after the sign: base 16 after `0x` or `0X`, base 10 otherwise. */
  function ParseUnsigned(u: string): Option<int>
  {
    var hex := |u| >= 2 && u[0] == '0' && (u[1] == 'x' || u[1] == 'X');
    var radix := if hex then 16 else 10;
    var v := if hex then u[2..] else u;
    var k := DigitRun(v, radix);
    if k == 0 then None else Some(DigitsValue(v[..k], radix))
  }

  lemma {:induction false} DigitsOfNat(n: nat)
    ensures DigitsValue(NatToString(n), 10) == n
    decreases n
  {
    var r := NatToString(n);
    if n >= 10 {
      DigitsOfNat(n / 10);
      assert r[..|r| - 1] == NatToString(n / 10);
      assert DigitIn(r[|r| - 1], 10) == n % 10;
    } else {
      assert DigitIn(r[0], 10) == n;
    }
  }

  /**
   * `parseInt` reads back what `String(n)` prints, and stops at the first character that is
   * not a digit; after a lone `0` an `x` would switch to base 16 instead.
   */
  lemma ParseIntOfNat(n: nat, rest: string)
    requires |rest| == 0 || !IsDigit(rest[0])
    requires n == 0 && |rest| > 0 ==> rest[0] != 'x' && rest[0] != 'X'
    ensures ParseInt(NatToString(n) + rest) == Some(n)
  {
    var d := NatToString(n);
    var s := d + rest;
    assert s[0] == d[0];
    assert !(|s| >= 2 && s[0] == '0' && (s[1] == 'x' || s[1] == 'X')) by {
      if |d| >= 2 {
        assert s[1] == d[1];
      } else if n != 0 {
        assert d[0] != '0';
      }
    }
    ParseDecimal(s);
    DigitRunOfDigits(d, rest);
    assert s[..|d|] == d;
    DigitsOfNat(n);
  }

  /** A text starting with a digit, and not with `0x` or `0X`, is read as its leading decimal digits. */
  lemma ParseDecimal(s: string)
    requires |s| > 0 && IsDigit(s[0]) && !(|s| >= 2 && s[0] == '0' && (s[1] == 'x' || s[1] == 'X'))
    ensures ParseInt(s) == Some(DigitsValue(s[..DigitRun(s, 10)], 10))
  {
    assert !IsSpace(s[0]);
    assert TrimStart(s) == s;
    assert s[0] != '-' && s[0] != '+';
    assert ParseSigned(s) == ParseUnsigned(s);
  }

  lemma {:induction false} DigitRunOfDigits(d: string, rest: string)
    requires forall i :: 0 <= i < |d| ==> IsDigit(d[i])
    requires |rest| == 0 || !IsDigit(rest[0])
    ensures DigitRun(d + rest, 10) == |d|
    decreases |d|
  {
    if |d| > 0 {
      assert (d + rest)[1..] == d[1..] + rest;
      DigitRunOfDigits(d[1..], rest);
    } else {
      assert d + rest == rest;
    }
  }

  /** Leading white space never changes what `parseInt` reads. */
  lemma ParseIntSkipsSpace(c: char, s: string)
    requires IsSpace(c)
    ensures ParseInt([c] + s) == ParseInt(s)
  {
    assert ([c] + s)[1..] == s;
    assert TrimStart([c] + s) == TrimStart(s);
  }
}
