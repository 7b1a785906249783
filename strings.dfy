/** The JavaScript string operations the core relies on: `join`, `split`,
    `trim`, `endsWith`, `toLowerCase` and the decimal rendering of an integer
    inside a template literal. */
module Strings {

  /** `t` occurs in `s` starting at index `i`. */
  predicate OccursAt(s: string, t: string, i: nat) {
    i + |t| <= |s| && s[i..i + |t|] == t
  }

  /** `t` is a substring of `s`. */
  ghost predicate Contains(s: string, t: string) {
    exists i: nat :: OccursAt(s, t, i)
  }

  /** A substring of a part is a substring of any string built around it. */
  lemma ContainsWithin(a: string, m: string, b: string, t: string)
    requires Contains(m, t)
    ensures Contains(a + m + b, t)
  {
    var i: nat :| OccursAt(m, t, i);
    var s := a + m + b;
    assert s[|a| + i..|a| + i + |t|] == m[i..i + |t|];
    assert OccursAt(s, t, |a| + i);
  }

  /** A substring of a substring is a substring. */
  lemma TransitiveContains(s: string, m: string, t: string)
    requires Contains(s, m) && Contains(m, t)
    ensures Contains(s, t)
  {
    var i: nat :| OccursAt(s, m, i);
    var j: nat :| OccursAt(m, t, j);
    assert s[i..i + |m|] == m;
    forall k | 0 <= k < |t|
      ensures s[i + j + k] == t[k]
    {
      assert s[i + j + k] == s[i..i + |m|][j + k] == m[j + k] == m[j..j + |t|][k];
    }
    assert s[i + j..i + j + |t|] == t;
    assert OccursAt(s, t, i + j);
  }

  /** A template literal `s0${v0}s1${v1}...sn`: the literal strings with the
      substituted values between them. */
  function Template(strings: seq<string>, values: seq<string>): string
    requires |strings| == |values| + 1
    decreases |values|
  {
    if |values| == 0 then strings[0]
    else strings[0] + values[0] + Template(strings[1..], values[1..])
  }

  /** Every substituted value occurs in the text a template builds. */
  lemma {:induction false} TemplateContains(strings: seq<string>, values: seq<string>, k: nat)
    requires |strings| == |values| + 1 && k < |values|
    ensures Contains(Template(strings, values), values[k])
  {
    var s := Template(strings, values);
    var rest := Template(strings[1..], values[1..]);
    assert s == strings[0] + values[0] + rest;
    if k == 0 {
      assert s[|strings[0]|..|strings[0]| + |values[0]|] == values[0];
      assert OccursAt(s, values[0], |strings[0]|);
    } else {
      TemplateContains(strings[1..], values[1..], k - 1);
      var i: nat :| OccursAt(rest, values[k], i);
      var offset := |strings[0]| + |values[0]|;
      assert s[offset + i..offset + i + |values[k]|] == rest[i..i + |values[k]|];
      assert OccursAt(s, values[k], offset + i);
    }
  }

  // ----- join -----

  /** `parts.join(sep)`: the parts in order, `sep` between neighbours;
      `[].join(sep)` is the empty string. */
  function Join(parts: seq<string>, sep: string): (r: string)
    ensures |parts| > 0 ==> |parts[0]| <= |r| && r[..|parts[0]|] == parts[0]
  {
    if |parts| == 0 then ""
    else if |parts| == 1 then parts[0]
    else parts[0] + sep + Join(parts[1..], sep)
  }

  /** Every part occurs in the joined text. */
  lemma {:induction false} JoinContains(parts: seq<string>, sep: string, k: nat)
    requires k < |parts|
    ensures Contains(Join(parts, sep), parts[k])
  {
    var s := Join(parts, sep);
    if k == 0 {
      assert OccursAt(s, parts[0], 0);
    } else {
      JoinContains(parts[1..], sep, k - 1);
      var rest := Join(parts[1..], sep);
      var i: nat :| OccursAt(rest, parts[k], i);
      var off := |parts[0]| + |sep|;
      assert s == parts[0] + sep + rest;
      assert s[off + i..off + i + |parts[k]|] == rest[i..i + |parts[k]|];
      assert OccursAt(s, parts[k], off + i);
    }
  }

  /** A character absent from every part and from the separator is absent
      from the joined string. */
  lemma {:induction false} JoinAvoids(parts: seq<string>, sep: string, c: char)
    requires NoneContain(parts, c) && c !in sep
    ensures c !in Join(parts, sep)
  {
    if |parts| > 1 {
      JoinAvoids(parts[1..], sep, c);
    }
  }

  /** Number of occurrences of `c` in `s`. */
  function CountChar(s: string, c: char): (n: nat)
    ensures n <= |s|
    ensures n == 0 <==> c !in s
  {
    if |s| == 0 then 0
    else (if s[0] == c then 1 else 0) + CountChar(s[1..], c)
  }

  lemma {:induction false} CountCharConcat(a: string, b: string, c: char)
    ensures CountChar(a + b, c) == CountChar(a, c) + CountChar(b, c)
  {
    if |a| > 0 {
      assert (a + b)[1..] == a[1..] + b;
      CountCharConcat(a[1..], b, c);
    } else {
      assert a + b == b;
    }
  }

  /** No part contains the character `c`. */
  predicate NoneContain(parts: seq<string>, c: char) {
    forall i :: 0 <= i < |parts| ==> c !in parts[i]
  }

  /** Joining n >= 1 parts that do not contain `c` with the separator `[c]`
      yields exactly n - 1 occurrences of `c`. */
  lemma {:induction false} JoinSeparatorCount(parts: seq<string>, c: char)
    requires |parts| > 0 && NoneContain(parts, c)
    ensures CountChar(Join(parts, [c]), c) == |parts| - 1
  {
    if |parts| > 1 {
      JoinSeparatorCount(parts[1..], c);
      CountCharConcat(parts[0] + [c], Join(parts[1..], [c]), c);
      CountCharConcat(parts[0], [c], c);
    }
  }

  // ----- split -----

  /** `s.split(c)` for a one-character separator: the maximal pieces between
      occurrences of `c`; the empty string splits into `[""]`. */
  function Split(s: string, c: char): (r: seq<string>)
    ensures |r| == CountChar(s, c) + 1
    ensures NoneContain(r, c)
  {
    if |s| == 0 then [""]
    else
      var rest := Split(s[1..], c);
      if s[0] == c then [""] + rest
      else [[s[0]] + rest[0]] + rest[1..]
  }

  lemma {:induction false} SplitNoSeparator(p: string, c: char)
    requires c !in p
    ensures Split(p, c) == [p]
  {
    if |p| > 0 {
      SplitNoSeparator(p[1..], c);
      assert [p[0]] + p[1..] == p;
    }
  }

  lemma {:induction false} SplitAfterPiece(p: string, t: string, c: char)
    requires c !in p
    ensures Split(p + [c] + t, c) == [p] + Split(t, c)
  {
    var s := p + [c] + t;
    if |p| == 0 {
      assert s[0] == c && s[1..] == t;
    } else {
      assert s[0] == p[0] && s[1..] == p[1..] + [c] + t;
      SplitAfterPiece(p[1..], t, c);
      assert [p[0]] + p[1..] == p;
    }
  }

  /** Splitting undoes joining when no part contains the separator: the
      pieces are the parts, in order. */
  lemma {:induction false} SplitJoin(parts: seq<string>, c: char)
    requires |parts| > 0 && NoneContain(parts, c)
    ensures Split(Join(parts, [c]), c) == parts
  {
    if |parts| == 1 {
      SplitNoSeparator(parts[0], c);
    } else {
      SplitJoin(parts[1..], c);
      SplitAfterPiece(parts[0], Join(parts[1..], [c]), c);
      assert [parts[0]] + parts[1..] == parts;
    }
  }

  /** The last piece of `s.split(c)` (what `pop()` returns) is the text after
      the last `c`: it holds no `c`, it ends `s`, and either it is all of `s`
      or a `c` stands right before it. */
  lemma {:induction false} SplitLastPiece(s: string, c: char)
    ensures var last := Split(s, c)[|Split(s, c)| - 1];
      && c !in last
      && |last| <= |s| && s[|s| - |last|..] == last
      && (|last| < |s| ==> s[|s| - |last| - 1] == c)
  {
    if |s| > 0 {
      SplitLastPiece(s[1..], c);
    }
  }

  // ----- endsWith, toLowerCase -----

  /** `s.endsWith(suffix)`. */
  predicate EndsWith(s: string, suffix: string) {
    |suffix| <= |s| && s[|s| - |suffix|..] == suffix
  }

  /** `toLowerCase` on one character, for the ASCII letters. */
  function LowerChar(ch: char): char {
    if 'A' <= ch <= 'Z' then (ch as int + 32) as char else ch
  }

  /** `s.toLowerCase()`, restricted to ASCII letters. */
  function ToLower(s: string): (r: string)
    ensures |r| == |s|
    ensures forall i :: 0 <= i < |s| ==> r[i] == LowerChar(s[i])
  {
    if |s| == 0 then "" else [LowerChar(s[0])] + ToLower(s[1..])
  }

  // ----- trim -----

  /** The characters ECMAScript's `trim` removes: WhiteSpace and
      LineTerminator code points. */
  predicate IsWhiteSpace(ch: char) {
    || ch == '\t' || ch == '\n' || ch == '\U{000B}' || ch == '\U{000C}' || ch == '\r'
    || ch == ' ' || ch == '\U{00A0}' || ch == '\U{1680}'
    || ('\U{2000}' <= ch <= '\U{200A}')
    || ch == '\U{2028}' || ch == '\U{2029}' || ch == '\U{202F}' || ch == '\U{205F}'
    || ch == '\U{3000}' || ch == '\U{FEFF}'
  }

  /** Every character of `s` is white space (also true of ""). */
  predicate Blank(s: string) {
    forall i :: 0 <= i < |s| ==> IsWhiteSpace(s[i])
  }

  /** `s` with its leading white space removed. */
  function TrimStart(s: string): string {
    if |s| > 0 && IsWhiteSpace(s[0]) then TrimStart(s[1..]) else s
  }

  /** `TrimStart` cuts a blank prefix and stops at the first other character. */
  lemma {:induction false} TrimStartSlice(s: string)
    ensures |TrimStart(s)| <= |s| && TrimStart(s) == s[|s| - |TrimStart(s)|..]
    ensures Blank(s[..|s| - |TrimStart(s)|])
    ensures TrimStart(s) != "" ==> !IsWhiteSpace(TrimStart(s)[0])
  {
    if |s| > 0 && IsWhiteSpace(s[0]) {
      TrimStartSlice(s[1..]);
      var r := TrimStart(s);
      assert s[1..][|s| - 1 - |r|..] == s[|s| - |r|..];
      forall k | 0 <= k < |s| - |r|
        ensures IsWhiteSpace(s[k])
      {
        if k > 0 {
          assert s[k] == s[1..][..|s| - 1 - |r|][k - 1];
        }
      }
    }
  }

  /** `s` with its trailing white space removed. */
  function TrimEnd(s: string): string {
    if |s| > 0 && IsWhiteSpace(s[|s| - 1]) then TrimEnd(s[..|s| - 1]) else s
  }

  /** `TrimEnd` cuts a blank suffix and stops at the last other character. */
  lemma {:induction false} TrimEndSlice(s: string)
    ensures |TrimEnd(s)| <= |s| && TrimEnd(s) == s[..|TrimEnd(s)|]
    ensures Blank(s[|TrimEnd(s)|..])
    ensures TrimEnd(s) != "" ==> !IsWhiteSpace(TrimEnd(s)[|TrimEnd(s)| - 1])
  {
    if |s| > 0 && IsWhiteSpace(s[|s| - 1]) {
      var p := s[..|s| - 1];
      TrimEndSlice(p);
      var r := TrimEnd(s);
      assert p[..|r|] == s[..|r|];
      forall k | |r| <= k < |s|
        ensures IsWhiteSpace(s[k])
      {
        if k < |s| - 1 {
          assert s[k] == p[|r|..][k - |r|];
        }
      }
    }
  }

  /** `s.trim()`. */
  function Trim(s: string): string {
    TrimEnd(TrimStart(s))
  }

  /** `s.trim()` is a contiguous slice of `s` with only white space cut off
      at both ends, neither end of which is white space. It is empty exactly
      when `s` is blank. */
  lemma TrimSlice(s: string)
    ensures exists i: nat :: OccursAt(s, Trim(s), i) && Blank(s[..i]) && Blank(s[i + |Trim(s)|..])
    ensures Trim(s) != "" ==> !IsWhiteSpace(Trim(s)[0]) && !IsWhiteSpace(Trim(s)[|Trim(s)| - 1])
    ensures Trim(s) == "" <==> Blank(s)
  {
    var t := TrimStart(s);
    var r := TrimEnd(t);
    TrimStartSlice(s);
    TrimEndSlice(t);
    var i := |s| - |t|;
    assert OccursAt(s, r, i) && Blank(s[..i]) && Blank(s[i + |r|..]) by {
      assert s[i..i + |r|] == t[..|r|];
      assert s[i + |r|..] == t[|r|..];
    }
    assert r == "" ==> Blank(s) by {
      if r == "" {
        forall k | 0 <= k < |s| ensures IsWhiteSpace(s[k]) {
          assert s[k] == s[..i][k];
        }
      }
    }
  }

  // ----- decimal rendering -----

  /** The decimal digit character for `d`. */
  function DigitChar(d: int): char
    requires 0 <= d < 10
  {
    "0123456789"[d]
  }

  predicate IsDigit(ch: char) {
    '0' <= ch <= '9'
  }

  function DigitValue(ch: char): int
    requires IsDigit(ch)
  {
    ch as int - '0' as int
  }

  /** Decimal digits of `n` without leading zeros. */
  function NatToString(n: nat): (r: string)
    ensures |r| > 0 && forall i :: 0 <= i < |r| ==> IsDigit(r[i])
    ensures r[0] == '0' ==> n == 0
  {
    if n < 10 then [DigitChar(n)] else NatToString(n / 10) + [DigitChar(n % 10)]
  }

  /** The number a string of decimal digits denotes. */
  function ParseDigits(s: string): nat
    requires forall i :: 0 <= i < |s| ==> IsDigit(s[i])
  {
    if |s| == 0 then 0 else ParseDigits(s[..|s| - 1]) * 10 + DigitValue(s[|s| - 1])
  }

  /** `${n}` for an integer `n`: a minus sign for negatives, then the digits. */
  function IntToString(n: int): (r: string)
    ensures |r| > 0
    ensures n < 0 <==> r[0] == '-'
  {
    if n < 0 then "-" + NatToString(-n) else NatToString(n)
  }

  /** A rendered number holds digits and at most a leading minus sign, so
      no line break. */
  lemma IntToStringNoNewline(n: int)
    ensures '\n' !in IntToString(n)
  {
    var r := IntToString(n);
    if n < 0 {
      assert forall i :: 1 <= i < |r| ==> r[i] == NatToString(-n)[i - 1];
    }
  }

  /** Reading the decimal digits back gives the number. */
  lemma {:induction false} NatToStringParses(n: nat)
    ensures ParseDigits(NatToString(n)) == n
  {
    if n >= 10 {
      var prefix := NatToString(n / 10);
      var s := NatToString(n);
      assert s[..|s| - 1] == prefix;
      NatToStringParses(n / 10);
    }
  }
}
