/** String helpers in Python's terms: whitespace stripping, ASCII case
    folding, substring search, splitting, replacement and the decimal and
    hexadecimal conversions behind `str()`, `%d`, `%02d` and `int(s, 16)`. */
module Text {

  /** `c.isspace()`: the characters `str.strip()` removes, that is tab to carriage return, the four ASCII separators U+001C-U+001F, the
      space, next line, no-break space, the Ogham space mark, the spaces
      U+2000-U+200A, the line and paragraph separators, the narrow no-break
      space, the medium mathematical space and the ideographic space. */
  predicate IsSpace(c: char)
  {
    ('\t' <= c <= '\r') || ('\U{1C}' <= c <= ' ') || c == '\U{85}' || c == '\U{A0}'
    || c == '\U{1680}' || ('\U{2000}' <= c <= '\U{200A}') || c == '\U{2028}' || c == '\U{2029}'
    || c == '\U{202F}' || c == '\U{205F}' || c == '\U{3000}'
  }

  function StripLeft(s: string): (r: string)
    ensures |r| <= |s| && r == s[|s| - |r|..]
    ensures |r| > 0 ==> !IsSpace(r[0])
    ensures forall i :: 0 <= i < |s| - |r| ==> IsSpace(s[i])
  {
    if |s| > 0 && IsSpace(s[0]) then StripLeft(s[1..]) else s
  }

  function StripRight(s: string): (r: string)
    ensures |r| <= |s| && r == s[..|r|]
    ensures |r| > 0 ==> !IsSpace(r[|r| - 1])
    ensures forall i :: |r| <= i < |s| ==> IsSpace(s[i])
  {
    if |s| > 0 && IsSpace(s[|s| - 1]) then StripRight(s[..|s| - 1]) else s
  }

  /** `s.strip()`. */
  function Strip(s: string): (r: string)
    ensures |r| > 0 ==> !IsSpace(r[0]) && !IsSpace(r[|r| - 1])
  {
    StripRight(StripLeft(s))
  }

  /** A string of whitespace strips to nothing. */
  lemma {:induction false} StripBlank(s: string)
    requires forall i :: 0 <= i < |s| ==> IsSpace(s[i])
    ensures Strip(s) == []
  {
    if |s| > 0 {
      StripBlank(s[1..]);
    }
  }

  /** The whitespace `int()` skips around a number: the `str.isspace()`
      set without the four ASCII separators U+001C-U+001F. CPython maps only
      non-ASCII whitespace to a space before parsing, and its parser skips
      nothing but the ASCII space, tab, newline, vertical tab, form feed and
      carriage return. */
  predicate IntSpace(c: char)
  {
    IsSpace(c) && !('\U{1C}' <= c <= '\U{1F}')
  }

  function IntStripLeft(s: string): (r: string)
    ensures |r| <= |s| && r == s[|s| - |r|..]
    ensures |r| > 0 ==> !IntSpace(r[0])
    ensures forall i :: 0 <= i < |s| - |r| ==> IntSpace(s[i])
  {
    if |s| > 0 && IntSpace(s[0]) then IntStripLeft(s[1..]) else s
  }

  function IntStripRight(s: string): (r: string)
    ensures |r| <= |s| && r == s[..|r|]
    ensures |r| > 0 ==> !IntSpace(r[|r| - 1])
    ensures forall i :: |r| <= i < |s| ==> IntSpace(s[i])
  {
    if |s| > 0 && IntSpace(s[|s| - 1]) then IntStripRight(s[..|s| - 1]) else s
  }

  /** The text `int()` goes on to parse once it has skipped the whitespace
      around it. */
  function IntStrip(s: string): (r: string)
    ensures |r| > 0 ==> !IntSpace(r[0]) && !IntSpace(r[|r| - 1])
  {
    IntStripRight(IntStripLeft(s))
  }

  /** Whitespace `int()` skips, before one other character, goes away. */
  lemma IntSpaceBefore(sp: char, c: char)
    requires IntSpace(sp) && !IntSpace(c)
    ensures IntStrip([sp, c]) == [c]
  {
    assert [sp, c][1..] == [c];
    assert IntStripLeft([c]) == [c];
    assert IntStripRight([c]) == [c];
  }

  /** Whitespace `int()` skips, after one other character, goes away. */
  lemma IntSpaceAfter(sp: char, c: char)
    requires IntSpace(sp) && !IntSpace(c)
    ensures IntStrip([c, sp]) == [c]
  {
    assert IntStripLeft([c, sp]) == [c, sp];
    assert [c, sp][..1] == [c];
    assert IntStripRight([c]) == [c];
  }

  /** A separator U+001C-U+001F is left in place: `int()` does not skip it. */
  lemma SeparatorKept(sp: char, c: char)
    requires '\U{1C}' <= sp <= '\U{1F}' && !IntSpace(c)
    ensures IntStrip([sp, c]) == [sp, c] && IntStrip([c, sp]) == [c, sp]
  {
    assert IntStripLeft([sp, c]) == [sp, c];
    assert IntStripRight([sp, c]) == [sp, c];
    assert IntStripLeft([c, sp]) == [c, sp];
    assert IntStripRight([c, sp]) == [c, sp];
  }

  function LowerChar(c: char): char
  {
    if 'A' <= c <= 'Z' then (c as int + 32) as char else c
  }

  /** `s.lower()` on ASCII letters. */
  function Lower(s: string): (r: string)
    ensures |r| == |s|
    ensures forall i :: 0 <= i < |s| ==> r[i] == LowerChar(s[i])
  {
    if |s| == 0 then [] else [LowerChar(s[0])] + Lower(s[1..])
  }

  predicate IsPrefix(p: string, s: string)
  {
    |p| <= |s| && s[..|p|] == p
  }

  /** `sub in s`. */
  predicate Contains(s: string, sub: string)
    decreases |s|
  {
    IsPrefix(sub, s) || (|s| > 0 && Contains(s[1..], sub))
  }

  /** Lowering works character by character, so it splits over a
      concatenation, and lowering twice is lowering once. */
  lemma LowerConcat(a: string, b: string)
    ensures Lower(a + b) == Lower(a) + Lower(b)
  {
    assert forall i :: 0 <= i < |a + b| ==> Lower(a + b)[i] == (Lower(a) + Lower(b))[i];
  }

  lemma LowerIdempotent(s: string)
    ensures Lower(Lower(s)) == Lower(s)
  {
    assert forall i :: 0 <= i < |s| ==> Lower(Lower(s))[i] == Lower(s)[i];
  }

  /** A string occurring anywhere in a text is contained in it. */
  lemma {:induction false} ContainsInfix(a: string, sub: string, b: string)
    ensures Contains(a + sub + b, sub)
    decreases |a|
  {
    if |a| == 0 {
      assert (a + sub + b)[..|sub|] == sub;
    } else {
      ContainsInfix(a[1..], sub, b);
      assert (a + sub + b)[1..] == a[1..] + sub + b;
    }
  }

  /** `s.split(sep)` for one separator character. */
  function Split(s: string, sep: char): (r: seq<string>)
    ensures |r| >= 1
    ensures forall k :: 0 <= k < |r| ==> sep !in r[k]
  {
    if sep !in s then [s]
    else
      var i := IndexOf(s, sep);
      [s[..i]] + Split(s[i + 1..], sep)
  }

  /** `s.find(c)` for a character that occurs in s. */
  function IndexOf(s: string, c: char): (i: nat)
    requires c in s
    ensures i < |s| && s[i] == c && c !in s[..i]
  {
    if s[0] == c then 0 else 1 + IndexOf(s[1..], c)
  }

  /** `s.replace(pat, "")`: leftmost non-overlapping occurrences removed. */
  function RemoveAll(s: string, pat: string): (r: string)
    requires |pat| > 0
    ensures |r| <= |s|
    decreases |s|
  {
    if |s| == 0 then ""
    else if IsPrefix(pat, s) then RemoveAll(s[|pat|..], pat)
    else [s[0]] + RemoveAll(s[1..], pat)
  }

  /** Removing a pattern never introduces a character that the pattern does
      not contain, and keeps every such character already present. */
  lemma {:induction false} RemoveAllKeeps(s: string, pat: string, c: char)
    requires |pat| > 0 && c !in pat
    ensures c in RemoveAll(s, pat) <==> c in s
    decreases |s|
  {
    if |s| > 0 {
      if IsPrefix(pat, s) {
        RemoveAllKeeps(s[|pat|..], pat, c);
        assert s == pat + s[|pat|..];
      } else {
        RemoveAllKeeps(s[1..], pat, c);
        assert s == [s[0]] + s[1..];
      }
    }
  }

  /** Removing a one-character pattern leaves none of it. */
  lemma {:induction false} RemoveAllChar(s: string, c: char)
    ensures c !in RemoveAll(s, [c])
    decreases |s|
  {
    if |s| > 0 {
      if IsPrefix([c], s) {
        RemoveAllChar(s[1..], c);
      } else {
        RemoveAllChar(s[1..], c);
      }
    }
  }

  // ------------------------------------------------------- decimal numbers

  function DigitChar(d: nat): (c: char)
    requires d < 10
    ensures IsDigit(c) && DigitValue(c) == d
  {
    "0123456789"[d]
  }

  /** An ASCII decimal digit. */
  predicate IsDigit(c: char)
  {
    '0' <= c <= '9'
  }

  /** `str(n)` for a natural number. */
  function NatToString(n: nat): (r: string)
    ensures |r| >= 1
    ensures forall i :: 0 <= i < |r| ==> IsDigit(r[i])
    ensures n >= 10 ==> r[0] != '0'
    decreases n
  {
    if n < 10 then [DigitChar(n)] else NatToString(n / 10) + [DigitChar(n % 10)]
  }

  /** `str(n)` for an integer. */
  function IntToString(n: int): (r: string)
    ensures |r| >= 1
  {
    if n >= 0 then NatToString(n) else "-" + NatToString(-n)
  }

  function DigitValue(c: char): nat
    requires IsDigit(c)
  {
    c as int - '0' as int
  }

  /** Every character is an ASCII decimal digit. */
  predicate AllDigits(s: string)
  {
    forall i :: 0 <= i < |s| ==> IsDigit(s[i])
  }

  function ParseNat(s: string): nat
    requires AllDigits(s)
  {
    if |s| == 0 then 0 else 10 * ParseNat(s[..|s| - 1]) + DigitValue(s[|s| - 1])
  }

  /** Reading back the decimal digits of `str(n)` gives n. */
  lemma {:induction false} ParseNatToString(n: nat)
    ensures ParseNat(NatToString(n)) == n
    decreases n
  {
    if n >= 10 {
      ParseNatToString(n / 10);
      var s := NatToString(n);
      assert s[..|s| - 1] == NatToString(n / 10);
    }
  }

  lemma NatToStringInjective(a: nat, b: nat)
    requires NatToString(a) == NatToString(b)
    ensures a == b
  {
    ParseNatToString(a);
    ParseNatToString(b);
  }

  /** `str(a) == str(b)` on integers holds exactly when a == b. */
  lemma IntToStringInjective(a: int, b: int)
    ensures IntToString(a) == IntToString(b) <==> a == b
  {
    if IntToString(a) == IntToString(b) {
      if a >= 0 && b >= 0 {
        NatToStringInjective(a, b);
      } else if a < 0 && b < 0 {
        assert NatToString(-a) == IntToString(a)[1..];
        assert NatToString(-b) == IntToString(b)[1..];
        NatToStringInjective(-a, -b);
      }
    }
  }

  /** `"%02d" % n`: at least two characters, zero-padded. */
  function Pad2(n: int): (r: string)
    ensures 0 <= n < 100 ==> |r| == 2 && IsDigit(r[0]) && IsDigit(r[1]) && ParseNat(r) == n
    ensures n < 0 || n >= 100 ==> r == IntToString(n)
  {
    if 0 <= n < 100 then
      var t := [DigitChar(n / 10), DigitChar(n % 10)];
      assert ParseNat(t[..1]) == 10 * ParseNat([]) + DigitValue(t[0]);
      t
    else IntToString(n)
  }

  /** A text ending in ':' and two digits gives back its parts. */
  lemma ColonPad(prefix: string, n: int)
    requires 0 <= n < 100
    ensures var r := prefix + ":" + Pad2(n);
      && |r| == |prefix| + 3
      && r[..|prefix|] == prefix && r[|prefix|] == ':'
      && r[|prefix| + 1..] == Pad2(n)
  {
  }

  /** `"%d:%02d:%02d" % (h, m, s)` reads back as h, m and s. */
  lemma HmsText(h: nat, m: int, sec: int)
    requires 0 <= m < 60 && 0 <= sec < 60
    ensures var r := IntToString(h) + ":" + Pad2(m) + ":" + Pad2(sec);
      && |r| >= 7 && r[|r| - 6] == ':' && r[|r| - 3] == ':'
      && AllDigits(r[..|r| - 6]) && AllDigits(r[|r| - 5..|r| - 3]) && AllDigits(r[|r| - 2..])
      && ParseNat(r[..|r| - 6]) == h && ParseNat(r[|r| - 5..|r| - 3]) == m && ParseNat(r[|r| - 2..]) == sec
  {
    var hs := IntToString(h);
    ColonPad(hs, m);
    var mid := hs + ":" + Pad2(m);
    ColonPad(mid, sec);
    var r := mid + ":" + Pad2(sec);
    assert r[..|r| - 6] == hs;
    assert r[|r| - 5..|r| - 3] == Pad2(m);
    assert r[|r| - 2..] == Pad2(sec);
    ParseNatToString(h);
  }

  /** `"%d:%02d" % (m, s)` reads back as m and s. */
  lemma MsText(m: nat, sec: int)
    requires 0 <= sec < 60
    ensures var r := IntToString(m) + ":" + Pad2(sec);
      && |r| >= 4 && r[|r| - 3] == ':'
      && AllDigits(r[..|r| - 3]) && AllDigits(r[|r| - 2..])
      && ParseNat(r[..|r| - 3]) == m && ParseNat(r[|r| - 2..]) == sec
  {
    var ms := IntToString(m);
    ColonPad(ms, sec);
    var r := ms + ":" + Pad2(sec);
    assert r[..|r| - 3] == ms;
    assert r[|r| - 2..] == Pad2(sec);
    ParseNatToString(m);
  }

  // --------------------------------------------------- hexadecimal numbers

  /** An ASCII hexadecimal digit, in either case. */
  predicate IsHexDigit(c: char)
  {
    ('0' <= c <= '9') || ('a' <= c <= 'f') || ('A' <= c <= 'F')
  }

  function HexValue(c: char): (v: nat)
    requires IsHexDigit(c)
    ensures v < 16
  {
    if '0' <= c <= '9' then c as int - '0' as int
    else if 'a' <= c <= 'f' then c as int - 'a' as int + 10
    else c as int - 'A' as int + 10
  }

  /** The digits `'%x'` writes. */
  predicate IsLowerHex(c: char)
  {
    ('0' <= c <= '9') || ('a' <= c <= 'f')
  }

  function HexChar(d: nat): (c: char)
    requires d < 16
    ensures IsHexDigit(c) && HexValue(c) == d && IsLowerHex(c)
  {
    "0123456789abcdef"[d]
  }

  /** Value of a non-empty run of hexadecimal digits. */
  function HexDigitsValue(s: string): nat
    requires forall i :: 0 <= i < |s| ==> IsHexDigit(s[i])
  {
    if |s| == 0 then 0 else 16 * HexDigitsValue(s[..|s| - 1]) + HexValue(s[|s| - 1])
  }

  /** `'%x' % n` for n >= 0: lower-case hexadecimal without leading zeros. */
  function NatToHex(n: nat): (r: string)
    ensures |r| >= 1
    ensures forall i :: 0 <= i < |r| ==> IsHexDigit(r[i]) && IsLowerHex(r[i])
    decreases n
  {
    if n < 16 then [HexChar(n)] else NatToHex(n / 16) + [HexChar(n % 16)]
  }

  lemma {:induction false} NatToHexValue(n: nat)
    ensures HexDigitsValue(NatToHex(n)) == n
    decreases n
  {
    if n >= 16 {
      NatToHexValue(n / 16);
      var s := NatToHex(n);
      assert s[..|s| - 1] == NatToHex(n / 16);
    }
  }

  lemma NatToHexShort(n: nat)
    ensures n < 256 ==> |NatToHex(n)| <= 2
  {
    if 16 <= n < 256 {
      assert n / 16 < 16;
    }
  }
}
