/** String operations of JavaScript used by the model: `trim`, ASCII case
    mapping, `startsWith`, `includes`, `join`, `indexOf`/`lastIndexOf`,
    and decimal digit runs. Strings are sequences of code points. */
module Strings {
  import opened Wrappers
  import opened Seqs

  /** The characters `String.prototype.trim` removes: the white space and
      line terminators of section 12.2 and 12.3 of ECMA-262. */
  predicate IsSpace(c: char)
  {
    c == '\t' || c == '\n' || c == '\U{000B}' || c == '\U{000C}' || c == '\r' || c == ' '
    || c == '\U{00A0}' || c == '\U{1680}' || ('\U{2000}' <= c <= '\U{200A}')
    || c == '\U{2028}' || c == '\U{2029}' || c == '\U{202F}' || c == '\U{205F}'
    || c == '\U{3000}' || c == '\U{FEFF}'
  }

  function TrimStart(s: string): (r: string)
    ensures r == [] || !IsSpace(r[0])
    ensures |r| <= |s| && r == s[|s| - |r|..]
    ensures forall k :: 0 <= k < |s| - |r| ==> IsSpace(s[k])
  {
    if s != [] && IsSpace(s[0]) then TrimStart(s[1..]) else s
  }

  function TrimEnd(s: string): (r: string)
    ensures r == [] || !IsSpace(Last(r))
    ensures |r| <= |s| && r == s[..|r|]
    ensures forall k :: |r| <= k < |s| ==> IsSpace(s[k])
  {
    if s != [] && IsSpace(Last(s)) then TrimEnd(Init(s)) else s
  }

  /** `s.trim()`. */
  function Trim(s: string): string
  {
    TrimEnd(TrimStart(s))
  }

  /** What `trim` leaves is a piece of the input with no white space at
      either end, and only white space was cut off. */
  lemma TrimProperties(s: string)
    ensures Trim(s) == [] || (!IsSpace(Trim(s)[0]) && !IsSpace(Last(Trim(s))))
    ensures Trim(s) == s[|s| - |TrimStart(s)|..][..|Trim(s)|]
    ensures var i := |s| - |TrimStart(s)|;
            && (forall k :: 0 <= k < i ==> IsSpace(s[k]))
            && (forall k :: i + |Trim(s)| <= k < |s| ==> IsSpace(s[k]))
  {
    TrimEnds(s);
    TrimSlice(s);
    TrimCut(s);
  }

  lemma TrimEnds(s: string)
    ensures Trim(s) == [] || (!IsSpace(Trim(s)[0]) && !IsSpace(Last(Trim(s))))
  {
    var t := TrimStart(s);
    var r := TrimEnd(t);
    if r != [] {
      assert r[0] == t[0];
    }
  }

  lemma TrimSlice(s: string)
    ensures Trim(s) == s[|s| - |TrimStart(s)|..][..|Trim(s)|]
  {
    var t := TrimStart(s);
    assert t == s[|s| - |t|..];
    assert Trim(s) == t[..|Trim(s)|];
  }

  lemma TrimCut(s: string)
    ensures var i := |s| - |TrimStart(s)|;
            && (forall k :: 0 <= k < i ==> IsSpace(s[k]))
            && (forall k :: i + |Trim(s)| <= k < |s| ==> IsSpace(s[k]))
  {
    var t := TrimStart(s);
    CutBothEnds(s, t, TrimEnd(t), IsSpace);
  }

  /** Cutting a run of `p` characters off the front of `s`, giving `t`,
      and then off the back of `t`, giving `r`, cuts only `p` characters
      off `s`. */
  lemma CutBothEnds(s: string, t: string, r: string, p: char -> bool)
    requires |t| <= |s| && t == s[|s| - |t|..] && forall k :: 0 <= k < |s| - |t| ==> p(s[k])
    requires |r| <= |t| && r == t[..|r|] && forall k :: |r| <= k < |t| ==> p(t[k])
    ensures forall k :: 0 <= k < |s| - |t| ==> p(s[k])
    ensures forall k :: |s| - |t| + |r| <= k < |s| ==> p(s[k])
  {
    forall k | |s| - |t| + |r| <= k < |s| ensures p(s[k]) {
      assert s[k] == t[k - (|s| - |t|)];
    }
  }

  /** A string without white space at its ends is left as it is. */
  lemma TrimUnchanged(s: string)
    requires s == [] || (!IsSpace(s[0]) && !IsSpace(Last(s)))
    ensures Trim(s) == s
  {
  }

  lemma TrimIdempotent(s: string)
    ensures Trim(Trim(s)) == Trim(s)
  {
    TrimProperties(s);
    TrimUnchanged(Trim(s));
  }

  /** Trailing white space after a string that ends with a non-space is
      all that `TrimEnd` removes. */
  lemma {:induction false} TrimEndAppend(x: string, y: string)
    requires x != [] && !IsSpace(Last(x))
    ensures TrimEnd(x + y) == x + TrimEnd(y)
    decreases |y|
  {
    if y == [] {
      assert x + y == x;
    } else if IsSpace(Last(y)) {
      assert Init(x + y) == x + Init(y);
      TrimEndAppend(x, Init(y));
    } else {
      assert Last(x + y) == Last(y);
    }
  }

  /** `trim` keeps a leading part that has no white space at its ends. */
  lemma TrimKeepsLead(x: string, y: string)
    requires x != [] && !IsSpace(x[0]) && !IsSpace(Last(x))
    ensures StartsWith(Trim(x + y), x)
  {
    assert (x + y)[0] == x[0];
    TrimEndAppend(x, y);
  }

  /** A truthy string. */
  predicate NonEmpty(s: string)
  {
    s != ""
  }

  // ---------------------------------------------------------------------
  // Case mapping (ASCII letters only)

  function LowerChar(c: char): char
  {
    if 'A' <= c <= 'Z' then (c as int + 32) as char else c
  }

  function UpperChar(c: char): char
  {
    if 'a' <= c <= 'z' then (c as int - 32) as char else c
  }

  /** `s.toLowerCase()` on the ASCII letters. */
  function Lower(s: string): (r: string)
    ensures |r| == |s|
    ensures forall i :: 0 <= i < |s| ==> r[i] == LowerChar(s[i])
  {
    seq(|s|, i requires 0 <= i < |s| => LowerChar(s[i]))
  }

  /** `s.toUpperCase()` on the ASCII letters. */
  function Upper(s: string): (r: string)
    ensures |r| == |s|
    ensures forall i :: 0 <= i < |s| ==> r[i] == UpperChar(s[i])
  {
    seq(|s|, i requires 0 <= i < |s| => UpperChar(s[i]))
  }

  lemma LowerIdempotent(s: string)
    ensures Lower(Lower(s)) == Lower(s)
  {
  }

  // ---------------------------------------------------------------------
  // Search

  /** `s.startsWith(p)`. */
  predicate StartsWith(s: string, p: string)
  {
    |p| <= |s| && s[..|p|] == p
  }

  /** `hay.includes(needle)`. */
  predicate Contains(hay: string, needle: string)
    decreases |hay|
  {
    StartsWith(hay, needle) || (hay != [] && Contains(hay[1..], needle))
  }

  /** `Contains` finds exactly the positions where `needle` occurs. */
  lemma {:induction false} ContainsAt(hay: string, needle: string, i: nat)
    requires i + |needle| <= |hay| && hay[i..i + |needle|] == needle
    ensures Contains(hay, needle)
    decreases i
  {
    if i > 0 {
      assert hay[1..][i - 1..i - 1 + |needle|] == hay[i..i + |needle|];
      ContainsAt(hay[1..], needle, i - 1);
    }
  }

  /** `s.indexOf(c)`: the first position of `c`, or -1. */
  function IndexOf(s: string, c: char): (r: int)
    ensures -1 <= r < |s|
    ensures r >= 0 ==> s[r] == c && c !in s[..r]
    ensures r == -1 <==> c !in s
  {
    if s == [] then -1
    else if s[0] == c then 0
    else
      var k := IndexOf(s[1..], c);
      assert k >= 0 ==> s[..k + 1] == [s[0]] + s[1..][..k];
      assert s == [s[0]] + s[1..];
      if k == -1 then -1 else k + 1
  }

  /** `s.lastIndexOf(c)`: the last position of `c`, or -1. */
  function LastIndexOf(s: string, c: char): (r: int)
    ensures -1 <= r < |s|
    ensures r >= 0 ==> s[r] == c && c !in s[r + 1..]
    ensures r == -1 <==> c !in s
  {
    if s == [] then -1
    else if Last(s) == c then |s| - 1
    else
      var k := LastIndexOf(Init(s), c);
      assert s == Init(s) + [Last(s)];
      assert k >= 0 ==> s[k + 1..] == Init(s)[k + 1..] + [Last(s)];
      k
  }

  /** From the first `{` through the last `}` inclusive, when the first comes
      before the last; the slicing shared by `extractJsonObject` and the
      third attempt of `parseJsonStrict`. */
  function BraceSlice(s: string): Option<string>
  {
    var i := IndexOf(s, '{');
    var j := LastIndexOf(s, '}');
    if i >= 0 && j > i then Some(s[i..j + 1]) else None
  }

  /** A slice is found exactly when some `{` comes before some `}`; it starts
      with `{`, ends with `}`, no `{` comes before it and no `}` after it. */
  lemma BraceSliceProperties(s: string)
    ensures BraceSlice(s).Some? <==> exists a, b :: 0 <= a < b < |s| && s[a] == '{' && s[b] == '}'
    ensures BraceSlice(s).Some? ==>
              var t := BraceSlice(s).value;
              exists i :: 0 <= i && i + |t| <= |s| && s[i..i + |t|] == t
                && 2 <= |t| && t[0] == '{' && Last(t) == '}'
                && '{' !in s[..i] && '}' !in s[i + |t|..]
  {
    BraceSliceFound(s);
    if BraceSlice(s).Some? {
      BraceSliceShape(s);
    }
  }

  lemma BraceSliceFound(s: string)
    ensures BraceSlice(s).Some? <==> exists a, b :: 0 <= a < b < |s| && s[a] == '{' && s[b] == '}'
  {
    if exists a, b :: 0 <= a < b < |s| && s[a] == '{' && s[b] == '}' {
      var a, b :| 0 <= a < b < |s| && s[a] == '{' && s[b] == '}';
      BraceSliceOfPair(s, a, b);
    }
    if BraceSlice(s).Some? {
      var i := IndexOf(s, '{');
      var j := LastIndexOf(s, '}');
      assert s[i] == '{' && s[j] == '}';
    }
  }

  /** A `{` before a `}` gives a slice. */
  lemma BraceSliceOfPair(s: string, a: nat, b: nat)
    requires a < b < |s| && s[a] == '{' && s[b] == '}'
    ensures BraceSlice(s).Some?
  {
    IndexOfAtMost(s, '{', a);
    LastIndexOfAtLeast(s, '}', b);
  }

  /** The first occurrence comes no later than any occurrence. */
  lemma {:induction false} IndexOfAtMost(s: string, c: char, a: nat)
    requires a < |s| && s[a] == c
    ensures 0 <= IndexOf(s, c) <= a
  {
    if s[0] != c {
      assert s[1..][a - 1] == s[a];
      IndexOfAtMost(s[1..], c, a - 1);
    }
  }

  /** The last occurrence comes no earlier than any occurrence. */
  lemma {:induction false} LastIndexOfAtLeast(s: string, c: char, b: nat)
    requires b < |s| && s[b] == c
    ensures b <= LastIndexOf(s, c)
  {
    if Last(s) != c {
      assert Init(s)[b] == s[b];
      LastIndexOfAtLeast(Init(s), c, b);
    }
  }

  lemma BraceSliceShape(s: string)
    requires BraceSlice(s).Some?
    ensures var t := BraceSlice(s).value;
            exists i :: 0 <= i && i + |t| <= |s| && s[i..i + |t|] == t
              && 2 <= |t| && t[0] == '{' && Last(t) == '}'
              && '{' !in s[..i] && '}' !in s[i + |t|..]
  {
    var i := IndexOf(s, '{');
    var j := LastIndexOf(s, '}');
    var t := s[i..j + 1];
    assert BraceSlice(s).value == t;
    assert i + |t| == j + 1;
    assert s[i..i + |t|] == t;
    assert t[0] == s[i] && Last(t) == s[j];
    assert '{' !in s[..i] && '}' !in s[j + 1..];
  }

  // ---------------------------------------------------------------------
  // Joining

  /** `parts.join(sep)`. */
  function Join(parts: seq<string>, sep: string): string
  {
    if parts == [] then ""
    else if |parts| == 1 then parts[0]
    else Join(Init(parts), sep) + sep + Last(parts)
  }

  /** Joining a prefix of the parts gives a prefix of the whole join. */
  lemma {:induction false} JoinPrefix(parts: seq<string>, sep: string, k: nat)
    requires k <= |parts|
    ensures StartsWith(Join(parts, sep), Join(parts[..k], sep))
    decreases |parts|
  {
    if k == |parts| {
      assert parts[..k] == parts;
    } else if k > 0 {
      JoinPrefix(Init(parts), sep, k);
      assert Init(parts)[..k] == parts[..k];
      var whole := Join(parts, sep);
      var init := Join(Init(parts), sep);
      assert |parts| >= 2;
      assert whole == init + sep + Last(parts);
      assert whole[..|init|] == init;
    }
  }

  /** A join of non-empty parts is non-empty. */
  lemma {:induction false} JoinNonEmpty(parts: seq<string>, sep: string)
    requires parts != [] && parts[0] != ""
    ensures Join(parts, sep) != ""
    decreases |parts|
  {
    if |parts| > 1 {
      JoinNonEmpty(Init(parts), sep);
    }
  }

  /** `arr.map((q) => q.trim())`. */
  function TrimAll(arr: seq<string>): (r: seq<string>)
    ensures |r| == |arr| && forall i :: 0 <= i < |arr| ==> r[i] == Trim(arr[i])
  {
    seq(|arr|, i requires 0 <= i < |arr| => Trim(arr[i]))
  }

  /** Non-empty and without white space at either end: what `trim` leaves
      of a string that is not blank. */
  predicate Trimmed(s: string)
  {
    s != [] && !IsSpace(s[0]) && !IsSpace(Last(s))
  }

  /** What `trim` leaves is trimmed or empty, and `trim` keeps a trimmed
      string as it is. */
  lemma TrimmedOfTrim(s: string)
    ensures Trim(s) != "" ==> Trimmed(Trim(s))
    ensures Trimmed(s) ==> Trim(s) == s
  {
    TrimEnds(s);
    if Trimmed(s) {
      TrimUnchanged(s);
    }
  }

  /** A join of trimmed parts is trimmed, whatever the separator. */
  lemma {:induction false} JoinTrimmed(parts: seq<string>, sep: string)
    requires parts != [] && forall k :: 0 <= k < |parts| ==> Trimmed(parts[k])
    ensures Trimmed(Join(parts, sep))
    decreases |parts|
  {
    if |parts| > 1 {
      assert forall k :: 0 <= k < |Init(parts)| ==> Init(parts)[k] == parts[k];
      JoinTrimmed(Init(parts), sep);
      var j := Join(Init(parts), sep);
      var whole := j + sep + Last(parts);
      assert Join(parts, sep) == whole;
      assert whole[0] == j[0];
      assert Last(whole) == Last(Last(parts));
    }
  }

  /** The joins with a space of the first two, the first three and all of
      `parts`. */
  function GrowingJoins(parts: seq<string>): (js: seq<string>)
    ensures |js| == 3
  {
    [Join(Prefix(parts, 2), " "), Join(Prefix(parts, 3), " "), Join(parts, " ")]
  }

  /** Each of the growing joins starts with the one before it. */
  lemma GrowingJoinsPrefixes(parts: seq<string>)
    ensures var js := GrowingJoins(parts);
            StartsWith(js[1], js[0]) && StartsWith(js[2], js[1])
  {
    var e2, e3 := SliceEnd(|parts|, 2), SliceEnd(|parts|, 3);
    var p3 := parts[..e3];
    assert p3[..e2] == parts[..e2];
    JoinPrefix(p3, " ", e2);
    JoinPrefix(parts, " ", e3);
  }

  /** The growing joins of trimmed strings, at least one, are trimmed. */
  lemma GrowingJoinsTrimmed(parts: seq<string>)
    requires parts != [] && forall k :: 0 <= k < |parts| ==> Trimmed(parts[k])
    ensures forall k :: 0 <= k < 3 ==> Trimmed(GrowingJoins(parts)[k])
  {
    forall n: int | n == 2 || n == 3 ensures Trimmed(Join(Prefix(parts, n), " ")) {
      var p := Prefix(parts, n);
      assert p != [] && forall k :: 0 <= k < |p| ==> p[k] == parts[k];
      JoinTrimmed(p, " ");
    }
    JoinTrimmed(parts, " ");
  }

  // ---------------------------------------------------------------------
  // Decimal digits

  predicate IsDigit(c: char)
  {
    '0' <= c <= '9'
  }

  function DigitOf(c: char): nat
    requires IsDigit(c)
  {
    c as int - '0' as int
  }

  /** The value of a run of decimal digits (`Number("042")` is 42). */
  function DigitsValue(ds: string): nat
    requires forall k :: 0 <= k < |ds| ==> IsDigit(ds[k])
  {
    if ds == [] then 0 else 10 * DigitsValue(Init(ds)) + DigitOf(Last(ds))
  }

  /** The decimal digits of `n`, without leading zeros. */
  function NatToDigits(n: nat): (ds: string)
    ensures ds != [] && forall k :: 0 <= k < |ds| ==> IsDigit(ds[k])
  {
    var d := ((n % 10) + '0' as int) as char;
    if n < 10 then [d] else NatToDigits(n / 10) + [d]
  }

  lemma {:induction false} NatToDigitsValue(n: nat)
    ensures DigitsValue(NatToDigits(n)) == n
  {
    var ds := NatToDigits(n);
    if n >= 10 {
      NatToDigitsValue(n / 10);
      assert Init(ds) == NatToDigits(n / 10);
    }
  }
}
