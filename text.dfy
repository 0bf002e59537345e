/**
 * The handful of Python string operations the server code relies on:
 * str.isspace and str.strip, str.lower (ASCII letters), the `in` substring
 * test, slicing, str.join, str.split on one character, str(n) for a natural
 * number and the last piece of str.split(sep).
 */
module Text {

  /** The characters Python's str.isspace() accepts, which str.strip() removes by default. */
  predicate IsSpace(c: char) {
    || c == ' '
    || ('\t' <= c <= '\r')
    || ('\U{1C}' <= c <= '\U{1F}')
    || c == '\U{85}' || c == '\U{A0}' || c == '\U{1680}'
    || ('\U{2000}' <= c <= '\U{200A}')
    || c == '\U{2028}' || c == '\U{2029}' || c == '\U{202F}' || c == '\U{205F}' || c == '\U{3000}'
  }

  /** s.lstrip(chars): drops the longest prefix whose characters all satisfy drop. */
  function LStrip(s: string, drop: char -> bool): (r: string)
    ensures |r| <= |s| && r == s[|s| - |r|..]
    ensures forall i :: 0 <= i < |s| - |r| ==> drop(s[i])
    ensures r != [] ==> !drop(r[0])
    decreases |s|
  {
    if s != [] && drop(s[0]) then
      var r := LStrip(s[1..], drop);
      assert s[1..][|s| - 1 - |r|..] == s[|s| - |r|..];
      assert forall i :: 1 <= i < |s| - |r| ==> s[i] == s[1..][i - 1];
      r
    else s
  }

  /** s.rstrip(chars): drops the longest suffix whose characters all satisfy drop. */
  function RStrip(s: string, drop: char -> bool): (r: string)
    ensures |r| <= |s| && r == s[..|r|]
    ensures forall i :: |r| <= i < |s| ==> drop(s[i])
    ensures r != [] ==> !drop(r[|r| - 1])
    decreases |s|
  {
    if s != [] && drop(s[|s| - 1]) then RStrip(s[..|s| - 1], drop) else s
  }

  /** s.strip(chars): both ends at once. */
  function Strip(s: string, drop: char -> bool): string {
    RStrip(LStrip(s, drop), drop)
  }

  /** Python's s.strip() with no argument. */
  function StripSpace(s: string): string {
    Strip(s, IsSpace)
  }

  /** What strip keeps is a part of s and starts and ends with a character it keeps. */
  lemma StripShape(s: string, drop: char -> bool)
    ensures var r := Strip(s, drop);
      && (forall c :: c in r ==> c in s)
      && (r != [] ==> !drop(r[0]) && !drop(r[|r| - 1]))
  {
    StripKeeps(s, drop);
    StripEnds(s, drop);
  }

  lemma StripKeeps(s: string, drop: char -> bool)
    ensures forall c :: c in Strip(s, drop) ==> c in s
  {
    var a := StripSlice(s, drop);
    SliceMembers(s, Strip(s, drop), a);
  }

  /** Every character of a slice of s is a character of s. */
  lemma SliceMembers(s: string, r: string, a: nat)
    requires a + |r| <= |s| && r == s[a..a + |r|]
    ensures forall c :: c in r ==> c in s
  {
    forall c | c in r ensures c in s {
      InSlice(s, a, a + |r|, c);
    }
  }

  lemma StripEnds(s: string, drop: char -> bool)
    ensures var r := Strip(s, drop);
      r != [] ==> !drop(r[0]) && !drop(r[|r| - 1])
  {
    var r := Strip(s, drop);
    if r != [] {
      assert r[0] == LStrip(s, drop)[0];
    }
  }

  /** What strip keeps is the slice of s from the first kept character on. */
  lemma StripSlice(s: string, drop: char -> bool) returns (a: nat)
    ensures var r := Strip(s, drop);
      a + |r| <= |s| && r == s[a..a + |r|]
  {
    var l := LStrip(s, drop);
    var r := RStrip(l, drop);
    a := |s| - |l|;
    assert r == l[..|r|] == s[a..][..|r|];
  }

  /** A string that neither starts nor ends with a dropped character is left as it is. */
  lemma StripKeepsPlain(s: string, drop: char -> bool)
    requires s != [] ==> !drop(s[0]) && !drop(s[|s| - 1])
    ensures Strip(s, drop) == s
  {
  }

  /** A dropped character in front of s changes nothing. */
  lemma StripCons(c: char, s: string, drop: char -> bool)
    requires drop(c)
    ensures Strip([c] + s, drop) == Strip(s, drop)
  {
    assert ([c] + s)[1..] == s;
  }

  /** A dropped character after s changes nothing. */
  lemma StripSnoc(s: string, c: char, drop: char -> bool)
    requires drop(c)
    ensures Strip(s + [c], drop) == Strip(s, drop)
  {
    LStripSnoc(s, c, drop);
    var l := LStrip(s, drop);
    if l != [] {
      assert (l + [c])[..|l|] == l;
    }
  }

  lemma {:induction false} LStripSnoc(s: string, c: char, drop: char -> bool)
    requires drop(c)
    ensures LStrip(s + [c], drop) == if LStrip(s, drop) == [] then [] else LStrip(s, drop) + [c]
    decreases |s|
  {
    if s == [] {
      assert LStrip([c], drop) == LStrip([c][1..], drop);
    } else if drop(s[0]) {
      assert (s + [c])[1..] == s[1..] + [c];
      LStripSnoc(s[1..], c, drop);
    }
  }

  /** A character of a slice of s is a character of s. */
  lemma InSlice(s: string, a: nat, b: nat, c: char)
    requires a <= b <= |s| && c in s[a..b]
    ensures c in s
  {
    var k :| 0 <= k < b - a && s[a..b][k] == c;
    assert s[a + k] == c;
  }

  /** Stripping leaves nothing exactly when every character would be dropped. */
  lemma StripEmptyIff(s: string, drop: char -> bool)
    ensures Strip(s, drop) == [] <==> forall i :: 0 <= i < |s| ==> drop(s[i])
  {
    var l := LStrip(s, drop);
    if l != [] {
      assert s[|s| - |l|] == l[0];
    }
  }

  /** Python's str.lower() restricted to the ASCII letters A-Z. */
  function LowerChar(c: char): (r: char)
    ensures 'A' <= c <= 'Z' ==> r as int == c as int + 32
    ensures !('A' <= c <= 'Z') ==> r == c
  {
    if 'A' <= c <= 'Z' then (c as int + 32) as char else c
  }

  function Lower(s: string): (r: string)
    ensures |r| == |s|
    ensures forall i :: 0 <= i < |s| ==> r[i] == LowerChar(s[i])
  {
    seq(|s|, i requires 0 <= i < |s| => LowerChar(s[i]))
  }

  /**
   * A lowered character is never an upper-case letter, lowering twice is
   * lowering once, and a character changes exactly when it is one of A-Z,
   * which then becomes a letter a-z.
   */
  lemma LowerCharShape(c: char)
    ensures !('A' <= LowerChar(c) <= 'Z')
    ensures LowerChar(LowerChar(c)) == LowerChar(c)
    ensures LowerChar(c) != c <==> 'A' <= c <= 'Z'
    ensures 'A' <= c <= 'Z' ==> 'a' <= LowerChar(c) <= 'z'
  {
  }

  /**
   * A lowered string holds no upper-case letter, lowering is idempotent, and a
   * string is its own lowering exactly when it holds no upper-case letter.
   */
  lemma LowerShape(s: string)
    ensures forall i :: 0 <= i < |Lower(s)| ==> !('A' <= Lower(s)[i] <= 'Z')
    ensures Lower(Lower(s)) == Lower(s)
    ensures Lower(s) == s <==> forall i :: 0 <= i < |s| ==> !('A' <= s[i] <= 'Z')
  {
    forall i | 0 <= i < |s| {
      LowerCharShape(s[i]);
    }
    if Lower(s) == s {
      forall i | 0 <= i < |s| ensures !('A' <= s[i] <= 'Z') {
        assert Lower(s)[i] == s[i];
      }
    }
  }

  predicate IsPrefix(p: string, s: string) {
    |p| <= |s| && s[..|p|] == p
  }

  /** sub occurs in s starting at index i. */
  predicate OccursAt(s: string, sub: string, i: int) {
    0 <= i && i + |sub| <= |s| && s[i..i + |sub|] == sub
  }

  /** Python's `sub in s`. */
  predicate Contains(s: string, sub: string)
    decreases |s|
  {
    IsPrefix(sub, s) || (s != [] && Contains(s[1..], sub))
  }

  /** The recursive substring test agrees with "there is an index where sub occurs". */
  lemma {:induction false} ContainsIff(s: string, sub: string)
    ensures Contains(s, sub) <==> exists i :: OccursAt(s, sub, i)
    decreases |s|
  {
    if s != [] {
      ContainsIff(s[1..], sub);
      if Contains(s[1..], sub) {
        var i :| OccursAt(s[1..], sub, i);
        assert s[1..][i..i + |sub|] == s[i + 1..i + 1 + |sub|];
        assert OccursAt(s, sub, i + 1);
      }
      if i :| OccursAt(s, sub, i) && i > 0 {
        assert s[1..][i - 1..i - 1 + |sub|] == s[i..i + |sub|];
        assert OccursAt(s[1..], sub, i - 1);
      }
    }
    if IsPrefix(sub, s) {
      assert OccursAt(s, sub, 0);
    }
  }

  /** Python's s[:n] for n >= 0. */
  function Take(s: string, n: nat): (r: string)
    ensures |r| == if |s| <= n then |s| else n
    ensures r == s[..|r|]
  {
    if |s| <= n then s else s[..n]
  }

  /** Python's sep.join(parts). */
  function Join(sep: string, parts: seq<string>): string
    decreases |parts|
  {
    if |parts| == 0 then ""
    else if |parts| == 1 then parts[0]
    else parts[0] + sep + Join(sep, parts[1..])
  }

  /** Joining one more part adds the separator and the part at the end. */
  lemma {:induction false} JoinSnoc(sep: string, parts: seq<string>, last: string)
    ensures Join(sep, parts + [last]) == if parts == [] then last else Join(sep, parts) + sep + last
    decreases |parts|
  {
    if |parts| > 1 {
      JoinSnoc(sep, parts[1..], last);
      assert (parts + [last])[1..] == parts[1..] + [last];
    } else if |parts| == 1 {
      assert (parts + [last])[1..] == [last];
    }
  }

  /** Python's s.split(sep) for a one-character separator: no piece contains sep. */
  function Split(s: string, sep: char): (r: seq<string>)
    ensures |r| >= 1
    ensures forall k :: 0 <= k < |r| ==> sep !in r[k]
    decreases |s|
  {
    if s == [] then [""]
    else
      var rest := Split(s[1..], sep);
      if s[0] == sep then [""] + rest else [[s[0]] + rest[0]] + rest[1..]
  }

  /** Joining the pieces with the separator gives the string back. */
  lemma {:induction false} JoinSplit(s: string, sep: char)
    ensures Join([sep], Split(s, sep)) == s
    decreases |s|
  {
    if s != [] {
      JoinSplit(s[1..], sep);
      var rest := Split(s[1..], sep);
      if s[0] != sep && |rest| > 1 {
        assert Join([sep], [[s[0]] + rest[0]] + rest[1..])
            == [s[0]] + rest[0] + [sep] + Join([sep], rest[1..]);
      }
    }
  }

  /** There is one more piece than there are separators. */
  lemma {:induction false} SplitLength(s: string, sep: char)
    ensures |Split(s, sep)| == multiset(s)[sep] + 1
    decreases |s|
  {
    if s != [] {
      SplitLength(s[1..], sep);
      assert s == [s[0]] + s[1..];
      assert multiset(s) == multiset([s[0]]) + multiset(s[1..]);
    }
  }

  /** sub does not occur in s when no two adjacent characters of s are sub's first two. */
  lemma {:induction false} NotContainsByPair(s: string, sub: string)
    requires |sub| >= 2
    requires forall i | 0 <= i < |s| - 1 :: !(s[i] == sub[0] && s[i + 1] == sub[1])
    ensures !Contains(s, sub)
    decreases |s|
  {
    if s != [] {
      NotContainsByPair(s[1..], sub);
      if |s| >= 2 {
        assert !(s[0] == sub[0] && s[1] == sub[1]);
      }
    }
  }

  /** A string containing "://" splits on '/' into at least three pieces. */
  lemma SchemeSplit(url: string)
    requires Contains(url, "://")
    ensures |Split(url, '/')| >= 3
  {
    ContainsIff(url, "://");
    var i :| OccursAt(url, "://", i);
    var a, m, b := url[..i + 1], url[i + 1..i + 3], url[i + 3..];
    assert url[i..i + 3][1] == url[i + 1] && url[i..i + 3][2] == url[i + 2];
    assert m == "//";
    assert url == a + m + b;
    assert multiset(url)['/'] == multiset(a)['/'] + multiset(m)['/'] + multiset(b)['/'];
    SplitLength(url, '/');
  }

  function DigitChar(d: nat): (c: char)
    requires d < 10
    ensures '0' <= c <= '9' && c as int - '0' as int == d
  {
    (d + '0' as int) as char
  }

  predicate IsDigits(s: string) {
    s != [] && forall i :: 0 <= i < |s| ==> '0' <= s[i] <= '9'
  }

  /** The value of a string of decimal digits. */
  function DigitsValue(s: string): nat
    decreases |s|
  {
    if s == [] then 0
    else
      var d := s[|s| - 1] as int - '0' as int;
      DigitsValue(s[..|s| - 1]) * 10 + (if 0 <= d then d else 0)
  }

  /** str(n) for a natural number: decimal digits, most significant first. */
  function NatToString(n: nat): (r: string)
    ensures IsDigits(r)
    ensures r[0] == '0' <==> n == 0
    decreases n
  {
    if n < 10 then [DigitChar(n)] else NatToString(n / 10) + [DigitChar(n % 10)]
  }

  /** Reading the digits back gives the number: str(n) loses nothing. */
  lemma {:induction false} NatToStringRoundTrip(n: nat)
    ensures DigitsValue(NatToString(n)) == n
    decreases n
  {
    if n >= 10 {
      NatToStringRoundTrip(n / 10);
      var s := NatToString(n);
      assert s[..|s| - 1] == NatToString(n / 10);
    }
  }

  /**
   * s.split(sep)[-1]: the text after the last occurrence of sep, scanning for
   * occurrences from the left as str.split does, or all of s when sep does not occur.
   */
  function AfterLast(s: string, sep: string): string
    requires sep != []
    decreases |s|
  {
    if IsPrefix(sep, s) then AfterLast(s[|sep|..], sep)
    else if s != [] && Contains(s[1..], sep) then AfterLast(s[1..], sep)
    else s
  }

  /** The last piece is a suffix of s without sep; with no sep in s it is all of s. */
  lemma {:induction false} AfterLastSuffix(s: string, sep: string)
    requires sep != []
    ensures var r := AfterLast(s, sep);
      |r| <= |s| && r == s[|s| - |r|..] && !Contains(r, sep) && (!Contains(s, sep) ==> r == s)
    decreases |s|
  {
    if IsPrefix(sep, s) {
      AfterLastSuffix(s[|sep|..], sep);
    } else if s != [] && Contains(s[1..], sep) {
      AfterLastSuffix(s[1..], sep);
    }
  }

  /** When sep occurs in s, the last piece comes right after an occurrence of sep. */
  lemma {:induction false} AfterLastFollowsSep(s: string, sep: string)
    requires sep != [] && Contains(s, sep)
    ensures var r := AfterLast(s, sep);
      |r| + |sep| <= |s| && s[|s| - |r| - |sep|..|s| - |r|] == sep
    decreases |s|
  {
    var d := AfterLastStep(s, sep);
    var t := s[d..];
    if Contains(t, sep) {
      AfterLastFollowsSep(t, sep);
      ShiftSlice(s, d, t, AfterLast(t, sep), sep);
    } else {
      AfterLastSuffix(t, sep);
      SepThenRest(s, sep);
    }
  }

  /**
   * One step of AfterLast on a string holding sep: it continues on s[d..], and when
   * no sep is left there, s started with the sep it skipped.
   */
  lemma AfterLastStep(s: string, sep: string) returns (d: nat)
    requires sep != [] && Contains(s, sep)
    ensures 0 < d <= |s| && AfterLast(s, sep) == AfterLast(s[d..], sep)
    ensures !Contains(s[d..], sep) ==> IsPrefix(sep, s) && d == |sep|
  {
    d := if IsPrefix(sep, s) then |sep| else 1;
  }

  /** A string that starts with sep has sep right before its last |s| - |sep| characters. */
  lemma SepThenRest(s: string, sep: string)
    requires IsPrefix(sep, s)
    ensures var t := s[|sep|..]; s[|s| - |t| - |sep|..|s| - |t|] == sep
  {
  }

  /** What follows the last separator is the end of s, right after a separator, and holds none. */
  lemma AfterLastShape(s: string, sep: string)
    requires sep != [] && Contains(s, sep)
    ensures var r := AfterLast(s, sep);
      |r| + |sep| <= |s| && s[|s| - |r| - |sep|..] == sep + r && !Contains(r, sep)
  {
    var r := AfterLast(s, sep);
    AfterLastSuffix(s, sep);
    AfterLastFollowsSep(s, sep);
    assert s[|s| - |r| - |sep|..] == s[|s| - |r| - |sep|..|s| - |r|] + s[|s| - |r|..];
  }

  /** An occurrence of sep just before the suffix r of s[d..] is one in s too. */
  lemma ShiftSlice(s: string, d: nat, t: string, r: string, sep: string)
    requires d <= |s| && t == s[d..]
    requires |r| + |sep| <= |t| && t[|t| - |r| - |sep|..|t| - |r|] == sep
    ensures s[|s| - |r| - |sep|..|s| - |r|] == sep
  {
    assert t[|t| - |r| - |sep|..|t| - |r|] == s[|s| - |r| - |sep|..|s| - |r|];
  }
}
