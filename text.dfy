/**
 * String helpers with the meaning the JavaScript built-ins have on the strings
 * this model admits: case mapping is restricted to ASCII letters, substring
 * search is `String.prototype.includes`, trimming strips the characters
 * ECMAScript calls WhiteSpace and LineTerminator.
 */
module Text {

  /** `toUpperCase` on one character, ASCII letters only. */
  function UpperChar(c: char): char
  {
    if 'a' <= c <= 'z' then (c as int - 32) as char else c
  }

  /** `toLowerCase` on one character, ASCII letters only. */
  function LowerChar(c: char): char
  {
    if 'A' <= c <= 'Z' then (c as int + 32) as char else c
  }

  function Upper(s: string): string
  {
    seq(|s|, i requires 0 <= i < |s| => UpperChar(s[i]))
  }

  function Lower(s: string): string
  {
    seq(|s|, i requires 0 <= i < |s| => LowerChar(s[i]))
  }

  predicate IsLowerLetter(c: char)
  {
    'a' <= c <= 'z'
  }

  predicate IsLetter(c: char)
  {
    'a' <= c <= 'z' || 'A' <= c <= 'Z'
  }

  lemma UpperIdempotent(s: string)
    ensures Upper(Upper(s)) == Upper(s)
  {
  }

  lemma UpperAppend(a: string, b: string)
    ensures Upper(a + b) == Upper(a) + Upper(b)
  {
  }

  /** Characters that are not letters survive `Upper` in place, and no other character becomes one. */
  lemma UpperKeeps(s: string, c: char)
    requires !IsLetter(c)
    ensures c in Upper(s) <==> c in s
    ensures forall i :: 0 <= i < |s| ==> (Upper(s)[i] == c <==> s[i] == c)
  {
    if c in s {
      var i :| 0 <= i < |s| && s[i] == c;
      assert Upper(s)[i] == c;
    }
    if c in Upper(s) {
      var i :| 0 <= i < |s| && Upper(s)[i] == c;
      assert s[i] == c;
    }
  }

  /** Lower-casing forgets an earlier upper-casing: case-insensitive tests see no difference. */
  lemma LowerUpper(s: string)
    ensures Lower(Upper(s)) == Lower(s)
    ensures Upper(s) == "" <==> s == ""
  {
  }

  /** A string without lower-case letters is its own upper case. */
  lemma UpperFixed(s: string)
    requires forall i :: 0 <= i < |s| ==> !IsLowerLetter(s[i])
    ensures Upper(s) == s
  {
  }

  /** `p` is a prefix of `s`. */
  predicate IsPrefix(p: string, s: string)
  {
    |p| <= |s| && s[..|p|] == p
  }

  /** `s.includes(sub)`. */
  predicate Contains(s: string, sub: string)
  {
    exists i :: 0 <= i <= |s| && IsPrefix(sub, s[i..])
  }

  /** Every string contains the strings its own substrings contain. */
  lemma ContainsPrefixOfNeedle(s: string, sub: string, n: nat)
    requires Contains(s, sub) && n <= |sub|
    ensures Contains(s, sub[..n])
  {
    var i :| 0 <= i <= |s| && IsPrefix(sub, s[i..]);
    assert IsPrefix(sub[..n], s[i..]);
  }

  /** Every character of a contained string occurs in the container. */
  lemma ContainsChars(s: string, sub: string)
    requires Contains(s, sub)
    ensures forall k :: 0 <= k < |sub| ==> sub[k] in s
  {
    var i :| 0 <= i <= |s| && IsPrefix(sub, s[i..]);
    forall k | 0 <= k < |sub| ensures sub[k] in s {
      assert sub[k] == s[i + k];
    }
  }

  lemma ContainsEmpty(s: string)
    ensures Contains(s, "")
  {
    assert IsPrefix("", s[0..]);
  }

  /** `parts.join(sep)`. */
  function Join(parts: seq<string>, sep: string): string
  {
    if |parts| == 0 then ""
    else if |parts| == 1 then parts[0]
    else parts[0] + sep + Join(parts[1..], sep)
  }

  /** Joining two non-empty lists is joining each and putting one separator between. */
  lemma {:induction false} JoinConcat(a: seq<string>, b: seq<string>, sep: string)
    requires a != [] && b != []
    ensures Join(a + b, sep) == Join(a, sep) + sep + Join(b, sep)
    decreases |a|
  {
    if |a| == 1 {
      assert (a + b)[1..] == b;
    } else {
      JoinConcat(a[1..], b, sep);
      assert (a + b)[1..] == a[1..] + b;
    }
  }

  /** A string contains whatever stands inside it. */
  lemma ContainsInfix(a: string, m: string, b: string)
    ensures Contains(a + m + b, m)
  {
    var s := a + m + b;
    assert s[|a|..][..|m|] == m;
  }

  /** Each part of a join stands inside it, between whatever comes before and after. */
  lemma {:induction false} JoinSplit(parts: seq<string>, sep: string, k: nat)
    requires k < |parts|
    ensures exists a, b :: Join(parts, sep) == a + parts[k] + b
    decreases |parts|
  {
    if |parts| == 1 {
      assert Join(parts, sep) == "" + parts[0] + "";
    } else if k == 0 {
      assert Join(parts, sep) == "" + parts[0] + (sep + Join(parts[1..], sep));
    } else {
      JoinSplit(parts[1..], sep, k - 1);
      var a, b :| Join(parts[1..], sep) == a + parts[1..][k - 1] + b;
      assert Join(parts, sep) == (parts[0] + sep + a) + parts[k] + b;
    }
  }

  /** A join contains each of its parts. */
  lemma JoinContains(parts: seq<string>, sep: string, k: nat)
    requires k < |parts|
    ensures Contains(Join(parts, sep), parts[k])
  {
    JoinSplit(parts, sep, k);
    var a, b :| Join(parts, sep) == a + parts[k] + b;
    ContainsInfix(a, parts[k], b);
  }

  /** Number of occurrences of `c` in `s`. */
  function Count(s: string, c: char): nat
  {
    if s == [] then 0 else (if s[0] == c then 1 else 0) + Count(s[1..], c)
  }

  /** `s` with every `c` deleted. */
  function Remove(s: string, c: char): string
  {
    if s == [] then "" else (if s[0] == c then "" else [s[0]]) + Remove(s[1..], c)
  }

  lemma CountAppend(a: string, b: string, c: char)
    ensures Count(a + b, c) == Count(a, c) + Count(b, c)
  {
    if a == [] {
      assert a + b == b;
    } else {
      assert (a + b)[1..] == a[1..] + b;
      CountAppend(a[1..], b, c);
    }
  }

  lemma RemoveAppend(a: string, b: string, c: char)
    ensures Remove(a + b, c) == Remove(a, c) + Remove(b, c)
  {
    if a == [] {
      assert a + b == b;
    } else {
      assert (a + b)[1..] == a[1..] + b;
      RemoveAppend(a[1..], b, c);
    }
  }

  lemma CountAbsent(s: string, c: char)
    requires c !in s
    ensures Count(s, c) == 0 && Remove(s, c) == s
  {
    if s != [] {
      CountAbsent(s[1..], c);
    }
  }

  lemma CountPositive(s: string, c: char)
    ensures c in s <==> Count(s, c) > 0
  {
    if s != [] {
      CountPositive(s[1..], c);
    }
  }

  /** WhiteSpace and LineTerminator of ECMAScript, the characters `trim` strips. */
  predicate IsWhitespace(c: char)
  {
    c == '\t' || c == '\n' || c == '\U{B}' || c == '\U{C}' || c == '\r' || c == ' '
    || c == '\U{A0}' || c == '\U{1680}' || ('\U{2000}' <= c <= '\U{200A}')
    || c == '\U{2028}' || c == '\U{2029}' || c == '\U{202F}' || c == '\U{205F}'
    || c == '\U{3000}' || c == '\U{FEFF}'
  }

  function TrimStart(s: string): string
  {
    if s != [] && IsWhitespace(s[0]) then TrimStart(s[1..]) else s
  }

  function TrimEnd(s: string): string
  {
    if s != [] && IsWhitespace(s[|s| - 1]) then TrimEnd(s[..|s| - 1]) else s
  }

  /** `s.trim()`. */
  function Trim(s: string): string
  {
    TrimEnd(TrimStart(s))
  }

  /** `s` is all whitespace (or empty). */
  predicate Blank(s: string)
  {
    forall i :: 0 <= i < |s| ==> IsWhitespace(s[i])
  }

  /** `trim` removes exactly a whitespace prefix and a whitespace suffix. */
  lemma {:induction false} TrimStartSplit(s: string)
    ensures exists i :: 0 <= i <= |s| && Blank(s[..i]) && TrimStart(s) == s[i..]
  {
    if s != [] && IsWhitespace(s[0]) {
      TrimStartSplit(s[1..]);
      var i :| 0 <= i <= |s[1..]| && Blank(s[1..][..i]) && TrimStart(s[1..]) == s[1..][i..];
      var pre := s[..i + 1];
      assert Blank(pre) by {
        forall k | 0 <= k < |pre| ensures IsWhitespace(pre[k]) {
          if k > 0 { assert pre[k] == s[1..][..i][k - 1]; }
        }
      }
      assert TrimStart(s) == s[i + 1..];
    } else {
      assert Blank(s[..0]) && TrimStart(s) == s[0..];
    }
  }

  lemma {:induction false} TrimEndSplit(s: string)
    ensures exists j :: 0 <= j <= |s| && Blank(s[j..]) && TrimEnd(s) == s[..j]
  {
    if s != [] && IsWhitespace(s[|s| - 1]) {
      var t := s[..|s| - 1];
      TrimEndSplit(t);
      var j :| 0 <= j <= |t| && Blank(t[j..]) && TrimEnd(t) == t[..j];
      assert s[j..] == t[j..] + [s[|s| - 1]];
      BlankAppend(t[j..], [s[|s| - 1]]);
      assert t[..j] == s[..j];
    } else {
      assert Blank(s[|s|..]) && TrimEnd(s) == s[..|s|];
    }
  }

  lemma BlankAppend(a: string, b: string)
    requires Blank(a) && Blank(b)
    ensures Blank(a + b)
  {
  }

  /** What `trim` keeps starts and ends with a character that is not whitespace. */
  lemma {:induction false} TrimEdges(s: string)
    ensures Trim(s) != "" ==> !IsWhitespace(Trim(s)[0]) && !IsWhitespace(Trim(s)[|Trim(s)| - 1])
  {
    TrimStartHead(s);
    TrimEndSplit(TrimStart(s));
    TrimEndLast(TrimStart(s));
  }

  lemma {:induction false} TrimStartHead(s: string)
    ensures TrimStart(s) != [] ==> !IsWhitespace(TrimStart(s)[0])
  {
    if s != [] && IsWhitespace(s[0]) {
      TrimStartHead(s[1..]);
    }
  }

  lemma {:induction false} TrimEndLast(s: string)
    ensures TrimEnd(s) != [] ==> !IsWhitespace(TrimEnd(s)[|TrimEnd(s)| - 1])
  {
    if s != [] && IsWhitespace(s[|s| - 1]) {
      TrimEndLast(s[..|s| - 1]);
    }
  }

  lemma {:induction false} TrimStartBlank(s: string)
    requires Blank(s)
    ensures TrimStart(s) == ""
  {
    if s != [] {
      TrimStartBlank(s[1..]);
    }
  }

  /** `s.trim()` is empty exactly when `s` is blank. */
  lemma {:induction false} TrimEmptyIffBlank(s: string)
    ensures Trim(s) == "" <==> Blank(s)
  {
    if Blank(s) {
      TrimStartBlank(s);
    }
    if Trim(s) == "" {
      TrimStartSplit(s);
      var i :| 0 <= i <= |s| && Blank(s[..i]) && TrimStart(s) == s[i..];
      TrimEndSplit(s[i..]);
      var j :| 0 <= j <= |s[i..]| && Blank(s[i..][j..]) && TrimEnd(s[i..]) == s[i..][..j];
      assert j == 0;
      forall k | 0 <= k < |s| ensures IsWhitespace(s[k]) {
        if k < i { assert s[k] == s[..i][k]; } else { assert s[k] == s[i..][j..][k - i]; }
      }
    }
  }

  lemma {:induction false} UpperCount(s: string, c: char)
    requires !IsLetter(c)
    ensures Count(Upper(s), c) == Count(s, c)
    ensures Remove(Upper(s), c) == Upper(Remove(s, c))
  {
    if s != [] {
      assert Upper(s)[1..] == Upper(s[1..]);
      UpperCount(s[1..], c);
      assert Upper(s) == [UpperChar(s[0])] + Upper(s[1..]);
      UpperAppend(if s[0] == c then "" else [s[0]], Remove(s[1..], c));
    }
  }
}
