/** The JavaScript string primitives the chat pipeline is built from:
    `toLowerCase`, `trim`, `includes`, `Array.prototype.some` over `includes`,
    and `Array.prototype.join`.  Strings are sequences of characters. */
module JsText {

  /** A character `String.prototype.trim` removes: the WhiteSpace and
      LineTerminator code points of ECMAScript. */
  predicate IsWhitespace(c: char) {
    c == '\t' || c == '\n' || c == '\U{000B}' || c == '\U{000C}' || c == '\r' || c == ' '
    || c == '\U{00A0}' || c == '\U{1680}' || ('\U{2000}' <= c <= '\U{200A}')
    || c == '\U{2028}' || c == '\U{2029}' || c == '\U{202F}' || c == '\U{205F}'
    || c == '\U{3000}' || c == '\U{FEFF}'
  }

  predicate IsUpper(c: char) { 'A' <= c <= 'Z' }

  /** Lower-cases one character; only the ASCII letters A-Z are mapped. */
  function LowerChar(c: char): (d: char)
    ensures !IsUpper(d)
    ensures !IsUpper(c) ==> d == c
  {
    if IsUpper(c) then (c as int + 32) as char else c
  }

  /** `s.toLowerCase()` */
  function Lower(s: string): (r: string)
    ensures |r| == |s|
    ensures forall i :: 0 <= i < |s| ==> r[i] == LowerChar(s[i])
  {
    if s == [] then [] else [LowerChar(s[0])] + Lower(s[1..])
  }

  lemma {:induction false} LowerIdempotent(s: string)
    ensures Lower(Lower(s)) == Lower(s)
  {
    assert forall i :: 0 <= i < |s| ==> Lower(Lower(s))[i] == Lower(s)[i];
  }

  /** A string without upper-case letters is its own lower-case form. */
  lemma {:induction false} LowerOfLowercase(s: string)
    requires forall c :: c in s ==> !IsUpper(c)
    ensures Lower(s) == s
  {
    assert forall i :: 0 <= i < |s| ==> s[i] in s;
  }

  /** Lower-casing works character by character, so it commutes with slicing. */
  lemma {:induction false} LowerSlice(s: string, i: int, j: int)
    requires 0 <= i <= j <= |s|
    ensures Lower(s[i..j]) == Lower(s)[i..j]
  {
    forall k | 0 <= k < j - i
      ensures Lower(s[i..j])[k] == Lower(s)[i..j][k]
    {
      assert s[i..j][k] == s[i + k];
    }
  }

  /** Lower-casing keeps blanks blank. */
  lemma {:induction false} LowerBlank(s: string)
    requires AllBlank(s)
    ensures AllBlank(Lower(s))
  {
  }

  predicate StartsWith(s: string, prefix: string) {
    |prefix| <= |s| && s[..|prefix|] == prefix
  }

  predicate EndsWith(s: string, suffix: string) {
    |suffix| <= |s| && s[|s| - |suffix|..] == suffix
  }

  /** `needle` occurs in `s` starting at index `i`. */
  ghost predicate OccursAt(s: string, needle: string, i: int) {
    0 <= i && i + |needle| <= |s| && s[i..i + |needle|] == needle
  }

  /** `s.includes(needle)`: a scan that tries every start position. */
  function Includes(s: string, needle: string): bool
    decreases |s|
  {
    StartsWith(s, needle) || (s != [] && Includes(s[1..], needle))
  }

  /** `includes` holds exactly when there is a position where the needle occurs. */
  lemma {:induction false} IncludesIff(s: string, needle: string)
    ensures Includes(s, needle) <==> exists i :: OccursAt(s, needle, i)
    decreases |s|
  {
    if StartsWith(s, needle) {
      assert OccursAt(s, needle, 0);
    } else if s != [] {
      IncludesIff(s[1..], needle);
      if Includes(s[1..], needle) {
        var i :| OccursAt(s[1..], needle, i);
        assert s[1..][i..i + |needle|] == s[i + 1..i + 1 + |needle|];
        assert OccursAt(s, needle, i + 1);
      }
      forall i | OccursAt(s, needle, i) && i != 0
        ensures OccursAt(s[1..], needle, i - 1)
      {
        assert s[1..][i - 1..i - 1 + |needle|] == s[i..i + |needle|];
      }
    }
  }

  /** A witness position is enough for `includes`. */
  lemma {:induction false} IncludesAt(s: string, needle: string, i: int)
    requires OccursAt(s, needle, i)
    ensures Includes(s, needle)
  {
    IncludesIff(s, needle);
  }

  /** A character of the needle that the text lacks rules the needle out. */
  lemma {:induction false} NotIncludedByChar(s: string, needle: string, c: char)
    requires c in needle && c !in s
    ensures !Includes(s, needle)
  {
    IncludesIff(s, needle);
    var k :| 0 <= k < |needle| && needle[k] == c;
    forall i | 0 <= i && i + |needle| <= |s|
      ensures !OccursAt(s, needle, i)
    {
      assert s[i..i + |needle|][k] == s[i + k] != c;
    }
  }

  /** Occurrence is transitive: a needle inside `mid`, inside `s`, is inside `s`. */
  lemma {:induction false} OccursTrans(s: string, mid: string, needle: string, i: int, j: int)
    requires OccursAt(s, mid, i) && OccursAt(mid, needle, j)
    ensures OccursAt(s, needle, i + j)
  {
    forall k | 0 <= k < |needle|
      ensures s[i + j + k] == needle[k]
    {
      assert mid[j + k] == needle[k];
      assert s[i + (j + k)] == mid[j + k];
    }
  }

  /** What a slice includes, the whole string includes. */
  lemma {:induction false} IncludesOfSlice(s: string, a: int, b: int, needle: string)
    requires 0 <= a <= b <= |s| && Includes(s[a..b], needle)
    ensures Includes(s, needle)
  {
    IncludesIff(s[a..b], needle);
    var j :| OccursAt(s[a..b], needle, j);
    assert OccursAt(s, s[a..b], a);
    OccursTrans(s, s[a..b], needle, a, j);
    IncludesAt(s, needle, a + j);
  }

  /** What a string includes, every string it occurs in includes. */
  lemma {:induction false} IncludesWithin(s: string, big: string, at: int, needle: string)
    requires OccursAt(big, s, at) && Includes(s, needle)
    ensures Includes(big, needle)
  {
    IncludesIff(s, needle);
    var j :| OccursAt(s, needle, j);
    OccursTrans(big, s, needle, at, j);
    IncludesAt(big, needle, at + j);
  }

  /** `needles.some(n => s.includes(n))` */
  function IncludesAny(s: string, needles: seq<string>): bool
  {
    needles != [] && (Includes(s, needles[0]) || IncludesAny(s, needles[1..]))
  }

  /** `some` over `includes` is an existential: the order of the needles is irrelevant. */
  lemma {:induction false} IncludesAnyIff(s: string, needles: seq<string>)
    ensures IncludesAny(s, needles) <==> exists n :: n in needles && Includes(s, n)
  {
    if needles != [] {
      IncludesAnyIff(s, needles[1..]);
      if Includes(s, needles[0]) {
        assert needles[0] in needles;
      } else if IncludesAny(s, needles[1..]) {
        var n :| n in needles[1..] && Includes(s, n);
        assert n in needles;
      } else {
        forall n | n in needles
          ensures !Includes(s, n)
        {
          if n != needles[0] {
            assert n in needles[1..];
          }
        }
      }
    }
  }

  /** One occurrence of one needle is enough for `some`. */
  lemma {:induction false} IncludesAnyAt(s: string, needles: seq<string>, n: string, i: int)
    requires n in needles && OccursAt(s, n, i)
    ensures IncludesAny(s, needles)
  {
    IncludesAt(s, n, i);
    IncludesAnyIff(s, needles);
  }

  /** `some` fails when each needle has a character the text lacks. */
  lemma {:induction false} NoneIncludedByChars(s: string, needles: seq<string>, missing: seq<char>)
    requires |missing| == |needles|
    requires forall i :: 0 <= i < |needles| ==> missing[i] in needles[i] && missing[i] !in s
    ensures !IncludesAny(s, needles)
  {
    IncludesAnyIff(s, needles);
    forall n | n in needles
      ensures !Includes(s, n)
    {
      var i :| 0 <= i < |needles| && needles[i] == n;
      NotIncludedByChar(s, n, missing[i]);
    }
  }

  /** `some` is monotone in the text: what a string matches, every string it
      occurs in matches. */
  lemma {:induction false} IncludesAnyWithin(s: string, big: string, at: int, needles: seq<string>)
    requires OccursAt(big, s, at) && IncludesAny(s, needles)
    ensures IncludesAny(big, needles)
  {
    IncludesAnyIff(s, needles);
    IncludesAnyIff(big, needles);
    var n :| n in needles && Includes(s, n);
    IncludesWithin(s, big, at, n);
  }

  /** Some needle of `fewer` occurs in `n`. */
  ghost predicate ContainsOneOf(n: string, fewer: seq<string>) {
    exists m, k :: m in fewer && OccursAt(n, m, k)
  }

  /** Dropping needles that contain another needle kept in the list does not
      change what `some` matches. */
  lemma {:induction false} IncludesAnyRedundant(s: string, needles: seq<string>, fewer: seq<string>)
    requires forall n :: n in fewer ==> n in needles
    requires forall n :: n in needles ==> ContainsOneOf(n, fewer)
    ensures IncludesAny(s, needles) == IncludesAny(s, fewer)
  {
    IncludesAnyIff(s, needles);
    IncludesAnyIff(s, fewer);
    if IncludesAny(s, needles) {
      var n :| n in needles && Includes(s, n);
      var m, k :| m in fewer && OccursAt(n, m, k);
      IncludesIff(s, n);
      var i :| OccursAt(s, n, i);
      IncludesAt(n, m, k);
      IncludesWithin(n, s, i, m);
    }
  }

  /** The empty string matches no list of non-empty needles. */
  lemma {:induction false} EmptyIncludesNone(needles: seq<string>)
    requires forall n :: n in needles ==> n != []
    ensures !IncludesAny([], needles)
  {
    IncludesAnyIff([], needles);
  }

  /** Text made only of whitespace contains no needle that starts with a non-blank. */
  lemma {:induction false} BlankIncludesNothing(s: string, needle: string)
    requires AllBlank(s)
    requires needle != [] && !IsWhitespace(needle[0])
    ensures !Includes(s, needle)
  {
    IncludesIff(s, needle);
    forall i | 0 <= i && i + |needle| <= |s|
      ensures !OccursAt(s, needle, i)
    {
      assert s[i..i + |needle|][0] == s[i];
    }
  }

  /** Whitespace-only text matches no needle that starts with a non-blank. */
  lemma {:induction false} BlankIncludesNone(s: string, needles: seq<string>)
    requires AllBlank(s)
    requires forall n :: n in needles ==> n != [] && !IsWhitespace(n[0])
    ensures !IncludesAny(s, needles)
  {
    IncludesAnyIff(s, needles);
    forall n | n in needles
      ensures !Includes(s, n)
    {
      BlankIncludesNothing(s, n);
    }
  }

  /** Every character of `t` is whitespace. */
  ghost predicate AllBlank(t: string) {
    forall i :: 0 <= i < |t| ==> IsWhitespace(t[i])
  }

  /** `needle` neither starts nor ends with whitespace. */
  predicate SolidEnds(needle: string) {
    needle != [] && !IsWhitespace(needle[0]) && !IsWhitespace(needle[|needle| - 1])
  }

  /** `s.trimStart()`: what is cut from the front is blank, and what is kept
      does not start with a blank. */
  function TrimStart(s: string): (r: string)
    ensures |r| <= |s| && r == s[|s| - |r|..]
    ensures AllBlank(s[..|s| - |r|])
    ensures r != [] ==> !IsWhitespace(r[0])
  {
    if s != [] && IsWhitespace(s[0]) then
      var r := TrimStart(s[1..]);
      assert s[..|s| - |r|] == [s[0]] + s[1..][..|s| - 1 - |r|];
      r
    else s
  }

  /** `s.trimEnd()`: what is cut from the back is blank, and what is kept
      does not end with a blank. */
  function TrimEnd(s: string): (r: string)
    ensures |r| <= |s| && r == s[..|r|]
    ensures AllBlank(s[|r|..])
    ensures r != [] ==> !IsWhitespace(r[|r| - 1])
  {
    if s != [] && IsWhitespace(s[|s| - 1]) then
      var r := TrimEnd(s[..|s| - 1]);
      assert s[|r|..] == s[..|s| - 1][|r|..] + [s[|s| - 1]];
      r
    else s
  }

  /** `s.trim()` */
  function Trim(s: string): (r: string)
  {
    TrimEnd(TrimStart(s))
  }

  /** What `trim` keeps is a slice of its input, starting where `trimStart`
      cut it, that neither starts nor ends with whitespace (the cuts
      themselves are blank by the contracts of `TrimStart` and `TrimEnd`). */
  lemma {:induction false} TrimSpec(s: string)
    ensures var a, r := |s| - |TrimStart(s)|, Trim(s); a + |r| <= |s| && r == s[a..a + |r|]
    ensures Trim(s) != [] ==> !IsWhitespace(Trim(s)[0]) && !IsWhitespace(Trim(s)[|Trim(s)| - 1])
  {
    var t := TrimStart(s);
    var r := TrimEnd(t);
    var a := |s| - |t|;
    assert t == s[a..];
    assert r == t[..|r|];
  }

  /** Trimming a blank string leaves nothing. */
  lemma {:induction false} TrimBlank(s: string)
    requires AllBlank(s)
    ensures TrimStart(s) == [] && Trim(s) == []
  {
    if s != [] {
      assert IsWhitespace(s[0]);
      assert forall k :: 0 <= k < |s| - 1 ==> s[1..][k] == s[k + 1];
      TrimBlank(s[1..]);
    }
  }

  /** A non-blank character at `i` is not cut by `trimStart`. */
  lemma {:induction false} TrimStartBound(s: string, i: int)
    requires 0 <= i < |s| && !IsWhitespace(s[i])
    ensures |s| - |TrimStart(s)| <= i
  {
    if IsWhitespace(s[0]) {
      assert s[1..][i - 1] == s[i];
      TrimStartBound(s[1..], i - 1);
    }
  }

  /** A non-blank character at `i` is not cut by `trimEnd`. */
  lemma {:induction false} TrimEndBound(s: string, i: int)
    requires 0 <= i < |s| && !IsWhitespace(s[i])
    ensures i < |TrimEnd(s)|
  {
    if IsWhitespace(s[|s| - 1]) {
      assert s[..|s| - 1][i] == s[i];
      TrimEndBound(s[..|s| - 1], i);
    }
  }

  /** `trimStart` drops a leading blank and stops at a non-blank. */
  lemma {:induction false} TrimStartSteps(c: char, s: string)
    requires IsWhitespace(c) && s != [] && !IsWhitespace(s[0])
    ensures TrimStart([c] + s) == s
  {
    assert ([c] + s)[1..] == s;
  }

  /** Blank text appended at the end is all cut by `trimEnd`. */
  lemma {:induction false} TrimEndBlankSuffix(s: string, w: string)
    requires AllBlank(w)
    ensures TrimEnd(s + w) == TrimEnd(s)
    decreases |w|
  {
    if w != [] {
      var v := w[..|w| - 1];
      assert (s + w)[|s + w| - 1] == w[|w| - 1];
      assert (s + w)[..|s + w| - 1] == s + v;
      assert AllBlank(v);
      TrimEndBlankSuffix(s, v);
    } else {
      assert s + w == s;
    }
  }

  /** `trimEnd` never cuts into a prefix that ends with a non-blank. */
  lemma {:induction false} TrimEndKeepsHead(h: string, t: string)
    requires h != [] && !IsWhitespace(h[|h| - 1])
    ensures StartsWith(TrimEnd(h + t), h)
  {
    var s := h + t;
    assert s[|h| - 1] == h[|h| - 1];
    TrimEndBound(s, |h| - 1);
    var r := TrimEnd(s);
    assert r[..|h|] == s[..|h|] == h;
  }

  /** A string that starts with `p + n` has `n` at index `|p|`. */
  lemma {:induction false} OccursAfterPrefix(s: string, p: string, n: string)
    requires StartsWith(s, p + n)
    ensures OccursAt(s, n, |p|)
  {
    assert s[|p|..|p| + |n|] == (p + n)[|p|..];
  }

  /** A string that starts with `p + q` starts with `p`. */
  lemma {:induction false} StartsWithLeft(s: string, p: string, q: string)
    requires StartsWith(s, p + q)
    ensures StartsWith(s, p)
  {
    assert s[..|p|] == (p + q)[..|p|];
  }

  /** A string that starts with `p + q`, where `q` starts with `n`, has `n` at
      index `|p|`. */
  lemma {:induction false} OccursInPiece(s: string, p: string, q: string, n: string)
    requires StartsWith(s, p + q) && StartsWith(q, n)
    ensures OccursAt(s, n, |p|)
  {
    assert s[|p|..|p| + |n|] == (p + q)[|p|..|p| + |n|] == q[..|n|];
  }

  /** Trimming does not change whether a needle with solid ends is included. */
  lemma {:induction false} TrimIncludesIff(s: string, needle: string)
    requires SolidEnds(needle)
    ensures Includes(Trim(s), needle) == Includes(s, needle)
  {
    if Includes(s, needle) {
      TrimKeepsIncludes(s, needle);
    }
    if Includes(Trim(s), needle) {
      TrimmedIncludes(s, needle);
    }
  }

  lemma {:induction false} TrimKeepsIncludes(s: string, needle: string)
    requires SolidEnds(needle) && Includes(s, needle)
    ensures Includes(Trim(s), needle)
  {
    IncludesIff(s, needle);
    var i :| OccursAt(s, needle, i);
    var j := TrimStartKeeps(s, needle, i);
    var k := TrimEndKeeps(TrimStart(s), needle, j);
    IncludesAt(Trim(s), needle, k);
  }

  lemma {:induction false} TrimmedIncludes(s: string, needle: string)
    requires Includes(Trim(s), needle)
    ensures Includes(s, needle)
  {
    var t := TrimStart(s);
    assert t[0..|Trim(s)|] == Trim(s);
    IncludesOfSlice(t, 0, |Trim(s)|, needle);
    assert s[|s| - |t|..|s|] == t;
    IncludesOfSlice(s, |s| - |t|, |s|, needle);
  }

  /** An occurrence that starts with a non-blank survives `trimStart`, shifted left. */
  lemma {:induction false} TrimStartKeeps(s: string, needle: string, i: int) returns (j: int)
    requires OccursAt(s, needle, i)
    requires needle != [] && !IsWhitespace(needle[0])
    ensures OccursAt(TrimStart(s), needle, j)
  {
    var t := TrimStart(s);
    var a := |s| - |t|;
    assert s[i..i + |needle|][0] == s[i];
    TrimStartBound(s, i);
    j := i - a;
    assert t[j..j + |needle|] == s[i..i + |needle|];
  }

  /** An occurrence that ends with a non-blank survives `trimEnd`, in place. */
  lemma {:induction false} TrimEndKeeps(s: string, needle: string, i: int) returns (k: int)
    requires OccursAt(s, needle, i)
    requires needle != [] && !IsWhitespace(needle[|needle| - 1])
    ensures OccursAt(TrimEnd(s), needle, k)
  {
    var t := TrimEnd(s);
    var last := i + |needle| - 1;
    assert s[i..i + |needle|][|needle| - 1] == s[last];
    TrimEndBound(s, last);
    k := i;
    assert t[k..k + |needle|] == s[i..i + |needle|];
  }

  /** `items.join(sep)` */
  function Join(items: seq<string>, sep: string): string
  {
    if |items| == 0 then ""
    else if |items| == 1 then items[0]
    else items[0] + sep + Join(items[1..], sep)
  }

  /** Each item with `prefix` in front of it. */
  function PrefixEach(prefix: string, items: seq<string>): (r: seq<string>)
    ensures |r| == |items|
    ensures forall i :: 0 <= i < |items| ==> r[i] == prefix + items[i]
  {
    if items == [] then [] else [prefix + items[0]] + PrefixEach(prefix, items[1..])
  }

  /** Writing `p` once in front and joining with `sep + p` is the same as
      prefixing every item with `p` and joining with `sep`, for a non-empty list. */
  lemma {:induction false} JoinPrefixed(p: string, sep: string, items: seq<string>)
    requires items != []
    ensures p + Join(items, sep + p) == Join(PrefixEach(p, items), sep)
  {
    if |items| > 1 {
      JoinPrefixed(p, sep, items[1..]);
      var rest := PrefixEach(p, items);
      assert rest[1..] == PrefixEach(p, items[1..]);
    }
  }

  /** Joining an empty list with a prefix written in front leaves the prefix alone. */
  lemma {:induction false} JoinPrefixedEmpty(p: string, sep: string)
    ensures p + Join([], sep + p) == p
  {
  }
}
