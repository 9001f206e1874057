/**
 * The Python `str` operations the core relies on, with Python's meaning:
 * `strip`, `split()`, `split(sep)`, `find`, `in`, `replace(p, "")`,
 * `startswith`, `endswith`, `" ".join` and (ASCII) `lower`.
 */
module Text {
  import opened Wrappers

  /** Python's `str.isspace()` on one character: the Unicode whitespace set `strip()` and `split()` use. */
  predicate IsSpace(c: char) {
    ('\U{9}' <= c <= '\U{D}') || ('\U{1C}' <= c <= '\U{20}') || c == '\U{85}' || c == '\U{A0}'
    || c == '\U{1680}' || ('\U{2000}' <= c <= '\U{200A}') || c == '\U{2028}' || c == '\U{2029}'
    || c == '\U{202F}' || c == '\U{205F}' || c == '\U{3000}'
  }

  predicate NoSpace(s: string) {
    forall i :: 0 <= i < |s| ==> !IsSpace(s[i])
  }

  // ---------------------------------------------------------------- stripping

  /** Drops the longest prefix of characters satisfying `drop`: what is left is the end of `s`. */
  function LStripBy(s: string, drop: char -> bool): (r: string)
    ensures |r| <= |s|
    ensures forall i :: 0 <= i < |r| ==> r[i] == s[|s| - |r| + i]
    ensures r != [] ==> !drop(r[0])
  {
    if s == [] || !drop(s[0]) then s
    else
      var r := LStripBy(s[1..], drop);
      EndOfTail(s, r);
      r
  }

  /** An end of `s[1..]` is an end of `s`. */
  lemma EndOfTail(s: string, r: string)
    requires s != [] && |r| <= |s| - 1
    requires forall i :: 0 <= i < |r| ==> r[i] == s[1..][|s| - 1 - |r| + i]
    ensures forall i :: 0 <= i < |r| ==> r[i] == s[|s| - |r| + i]
  {
  }

  /** Drops the longest suffix of characters satisfying `drop`: what is left is the start of `s`. */
  function RStripBy(s: string, drop: char -> bool): (r: string)
    ensures |r| <= |s|
    ensures forall i :: 0 <= i < |r| ==> r[i] == s[i]
    ensures r != [] ==> !drop(r[|r| - 1])
  {
    if s == [] || !drop(s[|s| - 1]) then s else RStripBy(s[..|s| - 1], drop)
  }

  function StripBy(s: string, drop: char -> bool): (r: string)
    ensures |r| <= |s|
    ensures r != [] ==> !drop(r[0]) && !drop(r[|r| - 1])
  {
    RStripBy(LStripBy(s, drop), drop)
  }

  /** Python's `s.strip()`. */
  function Strip(s: string): (r: string)
    ensures |r| <= |s|
    ensures r != [] ==> !IsSpace(r[0]) && !IsSpace(r[|r| - 1])
  {
    StripBy(s, IsSpace)
  }

  function IsChar(c: char): char -> bool {
    x => x == c
  }

  /** Python's `s.strip(c)` for a one-character argument. */
  function StripChar(s: string, c: char): (r: string)
    ensures |r| <= |s|
    ensures r != [] ==> r[0] != c && r[|r| - 1] != c
  {
    StripBy(s, IsChar(c))
  }

  /** Python's `s.rstrip(c)` for a one-character argument. */
  function RStripChar(s: string, c: char): (r: string)
    ensures |r| <= |s| && r == s[..|r|]
    ensures r != [] ==> r[|r| - 1] != c
  {
    RStripBy(s, IsChar(c))
  }

  /** A string that neither starts nor ends with a character satisfying `drop` is its own strip. */
  lemma StripByFixed(s: string, drop: char -> bool)
    requires s != [] ==> !drop(s[0]) && !drop(s[|s| - 1])
    ensures StripBy(s, drop) == s
  {
  }

  /** `s.strip(c)` leaves alone text that neither starts nor ends with `c`. */
  lemma StripCharFixed(s: string, c: char)
    requires s != [] ==> s[0] != c && s[|s| - 1] != c
    ensures StripChar(s, c) == s
  {
    assert s != [] ==> !IsChar(c)(s[0]) && !IsChar(c)(s[|s| - 1]);
    StripByFixed(s, IsChar(c));
  }

  /** `s.strip(c)` removes exactly one trailing `c` from text that has just that one. */
  lemma StripCharOneTrailing(s: string, c: char)
    requires s != [] && s[0] != c && s[|s| - 1] != c
    ensures StripChar(s + [c], c) == s
  {
    var t := s + [c];
    var drop := IsChar(c);
    assert !drop(t[0]);
    assert LStripBy(t, drop) == t;
    assert drop(t[|t| - 1]);
    assert t[..|t| - 1] == s;
    assert !drop(s[|s| - 1]);
    assert RStripBy(s, drop) == s;
  }

  /** Text that starts and ends outside whitespace is left alone by `strip()`, whatever lies between. */
  lemma StripJoined(a: string, sep: string, b: string)
    requires a != [] && !IsSpace(a[0]) && b != [] && !IsSpace(b[|b| - 1])
    ensures Strip(a + sep + b) == a + sep + b
  {
    var t := a + sep + b;
    assert t[0] == a[0];
    assert t[|t| - 1] == b[|b| - 1];
    StripByFixed(t, IsSpace);
  }

  lemma StripIdempotent(s: string)
    ensures Strip(Strip(s)) == Strip(s)
  {
    StripByFixed(Strip(s), IsSpace);
  }

  /** Dropping a prefix made only of `drop` characters, in front of text that does not start with one. */
  lemma {:induction false} LStripPadding(pre: string, s: string, drop: char -> bool)
    requires forall i :: 0 <= i < |pre| ==> drop(pre[i])
    requires s != [] ==> !drop(s[0])
    ensures LStripBy(pre + s, drop) == s
    decreases |pre|
  {
    if pre == [] {
      assert pre + s == s;
    } else {
      assert (pre + s)[1..] == pre[1..] + s;
      LStripPadding(pre[1..], s, drop);
    }
  }

  /** Dropping a suffix made only of `drop` characters, after text that does not end with one. */
  lemma {:induction false} RStripPadding(s: string, post: string, drop: char -> bool)
    requires forall i :: 0 <= i < |post| ==> drop(post[i])
    requires s != [] ==> !drop(s[|s| - 1])
    ensures RStripBy(s + post, drop) == s
    decreases |post|
  {
    if post == [] {
      assert s + post == s;
    } else {
      var m := |post| - 1;
      assert (s + post)[..|s + post| - 1] == s + post[..m];
      RStripPadding(s, post[..m], drop);
    }
  }

  /** `a` surrounded by `drop` characters strips back to `a`, when `a` neither starts nor ends with one. */
  lemma StripPadded(pre: string, a: string, post: string, drop: char -> bool)
    requires forall i :: 0 <= i < |pre| ==> drop(pre[i])
    requires forall i :: 0 <= i < |post| ==> drop(post[i])
    requires a != [] ==> !drop(a[0]) && !drop(a[|a| - 1])
    ensures StripBy(pre + a + post, drop) == a
  {
    if a == [] {
      var s := pre + a + post;
      assert forall i :: 0 <= i < |s| ==> drop(s[i]);
      assert LStripBy(s, drop) == [];
    } else {
      assert pre + a + post == pre + (a + post);
      LStripPadding(pre, a + post, drop);
      RStripPadding(a, post, drop);
    }
  }

  // ---------------------------------------------------------------- prefixes and occurrences

  predicate StartsWith(s: string, p: string) {
    |p| <= |s| && s[..|p|] == p
  }

  lemma StartsWithConcat(p: string, rest: string)
    ensures StartsWith(p + rest, p)
  {
    assert (p + rest)[..|p|] == p;
  }

  /** Appending keeps a prefix. */
  /** A prefix of a prefix is a prefix. */
  lemma StartsWithTrans(s: string, p: string, q: string)
    requires StartsWith(s, p) && StartsWith(p, q)
    ensures StartsWith(s, q)
  {
    assert s[..|q|] == s[..|p|][..|q|];
  }

  lemma StartsWithExtend(s: string, p: string, rest: string)
    requires StartsWith(s, p)
    ensures StartsWith(s + rest, p)
  {
    assert (s + rest)[..|p|] == s[..|p|];
  }

  predicate EndsWith(s: string, p: string) {
    |p| <= |s| && s[|s| - |p|..] == p
  }

  /** `p` occurs in `s` at index `i`. */
  predicate OccursAt(s: string, p: string, i: int) {
    0 <= i && i + |p| <= |s| && s[i..i + |p|] == p
  }

  /** `p` occurs in `s` at index `i` and nowhere before. */
  ghost predicate FirstAt(s: string, p: string, i: int) {
    OccursAt(s, p, i) && forall j :: 0 <= j < i ==> !OccursAt(s, p, j)
  }

  /** Python's `p in s`, stated directly. */
  ghost predicate Occurs(s: string, p: string) {
    exists i :: OccursAt(s, p, i)
  }

  function IndexFrom(s: string, p: string, i: nat): (r: Option<nat>)
    requires forall j :: 0 <= j < i ==> !OccursAt(s, p, j)
    ensures r.Some? ==> FirstAt(s, p, r.value)
    ensures r.None? ==> forall j :: !OccursAt(s, p, j)
    decreases |s| + 1 - i
  {
    if i + |p| > |s| then None
    else if s[i..i + |p|] == p then Some(i)
    else IndexFrom(s, p, i + 1)
  }

  /** Python's `s.find(p)`, with `None` for -1: the first index at which `p` occurs. */
  function IndexOf(s: string, p: string): (r: Option<nat>)
    ensures r.Some? ==> FirstAt(s, p, r.value)
    ensures r.None? <==> !Occurs(s, p)
  {
    IndexFrom(s, p, 0)
  }

  /** In `a + p + b`, where `a` holds no character that `p` starts with, `p` is first found right after `a`. */
  lemma IndexAfterPrefix(a: string, p: string, b: string)
    requires p != [] && p[0] !in a
    ensures IndexOf(a + p + b, p) == Some(|a|)
  {
    var t := a + p + b;
    assert t[|a|..|a| + |p|] == p;
    assert OccursAt(t, p, |a|);
    forall j | 0 <= j < |a|
      ensures !OccursAt(t, p, j)
    {
      assert t[j] == a[j];
    }
  }

  /** Python's `p in s`. */
  predicate Contains(s: string, p: string)
    ensures Contains(s, p) <==> Occurs(s, p)
  {
    IndexOf(s, p).Some?
  }

  /** Python's `s.split(p)[-1]`: the text after the last of the occurrences that a left-to-right split finds. */
  function LastPiece(s: string, p: string): (r: string)
    requires p != []
    ensures |r| <= |s|
    ensures !Occurs(r, p)
    decreases |s|
  {
    match IndexOf(s, p)
    case None => s
    case Some(i) => LastPiece(s[i + |p|..], p)
  }

  /** Python's `s.replace(p, "")`: every occurrence found left to right, without overlaps, removed. */
  function RemoveAll(s: string, p: string): (r: string)
    requires p != []
    ensures |r| <= |s|
    decreases |s|
  {
    match IndexOf(s, p)
    case None => s
    case Some(i) => s[..i] + RemoveAll(s[i + |p|..], p)
  }

  /** `replace(p, "")` on `a + p + b`, where `p` occurs only right after `a`, leaves `a + b`. */
  lemma RemoveAllOnce(a: string, p: string, b: string)
    requires p != [] && p[0] !in a && !Occurs(b, p)
    ensures RemoveAll(a + p + b, p) == a + b
  {
    var t := a + p + b;
    IndexAfterPrefix(a, p, b);
    assert t[..|a|] == a;
    assert t[|a| + |p|..] == b;
    assert IndexOf(b, p).None?;
  }

  // ---------------------------------------------------------------- splitting and joining

  /** Python's `s.split(sep)` for a one-character separator. */
  function SplitOn(s: string, sep: char): (r: seq<string>)
    ensures |r| >= 1
    decreases |s|
  {
    match IndexOf(s, [sep])
    case None => [s]
    case Some(i) => [s[..i]] + SplitOn(s[i + 1..], sep)
  }

  /** The length of the run of non-whitespace characters at the start of `s`. */
  function SpanNonSpace(s: string): (n: nat)
    ensures n <= |s|
    ensures forall i :: 0 <= i < n ==> !IsSpace(s[i])
    ensures n < |s| ==> IsSpace(s[n])
  {
    if s == [] || IsSpace(s[0]) then 0
    else
      1 + SpanNonSpace(s[1..])
  }

  /** Python's `s.split()`: the maximal runs of non-whitespace characters, in order. */
  function Words(s: string): seq<string>
    decreases |s|, 1
  {
    WordsOf(LStripBy(s, IsSpace))
  }

  /** The words of a text that does not start with whitespace. */
  function WordsOf(t: string): seq<string>
    requires t != [] ==> !IsSpace(t[0])
    decreases |t|, 0
  {
    if t == [] then []
    else
      var n := SpanNonSpace(t);
      [t[..n]] + Words(t[n..])
  }

  /** One step of `split()`: the first word, and the words of what follows it. */
  lemma WordsUnfold(s: string, t: string, n: nat)
    requires t == LStripBy(s, IsSpace) && t != [] && n == SpanNonSpace(t)
    ensures 0 < n
    ensures NoSpace(t[..n])
    ensures Words(s) == [t[..n]] + Words(t[n..])
  {
    assert Words(s) == WordsOf(t);
  }

  /** Every element is non-empty and holds no whitespace: what `split()` produces. */
  predicate AreWords(ws: seq<string>) {
    forall k :: 0 <= k < |ws| ==> ws[k] != [] && NoSpace(ws[k])
  }

  lemma AreWordsCons(w: string, ws: seq<string>)
    requires w != [] && NoSpace(w) && AreWords(ws)
    ensures AreWords([w] + ws)
  {
    forall k | 0 <= k < |[w] + ws|
      ensures ([w] + ws)[k] != [] && NoSpace(([w] + ws)[k])
    {
      if k > 0 {
        assert ([w] + ws)[k] == ws[k - 1];
      }
    }
  }

  /** Every word is non-empty and holds no whitespace. */
  lemma {:induction false} WordsShape(s: string)
    ensures AreWords(Words(s))
    decreases |s|
  {
    var t := LStripBy(s, IsSpace);
    if t == [] {
      assert Words(s) == WordsOf(t);
    } else {
      var n := SpanNonSpace(t);
      WordsUnfold(s, t, n);
      WordsShape(t[n..]);
      AreWordsCons(t[..n], Words(t[n..]));
    }
  }

  /** Python's `sep.join(parts)`. */
  function Join(parts: seq<string>, sep: string): string
    decreases |parts|
  {
    if |parts| == 0 then []
    else if |parts| == 1 then parts[0]
    else parts[0] + sep + Join(parts[1..], sep)
  }

  lemma JoinHead(parts: seq<string>, sep: string)
    requires |parts| >= 1
    ensures StartsWith(Join(parts, sep), parts[0])
  {
    if |parts| > 1 {
      assert Join(parts, sep) == parts[0] + (sep + Join(parts[1..], sep));
    }
  }

  /** A join ends with its last part. */
  lemma {:induction false} JoinLast(parts: seq<string>, sep: string)
    requires |parts| >= 1
    ensures EndsWith(Join(parts, sep), parts[|parts| - 1])
    decreases |parts|
  {
    if |parts| > 1 {
      var rest := Join(parts[1..], sep);
      JoinLast(parts[1..], sep);
      var last := parts[|parts| - 1];
      assert parts[1..][|parts[1..]| - 1] == last;
      var j := parts[0] + sep + rest;
      assert j == (parts[0] + sep) + rest;
      assert j[|j| - |last|..] == rest[|rest| - |last|..];
    }
  }

  /** The span is determined by where the first whitespace character is. */
  lemma {:induction false} SpanNonSpaceAt(s: string, n: nat)
    requires n <= |s|
    requires forall i :: 0 <= i < n ==> !IsSpace(s[i])
    requires n < |s| ==> IsSpace(s[n])
    ensures SpanNonSpace(s) == n
    decreases n
  {
    if n > 0 {
      SpanNonSpaceAt(s[1..], n - 1);
    }
  }

  /** A leading whitespace character does not change the words. */
  lemma WordsAfterSpace(c: char, rest: string)
    requires IsSpace(c)
    ensures Words([c] + rest) == Words(rest)
  {
    var s := [c] + rest;
    assert s[1..] == rest;
    var t := LStripBy(s, IsSpace);
    assert t == LStripBy(rest, IsSpace);
    assert Words(s) == WordsOf(t);
  }

  /** A non-empty word followed by nothing or by whitespace is the first word. */
  lemma WordsCons(w: string, rest: string)
    requires w != [] && NoSpace(w)
    requires rest != [] ==> IsSpace(rest[0])
    ensures Words(w + rest) == [w] + Words(rest)
  {
    var s := w + rest;
    assert LStripBy(s, IsSpace) == s;
    SpanNonSpaceAt(s, |w|);
    assert s[..|w|] == w;
    assert s[|w|..] == rest;
  }

  lemma ConsTail<T>(s: seq<T>)
    requires |s| > 0
    ensures [s[0]] + s[1..] == s
  {
  }

  lemma JoinCons(ws: seq<string>, sep: string)
    requires |ws| > 1
    ensures Join(ws, sep) == ws[0] + (sep + Join(ws[1..], sep))
  {
  }

  /** Joining a first word to the rest with one space. */
  lemma WordsOfJoinStep(w: string, rest: string)
    requires w != [] && NoSpace(w)
    ensures Words(w + (" " + rest)) == [w] + Words(rest)
  {
    var spaced := [' '] + rest;
    assert " " + rest == spaced;
    WordsCons(w, spaced);
    WordsAfterSpace(' ', rest);
  }

  /** Two words joined by one space split back into the two words. */
  lemma WordsOfPair(a: string, b: string)
    requires a != [] && NoSpace(a) && b != [] && NoSpace(b)
    ensures Words(a + " " + b) == [a, b]
  {
    assert a + " " + b == a + (" " + b);
    WordsOfJoinStep(a, b);
    WordsCons(b, []);
    assert b + [] == b;
    assert Words([]) == [];
  }

  /** Words separated by single spaces split back into the same words. */
  lemma {:induction false} WordsOfJoin(ws: seq<string>)
    requires AreWords(ws)
    ensures Words(Join(ws, " ")) == ws
    decreases |ws|
  {
    if |ws| == 1 {
      WordsCons(ws[0], []);
      assert ws[0] + [] == ws[0];
    } else if |ws| > 1 {
      var tail := ws[1..];
      JoinCons(ws, " ");
      WordsOfJoinStep(ws[0], Join(tail, " "));
      WordsOfJoin(tail);
      ConsTail(ws);
    }
  }

  /** Only whitespace, or nothing at all. */
  predicate Blank(s: string) {
    forall i :: 0 <= i < |s| ==> IsSpace(s[i])
  }

  /** Stripping leaves nothing exactly when every character is dropped. */
  lemma {:induction false} LStripGone(s: string, drop: char -> bool)
    ensures LStripBy(s, drop) == [] <==> forall i :: 0 <= i < |s| ==> drop(s[i])
    decreases |s|
  {
    if s != [] && drop(s[0]) {
      var rest := s[1..];
      LStripGone(rest, drop);
      assert forall i :: 0 < i < |s| ==> s[i] == rest[i - 1];
    }
  }

  /** `split()` finds no word exactly in a blank text. */
  lemma BlankWords(s: string)
    ensures Words(s) == [] <==> Blank(s)
  {
    LStripGone(s, IsSpace);
    var t := LStripBy(s, IsSpace);
    assert Words(s) == WordsOf(t);
  }

  /** A blank text holds no non-whitespace character. */
  lemma BlankLacks(s: string, c: char)
    requires Blank(s) && !IsSpace(c)
    ensures !Occurs(s, [c])
  {
    forall i | 0 <= i < |s|
      ensures !OccursAt(s, [c], i)
    {
      assert i + 1 <= |s| ==> s[i..i + 1] == [s[i]];
    }
  }

  /** Lowercasing and removing non-whitespace characters leave a blank text as it is. */
  lemma BlankUnchanged(s: string, c: char)
    requires Blank(s) && !IsSpace(c)
    ensures Lower(s) == s
    ensures RemoveAll(s, [c]) == s
  {
    BlankLacks(s, c);
    assert forall i :: 0 <= i < |s| ==> Lower(s)[i] == s[i];
  }

  // ---------------------------------------------------------------- case and numbers

  /** Python's `c.lower()` restricted to ASCII letters. */
  function LowerChar(c: char): (r: char)
    ensures 'A' <= c <= 'Z' ==> r as int == c as int + 32
    ensures !('A' <= c <= 'Z') ==> r == c
  {
    if 'A' <= c <= 'Z' then (c as int + 32) as char else c
  }

  /** Python's `s.lower()` restricted to ASCII letters. */
  function Lower(s: string): (r: string)
    ensures |r| == |s|
    ensures forall i :: 0 <= i < |s| ==> r[i] == LowerChar(s[i])
  {
    seq(|s|, i requires 0 <= i < |s| => LowerChar(s[i]))
  }

  function DigitChar(d: nat): char
    requires d < 10
  {
    "0123456789"[d]
  }

  /** Python's `str(n)` for a natural number. */
  function NatToString(n: nat): (r: string)
    ensures r != []
    decreases n
  {
    if n < 10 then [DigitChar(n)] else NatToString(n / 10) + [DigitChar(n % 10)]
  }

  /** Python's `str(i)`. */
  function IntToString(i: int): (r: string)
    ensures r != []
  {
    if i < 0 then "-" + NatToString(-i) else NatToString(i)
  }

  /** Python's `c * n`. */
  function Repeat(c: char, n: nat): (r: string)
    ensures |r| == n
    ensures forall i :: 0 <= i < n ==> r[i] == c
  {
    seq(n, _ => c)
  }
}
