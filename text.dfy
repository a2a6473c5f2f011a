/**
 * The small part of Python's `str` that the system relies on: `isspace`,
 * `strip()`, `split()` on whitespace, `split(sep)`, `sep.join(parts)`,
 * `lower()`, `startswith`, `in`, `str(n)` for naturals, and the Jaccard
 * similarity of two word sets that the evaluator and both retrievers compute.
 */
module Text {

  /** Python's `str.isspace()` for a single character. */
  predicate IsSpace(c: char) {
    var n := c as int;
    n == 32 || 9 <= n <= 13 || 28 <= n <= 31 || n == 0x85 || n == 0xA0 || n == 0x1680
    || 0x2000 <= n <= 0x200A || n == 0x2028 || n == 0x2029 || n == 0x202F || n == 0x205F
    || n == 0x3000
  }

  /** A string that `strip()` reduces to the empty string. */
  predicate IsBlank(s: string) {
    forall i :: 0 <= i < |s| ==> IsSpace(s[i])
  }

  /** A non-empty run of non-whitespace characters, one item of `split()`. */
  predicate IsWord(w: string) {
    |w| > 0 && forall i :: 0 <= i < |w| ==> !IsSpace(w[i])
  }

  function Min(a: int, b: int): int { if a <= b then a else b }

  function Max(a: int, b: int): int { if a >= b then a else b }

  // ---------------------------------------------------------------- lower()

  /**
   * `str.lower()` on ASCII letters; every other character, including
   * non-ASCII capitals, is left as it is.
   */
  function LowerChar(c: char): char {
    if 'A' <= c <= 'Z' then (c as int + 32) as char else c
  }

  function Lower(s: string): (r: string)
    ensures |r| == |s|
  {
    seq(|s|, i requires 0 <= i < |s| => LowerChar(s[i]))
  }

  // ---------------------------------------------------------------- strip()

  function LStrip(s: string): (r: string)
    ensures |r| <= |s| && r == s[|s| - |r|..]
    ensures r == [] || !IsSpace(r[0])
    ensures forall i :: 0 <= i < |s| - |r| ==> IsSpace(s[i])
  {
    if |s| > 0 && IsSpace(s[0]) then LStrip(s[1..]) else s
  }

  function RStrip(s: string): (r: string)
    ensures |r| <= |s| && r == s[..|r|]
    ensures r == [] || !IsSpace(r[|r| - 1])
    ensures forall i :: |r| <= i < |s| ==> IsSpace(s[i])
  {
    if |s| > 0 && IsSpace(s[|s| - 1]) then RStrip(s[..|s| - 1]) else s
  }

  /** `s.strip()`: the result has no whitespace at either end, and it is empty exactly for blank input. */
  function Strip(s: string): (r: string)
    ensures r == [] || (!IsSpace(r[0]) && !IsSpace(r[|r| - 1]))
    ensures r == [] <==> IsBlank(s)
  {
    var l := LStrip(s);
    var r := RStrip(l);
    assert r != [] ==> r[0] == l[0];
    assert r == [] ==> l == [];
    assert r != [] ==> !IsBlank(s) by {
      if r != [] {
        assert s[|s| - |l|] == r[0];
      }
    }
    r
  }

  /** Stripping a string without outer whitespace changes nothing. */
  lemma StripNoop(s: string)
    requires s == [] || (!IsSpace(s[0]) && !IsSpace(s[|s| - 1]))
    ensures Strip(s) == s
  {
  }

  lemma StripIdempotent(s: string)
    ensures Strip(Strip(s)) == Strip(s)
  {
    StripNoop(Strip(s));
  }

  // ---------------------------------------------------------------- split()

  /** Length of the leading run of non-whitespace characters. */
  function WordLen(s: string): (n: nat)
    ensures n <= |s|
    ensures forall i :: 0 <= i < n ==> !IsSpace(s[i])
    ensures n < |s| ==> IsSpace(s[n])
    ensures |s| > 0 && !IsSpace(s[0]) ==> n >= 1
  {
    if s == [] || IsSpace(s[0]) then 0 else 1 + WordLen(s[1..])
  }

  /** `s.split()`: the maximal runs of non-whitespace characters, in order. */
  function Words(s: string): seq<string>
    decreases |s|
  {
    if s == [] then []
    else if IsSpace(s[0]) then Words(s[1..])
    else
      var n := WordLen(s);
      [s[..n]] + Words(s[n..])
  }

  /** Every item of `split()` is a word. */
  lemma {:induction false} WordsAreWords(s: string)
    ensures forall i :: 0 <= i < |Words(s)| ==> IsWord(Words(s)[i])
    decreases |s|
  {
    if s != [] {
      if IsSpace(s[0]) {
        WordsAreWords(s[1..]);
      } else {
        var n := WordLen(s);
        WordsAreWords(s[n..]);
        var ws := Words(s);
        assert ws == [s[..n]] + Words(s[n..]);
        forall i | 0 <= i < |ws| ensures IsWord(ws[i]) {
          if i > 0 {
            assert ws[i] == Words(s[n..])[i - 1];
          }
        }
      }
    }
  }

  lemma {:induction false} WordLenBeforeSpace(a: string, c: char, b: string)
    requires IsSpace(c)
    ensures WordLen(a + [c] + b) == WordLen(a)
    decreases |a|
  {
    var s := a + [c] + b;
    if a == [] {
      assert s[0] == c;
    } else if !IsSpace(a[0]) {
      assert s[1..] == a[1..] + [c] + b;
      WordLenBeforeSpace(a[1..], c, b);
    }
  }

  /** A whitespace character separates the words on its two sides. */
  lemma {:induction false} WordsAroundSpace(a: string, c: char, b: string)
    requires IsSpace(c)
    ensures Words(a + [c] + b) == Words(a) + Words(b)
    decreases |a|
  {
    var s := a + [c] + b;
    if a == [] {
      assert s[1..] == b;
    } else if IsSpace(a[0]) {
      assert s[1..] == a[1..] + [c] + b;
      WordsAroundSpace(a[1..], c, b);
    } else {
      var n := WordLen(s);
      WordLenBeforeSpace(a, c, b);
      assert s[..n] == a[..n];
      assert s[n..] == a[n..] + [c] + b;
      WordsAroundSpace(a[n..], c, b);
    }
  }

  lemma WordsOfWord(w: string)
    requires IsWord(w)
    ensures Words(w) == [w]
  {
    var n := WordLen(w);
    assert n == |w|;
    assert w[n..] == [];
    assert w[..n] == w;
  }

  // ---------------------------------------------------------------- join / split(sep)

  /** `sep.join(parts)`. */
  function Join(sep: string, parts: seq<string>): string {
    if |parts| == 0 then ""
    else if |parts| == 1 then parts[0]
    else parts[0] + sep + Join(sep, parts[1..])
  }

  lemma {:induction false} JoinSnoc(sep: string, parts: seq<string>, p: string)
    requires |parts| > 0
    ensures Join(sep, parts + [p]) == Join(sep, parts) + sep + p
    decreases |parts|
  {
    var ps := parts + [p];
    if |parts| > 1 {
      assert ps[1..] == parts[1..] + [p];
      JoinSnoc(sep, parts[1..], p);
    }
  }

  /** Joining words with single spaces and splitting again gives the words back. */
  lemma {:induction false} WordsOfJoinedWords(ws: seq<string>)
    requires forall i :: 0 <= i < |ws| ==> IsWord(ws[i])
    ensures Words(Join(" ", ws)) == ws
    decreases |ws|
  {
    if |ws| == 1 {
      WordsOfWord(ws[0]);
    } else if |ws| > 1 {
      assert Join(" ", ws) == ws[0] + [' '] + Join(" ", ws[1..]);
      WordsAroundSpace(ws[0], ' ', Join(" ", ws[1..]));
      WordsOfWord(ws[0]);
      WordsOfJoinedWords(ws[1..]);
    }
  }

  /** `s.split(sep)` for a non-empty separator: leftmost, non-overlapping occurrences. */
  function SplitOn(s: string, sep: string): (r: seq<string>)
    requires |sep| > 0
    ensures |r| >= 1
    decreases |s|
  {
    if |s| < |sep| then [s]
    else if s[..|sep|] == sep then [""] + SplitOn(s[|sep|..], sep)
    else
      var rest := SplitOn(s[1..], sep);
      [[s[0]] + rest[0]] + rest[1..]
  }

  lemma JoinConsHead(sep: string, c: char, r: seq<string>)
    requires |r| >= 1
    ensures Join(sep, [[c] + r[0]] + r[1..]) == [c] + Join(sep, r)
  {
    var r' := [[c] + r[0]] + r[1..];
    if |r| > 1 {
      assert r'[1..] == r[1..];
    }
  }

  lemma JoinConsEmpty(sep: string, r: seq<string>)
    requires |r| >= 1
    ensures Join(sep, [""] + r) == sep + Join(sep, r)
  {
    assert ([""] + r)[1..] == r;
  }

  /** `sep.join(s.split(sep)) == s`. */
  lemma {:induction false} SplitOnJoin(s: string, sep: string)
    requires |sep| > 0
    ensures Join(sep, SplitOn(s, sep)) == s
    decreases |s|
  {
    if |s| < |sep| {
    } else if s[..|sep|] == sep {
      var rest := SplitOn(s[|sep|..], sep);
      assert SplitOn(s, sep) == [""] + rest;
      SplitOnJoin(s[|sep|..], sep);
      JoinConsEmpty(sep, rest);
      assert s == sep + s[|sep|..];
    } else {
      var rest := SplitOn(s[1..], sep);
      assert SplitOn(s, sep) == [[s[0]] + rest[0]] + rest[1..];
      SplitOnJoin(s[1..], sep);
      JoinConsHead(sep, s[0], rest);
      assert s == [s[0]] + s[1..];
    }
  }

  /** A piece free of the separator's first character is split off whole. */
  lemma {:induction false} SplitOnLeadingPiece(a: string, sep: string, b: string)
    requires |sep| > 0 && forall i :: 0 <= i < |a| ==> a[i] != sep[0]
    ensures SplitOn(a + sep + b, sep) == [a] + SplitOn(b, sep)
    decreases |a|
  {
    var s := a + sep + b;
    if a == [] {
      assert s == sep + b;
      assert s[..|sep|] == sep;
      assert s[|sep|..] == b;
    } else {
      assert s[0] == a[0];
      assert s[..|sep|] != sep by {
        assert s[..|sep|][0] == a[0];
      }
      assert s[1..] == a[1..] + sep + b;
      SplitOnLeadingPiece(a[1..], sep, b);
      assert [a[0]] + a[1..] == a;
    }
  }

  lemma {:induction false} JoinOfBlanks(sep: string, ps: seq<string>)
    requires IsBlank(sep) && forall i :: 0 <= i < |ps| ==> IsBlank(ps[i])
    ensures IsBlank(Join(sep, ps))
    decreases |ps|
  {
    if |ps| > 1 {
      JoinOfBlanks(sep, ps[1..]);
      var j := Join(sep, ps[1..]);
      assert Join(sep, ps) == ps[0] + sep + j;
      forall i | 0 <= i < |Join(sep, ps)| ensures IsSpace(Join(sep, ps)[i]) {
        if i < |ps[0]| {
          assert Join(sep, ps)[i] == ps[0][i];
        } else if i < |ps[0]| + |sep| {
          assert Join(sep, ps)[i] == sep[i - |ps[0]|];
        } else {
          assert Join(sep, ps)[i] == j[i - |ps[0]| - |sep|];
        }
      }
    }
  }

  // ---------------------------------------------------------------- paragraphs

  /** `[p.strip() for p in ps if p.strip()]`. */
  function StrippedNonBlank(ps: seq<string>): (r: seq<string>)
    ensures |r| <= |ps|
    ensures forall i :: 0 <= i < |r| ==> IsStripped(r[i])
  {
    if ps == [] then []
    else
      var p := Strip(ps[0]);
      var rest := StrippedNonBlank(ps[1..]);
      if p != [] then
        assert IsStripped(p);
        ConsStripped(p, rest);
        [p] + rest
      else rest
  }

  lemma ConsStripped(p: string, rest: seq<string>)
    requires IsStripped(p) && forall i :: 0 <= i < |rest| ==> IsStripped(rest[i])
    ensures forall i :: 0 <= i < |[p] + rest| ==> IsStripped(([p] + rest)[i])
  {
    forall i | 0 <= i < |[p] + rest| ensures IsStripped(([p] + rest)[i]) {
      if i > 0 {
        assert ([p] + rest)[i] == rest[i - 1];
      }
    }
  }

  /** Non-empty and without whitespace at either end: what `strip()` leaves of non-blank text. */
  predicate IsStripped(p: string) {
    p != [] && !IsSpace(p[0]) && !IsSpace(p[|p| - 1])
  }

  lemma {:induction false} StrippedNonBlankEmpty(ps: seq<string>)
    requires StrippedNonBlank(ps) == []
    ensures forall i :: 0 <= i < |ps| ==> IsBlank(ps[i])
  {
    if ps != [] {
      var p := Strip(ps[0]);
      assert p == [];
      StrippedNonBlankEmpty(ps[1..]);
      assert forall i :: 1 <= i < |ps| ==> ps[i] == ps[1..][i - 1];
    }
  }

  /** The paragraph chunking of both retrievers: `[p.strip() for p in s.split("\n\n") if p.strip()]`. */
  function Paragraphs(s: string): seq<string> {
    StrippedNonBlank(SplitOn(s, "\n\n"))
  }

  /** Text that is not blank has at least one paragraph. */
  lemma ParagraphsOfText(s: string)
    ensures !IsBlank(s) ==> |Paragraphs(s)| > 0
  {
    if Paragraphs(s) == [] {
      StrippedNonBlankEmpty(SplitOn(s, "\n\n"));
      JoinOfBlanks("\n\n", SplitOn(s, "\n\n"));
      SplitOnJoin(s, "\n\n");
    }
  }

  // ---------------------------------------------------------------- misc predicates

  predicate StartsWith(s: string, prefix: string) {
    |prefix| <= |s| && s[..|prefix|] == prefix
  }

  /** Python's `t in s` for strings. */
  predicate Contains(s: string, t: string)
    decreases |s|
  {
    StartsWith(s, t) || (|s| > 0 && Contains(s[1..], t))
  }

  function Digit(d: nat): char
    requires d < 10
  {
    "0123456789"[d]
  }

  /** `str(n)` for a natural number. */
  function NatToString(n: nat): (r: string)
    ensures |r| >= 1
  {
    if n < 10 then [Digit(n)] else NatToString(n / 10) + [Digit(n % 10)]
  }

  /** The value of a decimal digit. */
  function DigitValue(c: char): int {
    c as int - '0' as int
  }

  /** `int(s)` for a string of decimal digits, read most significant first. */
  function ParseNat(s: string): int
    decreases |s|
  {
    if s == [] then 0 else ParseNat(s[..|s| - 1]) * 10 + DigitValue(s[|s| - 1])
  }

  /** `int(str(n)) == n`. */
  lemma {:induction false} NatToStringRoundTrip(n: nat)
    ensures ParseNat(NatToString(n)) == n
  {
    var s := NatToString(n);
    if n < 10 {
      assert s[..0] == [];
      assert DigitValue(Digit(n)) == n;
    } else {
      assert s[..|s| - 1] == NatToString(n / 10);
      NatToStringRoundTrip(n / 10);
      assert DigitValue(Digit(n % 10)) == n % 10;
    }
  }

  /** Distinct numbers print differently. */
  lemma NatToStringInjective(m: nat, n: nat)
    requires NatToString(m) == NatToString(n)
    ensures m == n
  {
    NatToStringRoundTrip(m);
    NatToStringRoundTrip(n);
  }

  /** `"".join(parts)`. */
  function Concat(parts: seq<string>): string {
    if parts == [] then "" else parts[0] + Concat(parts[1..])
  }

  // ---------------------------------------------------------------- word sets and similarity

  /** `set(s.lower().split())`. */
  function WordSet(s: string): set<string> {
    set w | w in Words(Lower(s))
  }

  /** `len(a & b) / len(a | b) if len(a | b) > 0 else 0`. */
  function Jaccard(a: set<string>, b: set<string>): (r: real)
    ensures 0.0 <= r <= 1.0
    ensures r > 0.0 <==> a * b != {}
  {
    if |a + b| > 0 then
      SubsetCard(a * b, a + b);
      assert a * b != {} ==> |a * b| > 0;
      (|a * b| as real) / (|a + b| as real)
    else
      assert a * b <= a + b;
      0.0
  }

  /**
   * The word overlap both retrievers rank by: the Jaccard similarity of the
   * two texts' lower-cased word sets, positive exactly when they share a word.
   */
  function WordSimilarity(a: string, b: string): (r: real)
    ensures 0.0 <= r <= 1.0
    ensures r > 0.0 <==> WordSet(a) * WordSet(b) != {}
  {
    Jaccard(WordSet(a), WordSet(b))
  }

  lemma {:induction false} SubsetCard<T>(x: set<T>, y: set<T>)
    requires x <= y
    ensures |x| <= |y|
    decreases |y|
  {
    if x != {} {
      var e :| e in x;
      SubsetCard(x - {e}, y - {e});
    }
  }
}
