/**
 * What the three agents' prompt builders share: 1-based numbered items such
 * as `"\n[Chunk 2]\n" + chunk`, the loop that appends them to a list of
 * parts, and facts about text joined with "\n".
 */
module Prompts {
  import opened Text

  /** A section heading, `"\n--- " + title + " ---"`. */
  function Banner(title: string): string {
    "\n--- " + title + " ---"
  }

  /** Headings start with a newline and a dash and carry the title's first letter sixth. */
  lemma BannerShape(title: string, tail: string)
    requires |title| > 0
    ensures var b := Banner(title) + tail;
            |b| > 5 && b[0] == '\n' && b[1] == '-' && b[5] == title[0]
  {
  }

  /** `f"\n[{tag} {n}]\n{text}"`. */
  function Item(tag: string, n: nat, text: string): string {
    "\n[" + tag + " " + NatToString(n) + "]\n" + text
  }

  /** `[Item(tag, i, x) for i, x in enumerate(items, 1)]`. */
  function Numbered(tag: string, items: seq<string>): (r: seq<string>)
    ensures |r| == |items|
    ensures forall i :: 0 <= i < |r| ==> r[i] == Item(tag, i + 1, items[i])
  {
    seq(|items|, i requires 0 <= i < |items| => Item(tag, i + 1, items[i]))
  }

  /** The `for i, x in enumerate(items, 1): parts.append(...)` loop. */
  method AppendNumbered(parts: seq<string>, tag: string, items: seq<string>) returns (r: seq<string>)
    ensures r == parts + Numbered(tag, items)
  {
    r := parts;
    for i := 0 to |items|
      invariant r == parts + Numbered(tag, items[..i])
    {
      assert Numbered(tag, items[..i + 1]) == Numbered(tag, items[..i]) + [Item(tag, i + 1, items[i])];
      r := r + [Item(tag, i + 1, items[i])];
    }
    assert items[..|items|] == items;
  }

  /** A numbered item starts with a newline and an opening bracket. */
  lemma ItemShape(tag: string, n: nat, text: string)
    ensures |Item(tag, n, text)| >= 2 && Item(tag, n, text)[0] == '\n' && Item(tag, n, text)[1] == '['
  {
  }

  /** A text whose second character is not `[` is none of the numbered items. */
  lemma NotItem(tag: string, items: seq<string>, x: string)
    requires |x| >= 2 && x[1] != '['
    ensures x !in Numbered(tag, items)
  {
    forall i | 0 <= i < |items| ensures Numbered(tag, items)[i] != x {
      ItemShape(tag, i + 1, items[i]);
    }
  }

  predicate EndsWith(s: string, suffix: string) {
    |suffix| <= |s| && s[|s| - |suffix|..] == suffix
  }

  lemma {:induction false} ContainsAppend(a: string, b: string, x: string)
    requires Contains(a, x)
    ensures Contains(a + b, x)
    decreases |a|
  {
    if StartsWith(a, x) {
      assert (a + b)[..|x|] == a[..|x|];
    } else {
      assert (a + b)[1..] == a[1..] + b;
      ContainsAppend(a[1..], b, x);
    }
  }

  lemma {:induction false} ContainsPrepend(a: string, b: string, x: string)
    requires Contains(b, x)
    ensures Contains(a + b, x)
    decreases |a|
  {
    if a == [] {
      assert a + b == b;
    } else {
      assert (a + b)[1..] == a[1..] + b;
      ContainsPrepend(a[1..], b, x);
    }
  }

  lemma ContainsSelf(x: string)
    ensures Contains(x, x)
  {
    assert x[..|x|] == x;
  }

  /** An item quotes its text. */
  lemma ItemQuotes(tag: string, n: nat, text: string)
    ensures Contains(Item(tag, n, text), text)
  {
    ContainsSelf(text);
    ContainsPrepend("\n[" + tag + " " + NatToString(n) + "]\n", text, text);
  }

  /** Whatever one part contains, the joined text contains. */
  lemma {:induction false} ContainsInJoin(sep: string, parts: seq<string>, k: nat, x: string)
    requires k < |parts| && Contains(parts[k], x)
    ensures Contains(Join(sep, parts), x)
    decreases k
  {
    if |parts| == 1 {
    } else if k == 0 {
      ContainsAppend(parts[0], sep + Join(sep, parts[1..]), x);
      assert parts[0] + sep + Join(sep, parts[1..]) == parts[0] + (sep + Join(sep, parts[1..]));
    } else {
      ContainsInJoin(sep, parts[1..], k - 1, x);
      ContainsPrepend(parts[0] + sep, Join(sep, parts[1..]), x);
    }
  }

  /** The joined text starts with the first part. */
  lemma JoinStartsWith(sep: string, parts: seq<string>)
    requires |parts| > 0
    ensures StartsWith(Join(sep, parts), parts[0])
  {
    if |parts| > 1 {
      assert (parts[0] + sep + Join(sep, parts[1..]))[..|parts[0]|] == parts[0];
    }
  }

  /** The joined text ends with the last part. */
  lemma JoinEndsWith(sep: string, parts: seq<string>)
    requires |parts| > 0
    ensures EndsWith(Join(sep, parts), parts[|parts| - 1])
  {
    if |parts| > 1 {
      var init := parts[..|parts| - 1];
      assert parts == init + [parts[|parts| - 1]];
      JoinSnoc(sep, init, parts[|parts| - 1]);
    }
  }

  /** Every item of a numbered run of parts is quoted in the joined text. */
  lemma NumberedQuoted(sep: string, parts: seq<string>, off: nat, tag: string, items: seq<string>)
    requires off + |items| <= |parts| && parts[off..off + |items|] == Numbered(tag, items)
    ensures forall i :: 0 <= i < |items| ==> Contains(Join(sep, parts), items[i])
  {
    forall i | 0 <= i < |items| ensures Contains(Join(sep, parts), items[i]) {
      assert parts[off + i] == parts[off..off + |items|][i];
      ItemQuotes(tag, i + 1, items[i]);
      ContainsInJoin(sep, parts, off + i, items[i]);
    }
  }

  // The layout lemmas below are stated over any element type, so that the
  // solver never looks inside the prompt texts when it locates a section.

  /** A section `[h] + n + [g]` placed second among four pieces. */
  lemma SecondSection<T>(a: seq<T>, h: T, n: seq<T>, g: T, c: seq<T>, d: seq<T>)
    ensures var ps := a + ([h] + n + [g]) + c + d;
            |ps| == |a| + |n| + 2 + |c| + |d| && ps[|a|] == h && ps[|a| + 1 + |n|] == g
            && ps[|a| + 1..|a| + 1 + |n|] == n
  {
  }

  /** A section `[h] + n + [g]` placed third among four pieces. */
  lemma ThirdSection<T>(a: seq<T>, b: seq<T>, h: T, n: seq<T>, g: T, d: seq<T>)
    ensures var ps := a + b + ([h] + n + [g]) + d;
            |ps| == |a| + |b| + |n| + 2 + |d| && ps[|a| + |b|] == h && ps[|a| + |b| + 1 + |n|] == g
            && ps[|a| + |b| + 1..|a| + |b| + 1 + |n|] == n
  {
  }

  /** A section `[h] + n` placed second among four pieces. */
  lemma SecondList<T>(a: seq<T>, h: T, n: seq<T>, c: seq<T>, d: seq<T>)
    ensures var ps := a + ([h] + n) + c + d;
            |ps| == |a| + |n| + 1 + |c| + |d| && ps[|a|] == h && ps[|a| + 1..|a| + 1 + |n|] == n
  {
  }

  /** A section `[h] + n` placed third among four pieces. */
  lemma ThirdList<T>(a: seq<T>, b: seq<T>, h: T, n: seq<T>, d: seq<T>)
    ensures var ps := a + b + ([h] + n) + d;
            |ps| == |a| + |b| + |n| + 1 + |d| && ps[|a| + |b|] == h && ps[|a| + |b| + 1..|a| + |b| + 1 + |n|] == n
  {
  }

  /** Outside the pieces around it, an element is in four pieces exactly when it is in the second. */
  lemma InSecond<T>(a: seq<T>, s: seq<T>, c: seq<T>, d: seq<T>, x: T)
    requires x !in a + c + d
    ensures x in a + s + c + d <==> x in s
  {
  }

  /** Outside the pieces around it, an element is in four pieces exactly when it is in the third. */
  lemma InThird<T>(a: seq<T>, b: seq<T>, s: seq<T>, d: seq<T>, x: T)
    requires x !in a + b + d
    ensures x in a + b + s + d <==> x in s
  {
  }
}
