// The three string operations the operator builds its base DNs with, and how they relate.
module Strings {

  lemma ConcatTail<T>(a: seq<T>, b: seq<T>)
    requires a != []
    ensures (a + b)[0] == a[0]
    ensures (a + b)[1..] == a[1..] + b
    ensures a + b == [a[0]] + (a[1..] + b)
  {
  }

  /** Go's strings.Split for a one-character separator: never empty, and "" splits into [""]. */
  function Split(s: string, c: char): (parts: seq<string>)
    ensures |parts| >= 1
  {
    if s == "" then [""]
    else
      var rest := Split(s[1..], c);
      if s[0] == c then [""] + rest else [[s[0]] + rest[0]] + rest[1..]
  }

  /** Go's strings.Join. */
  function Join(parts: seq<string>, sep: string): string {
    if |parts| == 0 then ""
    else if |parts| == 1 then parts[0]
    else parts[0] + sep + Join(parts[1..], sep)
  }

  /** Go's strings.ReplaceAll for a one-character pattern. */
  function ReplaceAll(s: string, c: char, sub: string): string {
    if s == "" then "" else (if s[0] == c then sub else [s[0]]) + ReplaceAll(s[1..], c, sub)
  }

  /** Number of occurrences of c in s. */
  function Count(s: string, c: char): nat {
    if s == "" then 0 else (if s[0] == c then 1 else 0) + Count(s[1..], c)
  }

  lemma {:induction false} JoinOfSplitReplaces(s: string, c: char, sep: string)
    ensures Join(Split(s, c), sep) == ReplaceAll(s, c, sep)
  {
    if s != "" {
      JoinOfSplitReplaces(s[1..], c, sep);
      var rest := Split(s[1..], c);
      if s[0] == c {
        assert ([""] + rest)[1..] == rest;
      } else {
        var parts := [[s[0]] + rest[0]] + rest[1..];
        assert parts[1..] == rest[1..];
        if |rest| > 1 {
          assert [s[0]] + (rest[0] + sep + Join(rest[1..], sep)) == [s[0]] + rest[0] + sep + Join(rest[1..], sep);
        }
      }
    }
  }

  lemma {:induction false} ReplaceBySelf(s: string, c: char)
    ensures ReplaceAll(s, c, [c]) == s
  {
    if s != "" {
      ReplaceBySelf(s[1..], c);
    }
  }

  lemma SplitInjective(s: string, s': string, c: char)
    requires Split(s, c) == Split(s', c)
    ensures s == s'
  {
    JoinOfSplitReplaces(s, c, [c]);
    JoinOfSplitReplaces(s', c, [c]);
    ReplaceBySelf(s, c);
    ReplaceBySelf(s', c);
  }

  lemma SplitOfCons(x: char, t: string, c: char)
    ensures Split([x] + t, c) == if x == c then [""] + Split(t, c) else PrefixFirst(x, Split(t, c))
  {
  }

  function PrefixFirst(x: char, parts: seq<string>): seq<string>
    requires parts != []
  {
    [[x] + parts[0]] + parts[1..]
  }

  lemma SplitOfConcatStep(x: char, tail: string, whole: string, c: char, q: seq<string>)
    requires Split(whole, c) == Split(tail, c) + q
    ensures Split([x] + whole, c) == Split([x] + tail, c) + q
  {
  }

  lemma {:induction false} SplitOfConcat(u: string, v: string, c: char)
    ensures Split(u + [c] + v, c) == Split(u, c) + Split(v, c)
    decreases |u|
  {
    if u == "" {
      SplitOfCons(c, v, c);
      assert u + [c] + v == [c] + v;
    } else {
      var tail := u[1..];
      var whole := tail + [c] + v;
      SplitOfConcat(tail, v, c);
      SplitOfConcatStep(u[0], tail, whole, c, Split(v, c));
      assert u == [u[0]] + tail;
      assert u + [c] + v == [u[0]] + whole;
    }
  }

  lemma {:induction false} SplitCounts(s: string, c: char)
    ensures |Split(s, c)| == 1 + Count(s, c)
  {
    if s != "" {
      SplitCounts(s[1..], c);
    }
  }

  lemma {:induction false} CountZero(s: string, c: char)
    ensures Count(s, c) == 0 <==> c !in s
  {
    if s != "" {
      CountZero(s[1..], c);
      assert s == [s[0]] + s[1..];
    }
  }

  lemma {:induction false} SplitOfFree(s: string, c: char)
    requires c !in s
    ensures Split(s, c) == [s]
  {
    if s != "" {
      assert s == [s[0]] + s[1..];
      SplitOfFree(s[1..], c);
    }
  }
}
