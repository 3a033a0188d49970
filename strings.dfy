/** The JavaScript string primitives the services rely on: `startsWith`, `indexOf`, `replace` with
    a string pattern, `split`/`join` on one separator character, `slice(-2)` on the parts, and
    `toLowerCase` (restricted to ASCII letters). */
module Strings {
  import opened Wrappers

  predicate StartsWith(s: string, prefix: string)
  {
    |prefix| <= |s| && s[..|prefix|] == prefix
  }

  /** `pat` occurs in `s` starting at index `j`. */
  predicate OccursAt(s: string, pat: string, j: int)
  {
    0 <= j && j + |pat| <= |s| && s[j..j + |pat|] == pat
  }

  /** The first index at or after `from` where `pat` occurs in `s`. */
  function IndexFrom(s: string, pat: string, from: nat): (r: Option<nat>)
    requires from <= |s| + 1
    ensures r.Some? ==> from <= r.value && OccursAt(s, pat, r.value)
    ensures r.Some? ==> forall j :: from <= j < r.value ==> !OccursAt(s, pat, j)
    ensures r.None? ==> forall j :: from <= j ==> !OccursAt(s, pat, j)
    decreases |s| + 1 - from
  {
    if from + |pat| > |s| then None
    else if s[from..from + |pat|] == pat then Some(from)
    else IndexFrom(s, pat, from + 1)
  }

  /** `s.indexOf(pat)`: the first occurrence of `pat` in `s`, if any. */
  function IndexOf(s: string, pat: string): (r: Option<nat>)
    ensures r.Some? ==> OccursAt(s, pat, r.value)
    ensures r.Some? ==> forall j :: 0 <= j < r.value ==> !OccursAt(s, pat, j)
    ensures r.None? <==> forall j :: 0 <= j ==> !OccursAt(s, pat, j)
  {
    IndexFrom(s, pat, 0)
  }

  /** `s.replace(pat, rep)` with a string pattern: only the first occurrence is replaced. */
  function ReplaceFirst(s: string, pat: string, rep: string): string
  {
    match IndexOf(s, pat)
    case None => s
    case Some(i) => s[..i] + rep + s[i + |pat|..]
  }

  /** When `s` starts with `pat`, `replace` removes exactly that prefix. */
  lemma ReplaceLeadingOccurrence(s: string, pat: string, rest: string)
    requires s == pat + rest
    ensures ReplaceFirst(s, pat, "") == rest
  {
    assert s[0..|pat|] == pat;
    assert OccursAt(s, pat, 0);
  }

  /** `s.split(sep)`: the maximal runs of `s` between separators; never empty. */
  function Split(s: string, sep: char): (parts: seq<string>)
    ensures |parts| >= 1
    ensures forall k :: 0 <= k < |parts| ==> sep !in parts[k]
    decreases |s|
  {
    if s == [] then [[]]
    else
      var rest := Split(s[1..], sep);
      if s[0] == sep then [[]] + rest
      else [[s[0]] + rest[0]] + rest[1..]
  }

  /** `parts.join(sep)`. */
  function Join(parts: seq<string>, sep: char): string
  {
    if |parts| == 0 then []
    else if |parts| == 1 then parts[0]
    else parts[0] + [sep] + Join(parts[1..], sep)
  }

  /** `parts.slice(-2)`: the last two parts, or all of them when there are fewer. */
  function LastTwo(parts: seq<string>): (r: seq<string>)
    ensures |r| == if |parts| < 2 then |parts| else 2
    ensures r == parts[|parts| - |r|..]
  {
    if |parts| <= 2 then parts else parts[|parts| - 2..]
  }

  /** The last two parts of a non-empty list of separator-free parts are non-empty and separator-free. */
  lemma LastTwoKeepsParts(parts: seq<string>, sep: char)
    requires |parts| >= 1
    requires forall k :: 0 <= k < |parts| ==> sep !in parts[k]
    ensures |LastTwo(parts)| >= 1
    ensures forall k :: 0 <= k < |LastTwo(parts)| ==> sep !in LastTwo(parts)[k]
  {
    var last := LastTwo(parts);
    forall k | 0 <= k < |last| ensures sep !in last[k] {
      assert last[k] == parts[|parts| - |last| + k];
    }
  }

  /** Joining the parts of a split gives back the original string. */
  lemma {:induction false} JoinSplit(s: string, sep: char)
    ensures Join(Split(s, sep), sep) == s
    decreases |s|
  {
    if s != [] {
      var rest := Split(s[1..], sep);
      JoinSplit(s[1..], sep);
      if s[0] == sep {
        assert Join([[]] + rest, sep) == [] + [sep] + Join(rest, sep);
      } else {
        var parts := [[s[0]] + rest[0]] + rest[1..];
        if |rest| == 1 {
          assert Join(parts, sep) == [s[0]] + rest[0];
        } else {
          assert parts[1..] == rest[1..];
          assert Join(rest, sep) == rest[0] + [sep] + Join(rest[1..], sep);
          assert Join(parts, sep) == [s[0]] + rest[0] + [sep] + Join(rest[1..], sep);
        }
      }
    }
  }

  /** A string without the separator splits into itself alone. */
  lemma {:induction false} SplitWithoutSeparator(s: string, sep: char)
    requires sep !in s
    ensures Split(s, sep) == [s]
    decreases |s|
  {
    if s != [] {
      assert s[0] != sep;
      assert forall c :: c in s[1..] ==> c in s;
      SplitWithoutSeparator(s[1..], sep);
      assert [s[0]] + s[1..] == s;
    }
  }

  /** One step of the split: the first character either starts a new part or joins the first one. */
  lemma SplitCons(c: char, t: string, sep: char)
    ensures Split([c] + t, sep) ==
              if c == sep then [[]] + Split(t, sep)
              else [[c] + Split(t, sep)[0]] + Split(t, sep)[1..]
  {
    assert ([c] + t)[0] == c;
    assert ([c] + t)[1..] == t;
  }

  /** Extending the first part commutes with appending further parts. */
  lemma ExtendFirst(c: char, r: seq<string>, more: seq<string>)
    requires |r| >= 1
    ensures [[c] + (r + more)[0]] + (r + more)[1..] == ([[c] + r[0]] + r[1..]) + more
  {
    assert (r + more)[0] == r[0];
    assert (r + more)[1..] == r[1..] + more;
  }

  /** A separator cuts the split in two. */
  lemma {:induction false} SplitAppend(x: string, y: string, sep: char)
    ensures Split(x + [sep] + y, sep) == Split(x, sep) + Split(y, sep)
    decreases |x|
  {
    var sy := Split(y, sep);
    if x == [] {
      assert x + [sep] + y == [sep] + y;
      SplitCons(sep, y, sep);
      assert Split(x, sep) == [[]];
    } else {
      var c, t := x[0], x[1..];
      assert x == [c] + t;
      assert x + [sep] + y == [c] + (t + [sep] + y);
      var r := Split(t, sep);
      calc {
        Split(x + [sep] + y, sep);
        Split([c] + (t + [sep] + y), sep);
        { SplitCons(c, t + [sep] + y, sep); SplitAppend(t, y, sep); }
        if c == sep then [[]] + (r + sy) else [[c] + (r + sy)[0]] + (r + sy)[1..];
        { ExtendFirst(c, r, sy); }
        (if c == sep then [[]] + r else [[c] + r[0]] + r[1..]) + sy;
        { SplitCons(c, t, sep); }
        Split(x, sep) + sy;
      }
    }
  }

  /** Splitting a join of separator-free parts gives back the parts. */
  lemma {:induction false} SplitJoin(parts: seq<string>, sep: char)
    requires |parts| >= 1
    requires forall k :: 0 <= k < |parts| ==> sep !in parts[k]
    ensures Split(Join(parts, sep), sep) == parts
    decreases |parts|
  {
    SplitWithoutSeparator(parts[0], sep);
    if |parts| > 1 {
      SplitJoin(parts[1..], sep);
      SplitAppend(parts[0], Join(parts[1..], sep), sep);
      assert [parts[0]] + parts[1..] == parts;
    }
  }

  function LowerChar(c: char): char
  {
    if 'A' <= c <= 'Z' then (c as int - 'A' as int + 'a' as int) as char else c
  }

  /** `s.toLowerCase()` restricted to the ASCII letters A-Z. */
  function ToLower(s: string): (r: string)
    ensures |r| == |s|
    ensures forall i :: 0 <= i < |r| ==> !('A' <= r[i] <= 'Z')
    ensures forall i :: 0 <= i < |s| && !('A' <= s[i] <= 'Z') ==> r[i] == s[i]
  {
    seq(|s|, i requires 0 <= i < |s| => LowerChar(s[i]))
  }

  /** Lower-casing twice is lower-casing once. */
  lemma ToLowerIdempotent(s: string)
    ensures ToLower(ToLower(s)) == ToLower(s)
  {
  }

  /** Two separator-free strings joined by one separator split back into the two. */
  lemma TwoSegments(a: string, b: string)
    requires '/' !in a && '/' !in b
    ensures Split(a + "/" + b, '/') == [a, b]
  {
    assert a + "/" + b == a + ['/'] + b;
    SplitAppend(a, b, '/');
    SplitWithoutSeparator(a, '/');
    SplitWithoutSeparator(b, '/');
  }
}
