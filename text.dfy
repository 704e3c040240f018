/** The few Python string operations the engines use: `str.endswith`,
    `sep.join(parts)` and, as the inverse of the latter, `str.split(sep)`. */
module Text {

  /** `s.endswith(suffix)` */
  predicate EndsWith(s: string, suffix: string) {
    |suffix| <= |s| && s[|s| - |suffix|..] == suffix
  }

  /** `endswith` holds exactly when `s` is some stem followed by `suffix`. */
  lemma EndsWithIffStem(s: string, suffix: string)
    ensures EndsWith(s, suffix) <==> exists stem: string :: s == stem + suffix
  {
    if EndsWith(s, suffix) {
      var stem := s[..|s| - |suffix|];
      assert s == stem + suffix;
    }
    if exists stem: string :: s == stem + suffix {
      var stem: string :| s == stem + suffix;
      assert s[|s| - |suffix|..] == suffix;
    }
  }

  /** Where the three parts of a concatenation sit. */
  lemma Slots(a: string, b: string, c: string)
    ensures (a + b + c)[..|a|] == a
    ensures (a + b + c)[|a|..|a| + |b|] == b
    ensures (a + b + c)[|a| + |b|..] == c
  {
  }

  /** The two halves of a concatenation. */
  lemma Halves(a: string, b: string)
    ensures (a + b)[..|a|] == a
    ensures (a + b)[|a|..] == b
  {
  }

  /** `sep.join(parts)`: the empty list joins to "", a single part to itself. */
  function Join(parts: seq<string>, sep: string): string {
    if |parts| == 0 then ""
    else if |parts| == 1 then parts[0]
    else parts[0] + sep + Join(parts[1..], sep)
  }

  /** `s.split(c)` for a one-character separator: always at least one piece,
      and "" splits to [""]. */
  function Split(s: string, c: char): (pieces: seq<string>)
    ensures |pieces| >= 1
  {
    if s == [] then [""]
    else
      var rest := Split(s[1..], c);
      if s[0] == c then [""] + rest
      else [[s[0]] + rest[0]] + rest[1..]
  }

  /** A string without the separator splits to itself. */
  lemma {:induction false} SplitFree(a: string, c: char)
    requires c !in a
    ensures Split(a, c) == [a]
  {
    if a != [] {
      SplitFree(a[1..], c);
      assert [a[0]] + a[1..] == a;
    }
  }

  /** Splitting stops at the first separator. */
  lemma {:induction false} SplitAtFirst(a: string, c: char, b: string)
    requires c !in a
    ensures Split(a + [c] + b, c) == [a] + Split(b, c)
  {
    if a == [] {
      assert a + [c] + b == [c] + b;
      assert ([c] + b)[1..] == b;
    } else {
      SplitAtFirst(a[1..], c, b);
      assert (a + [c] + b)[1..] == a[1..] + [c] + b;
      assert [a[0]] + a[1..] == a;
    }
  }

  /** Joining separator-free parts with `c` and then more text: the split
      gives back every part, then the pieces of the rest. */
  lemma {:induction false} SplitJoinThen(parts: seq<string>, c: char, rest: string)
    requires |parts| >= 1
    requires forall i :: 0 <= i < |parts| ==> c !in parts[i]
    ensures Split(Join(parts, [c]) + [c] + rest, c) == parts + Split(rest, c)
  {
    if |parts| == 1 {
      assert Join(parts, [c]) == parts[0];
      SplitAtFirst(parts[0], c, rest);
      assert parts == [parts[0]];
    } else {
      var later := parts[1..];
      var tail := Join(later, [c]);
      var more := tail + [c] + rest;
      assert Join(parts, [c]) == parts[0] + [c] + tail;
      assert Join(parts, [c]) + [c] + rest == parts[0] + [c] + more;
      assert forall i :: 0 <= i < |later| ==> later[i] == parts[i + 1];
      SplitJoinThen(later, c, rest);
      SplitAtFirst(parts[0], c, more);
      var whole := Split(Join(parts, [c]) + [c] + rest, c);
      assert whole == [parts[0]] + (later + Split(rest, c));
      assert [parts[0]] + later == parts;
      assert whole == ([parts[0]] + later) + Split(rest, c);
    }
  }

  /** `split` undoes `join` when no part contains the separator and there is
      at least one part (both [] and [""] join to ""). */
  lemma {:induction false} SplitJoin(parts: seq<string>, c: char)
    requires |parts| >= 1
    requires forall i :: 0 <= i < |parts| ==> c !in parts[i]
    ensures Split(Join(parts, [c]), c) == parts
  {
    if |parts| == 1 {
      SplitFree(parts[0], c);
    } else {
      var tail := Join(parts[1..], [c]);
      SplitJoin(parts[1..], c);
      assert Join(parts, [c]) == parts[0] + [c] + tail;
      SplitAtFirst(parts[0], c, tail);
      assert [parts[0]] + parts[1..] == parts;
    }
  }
}
