/**
 * The string operations the statement builders rely on: joining parts with a
 * separator, appending parts each followed by a separator (what a builder loop
 * leaves before it trims the last separator), counting one character, and
 * `String.prototype.split` on a one-character separator.
 */
module Text {

  /** `parts.join(sep)`. Defined from the last part backwards, so a loop that
      appends parts from left to right unfolds it one step per iteration. */
  function Join(parts: seq<string>, sep: string): string
  {
    if |parts| == 0 then ""
    else if |parts| == 1 then parts[0]
    else Join(parts[..|parts| - 1], sep) + sep + parts[|parts| - 1]
  }

  /** A text starts with its first part, and the rest follows it. */
  lemma PrefixOfConcat(a: string, b: string)
    ensures a <= a + b && (a + b)[|a|..] == b
  {
    assert (a + b)[..|a|] == a;
  }

  /** Concatenation regroups freely. */
  lemma ConcatAssoc(a: string, b: string, c: string)
    ensures a + (b + c) == (a + b) + c
  {
  }

  /** A join ends with its last part. */
  lemma JoinEndsWithLast(parts: seq<string>, sep: string)
    requires |parts| > 0
    ensures var j := Join(parts, sep); var x := parts[|parts| - 1];
            |j| >= |x| && j[|j| - |x|..] == x
  {
  }

  /** Every part followed by `sep`: the text a loop doing `query += part + sep`
      has built when it ends, before the final separator is sliced off. */
  function Terminated(parts: seq<string>, sep: string): string
  {
    if |parts| == 0 then ""
    else Terminated(parts[..|parts| - 1], sep) + parts[|parts| - 1] + sep
  }

  /** The number of occurrences of `c` in `s`. */
  function Count(s: string, c: char): nat
  {
    if s == [] then 0 else (if s[0] == c then 1 else 0) + Count(s[1..], c)
  }

  /** `s.split(sep)` for a one-character separator: the pieces between
      separators, empty pieces included. */
  function Split(s: string, sep: char): (parts: seq<string>)
    ensures |parts| >= 1
  {
    if s == [] then [""]
    else
      var rest := Split(s[1..], sep);
      if s[0] == sep then [""] + rest else [[s[0]] + rest[0]] + rest[1..]
  }

  /** Appending one more part appends it and its separator. */
  lemma TerminatedSnoc(parts: seq<string>, x: string, sep: string)
    ensures Terminated(parts + [x], sep) == Terminated(parts, sep) + x + sep
  {
    assert (parts + [x])[..|parts|] == parts;
  }

  /** One more iteration of a builder loop: appending a part and its
      separator to the text built so far. */
  lemma AppendPiece(head: string, parts: seq<string>, x: string, sep: string)
    ensures (head + Terminated(parts, sep)) + (x + sep) == head + Terminated(parts + [x], sep)
  {
    TerminatedSnoc(parts, x, sep);
  }

  /** A loop that appends every part but the last with its separator, and
      the last bare, has built the join. */
  lemma TerminatedThenLast(parts: seq<string>, sep: string)
    requires |parts| > 0
    ensures Terminated(parts[..|parts| - 1], sep) + parts[|parts| - 1] == Join(parts, sep)
  {
    var init := parts[..|parts| - 1];
    if |init| > 0 {
      TerminatedIsJoinThenSep(init, sep);
    }
  }

  /** Slicing the last separator off a terminated list leaves the join. */
  lemma {:induction false} TerminatedIsJoinThenSep(parts: seq<string>, sep: string)
    requires |parts| > 0
    ensures Terminated(parts, sep) == Join(parts, sep) + sep
  {
    if |parts| > 1 {
      var init := parts[..|parts| - 1];
      TerminatedIsJoinThenSep(init, sep);
      assert init[..|init| - 1] == parts[..|parts| - 2];
    }
  }

  /** What `text.slice(0, -|sep|)` leaves once a builder loop has appended at
      least one part: the prefix and the parts joined, with no trailing
      separator. */
  lemma TrimLastSeparator(prefix: string, parts: seq<string>, sep: string)
    requires |parts| > 0
    ensures |prefix + Terminated(parts, sep)| >= |sep|
    ensures (prefix + Terminated(parts, sep))[..|prefix + Terminated(parts, sep)| - |sep|]
            == prefix + Join(parts, sep)
  {
    TerminatedIsJoinThenSep(parts, sep);
    var body := prefix + Join(parts, sep);
    assert prefix + Terminated(parts, sep) == body + sep;
    assert (body + sep)[..|body|] == body;
  }

  /** Joining from the front: the first part, then the separator and the rest. */
  lemma {:induction false} JoinCons(x: string, rest: seq<string>, sep: string)
    ensures Join([x] + rest, sep) == if rest == [] then x else x + sep + Join(rest, sep)
  {
    if |rest| > 1 {
      var init := rest[..|rest| - 1];
      JoinCons(x, init, sep);
      assert ([x] + rest)[..|[x] + rest| - 1] == [x] + init;
    }
  }

  lemma {:induction false} CountAppend(a: string, b: string, c: char)
    ensures Count(a + b, c) == Count(a, c) + Count(b, c)
  {
    if a == [] {
      assert a + b == b;
    } else {
      assert (a + b)[1..] == a[1..] + b;
      CountAppend(a[1..], b, c);
    }
  }

  /** A character occurs zero times exactly when it does not occur. */
  lemma {:induction false} CountZeroIffAbsent(s: string, c: char)
    ensures Count(s, c) == 0 <==> c !in s
  {
    if s != [] {
      CountZeroIffAbsent(s[1..], c);
      assert s == [s[0]] + s[1..];
    }
  }

  /** A prefix without `c` adds no occurrence of it. */
  lemma CountPrefixed(a: string, m: string, c: char)
    requires c !in a
    ensures Count(a + m, c) == Count(m, c)
  {
    CountZeroIffAbsent(a, c);
    CountAppend(a, m, c);
  }

  /** Nor do a prefix and a suffix without `c`. */
  lemma CountFramed(a: string, m: string, b: string, c: char)
    requires c !in a && c !in b
    ensures Count(a + m + b, c) == Count(m, c)
  {
    CountPrefixed(a, m, c);
    CountZeroIffAbsent(b, c);
    CountAppend(a + m, b, c);
  }

  /** When the separator never contains `c` and every part contains it `k`
      times, the join contains it `k` times per part. */
  lemma {:induction false} CountJoin(parts: seq<string>, sep: string, c: char, k: nat)
    requires Count(sep, c) == 0
    requires forall i :: 0 <= i < |parts| ==> Count(parts[i], c) == k
    ensures Count(Join(parts, sep), c) == k * |parts|
  {
    var n := |parts|;
    if n > 1 {
      var init := parts[..n - 1];
      var head := Join(init, sep);
      assert Join(parts, sep) == head + sep + parts[n - 1];
      CountJoin(init, sep, c, k);
      assert Count(head, c) == k * (n - 1);
      CountAppend(head + sep, parts[n - 1], c);
      CountAppend(head, sep, c);
      assert Count(parts[n - 1], c) == k;
      calc {
        Count(Join(parts, sep), c);
        Count(head, c) + Count(sep, c) + Count(parts[n - 1], c);
        k * (n - 1) + k;
        { MulStep(k, n); }
        k * n;
      }
    }
  }

  lemma MulStep(k: nat, n: nat)
    requires n > 0
    ensures k * (n - 1) + k == k * n
  {
  }

  /** Splitting and joining back with the same separator is the identity. */
  lemma {:induction false} SplitJoinRoundTrip(s: string, sep: char)
    ensures Join(Split(s, sep), [sep]) == s
  {
    if s != [] {
      var rest := Split(s[1..], sep);
      SplitJoinRoundTrip(s[1..], sep);
      if s[0] == sep {
        JoinCons("", rest, [sep]);
      } else {
        JoinWidenFirst(s[0], rest, [sep]);
      }
      RejoinHead(Join(Split(s, sep), [sep]), s);
    }
  }

  /** A text that is the first character of `s` and then the rest of `s` is `s`. */
  lemma RejoinHead(t: string, s: string)
    requires s != [] && t == [s[0]] + s[1..]
    ensures t == s
  {
  }

  /** Prefixing the first part with a character prefixes the join with it. */
  lemma JoinWidenFirst(c: char, parts: seq<string>, sep: string)
    requires |parts| > 0
    ensures Join([[c] + parts[0]] + parts[1..], sep) == [c] + Join(parts, sep)
  {
    JoinCons([c] + parts[0], parts[1..], sep);
    JoinCons(parts[0], parts[1..], sep);
    assert parts == [parts[0]] + parts[1..];
  }

  /** No piece of a split contains the separator. */
  lemma {:induction false} SplitPiecesLackSeparator(s: string, sep: char)
    ensures forall i :: 0 <= i < |Split(s, sep)| ==> sep !in Split(s, sep)[i]
  {
    if s != [] {
      var rest := Split(s[1..], sep);
      SplitPiecesLackSeparator(s[1..], sep);
      var parts := Split(s, sep);
      if s[0] == sep {
        assert parts == [""] + rest;
      } else {
        assert parts == [[s[0]] + rest[0]] + rest[1..];
        assert sep !in [s[0]] + rest[0];
      }
    }
  }
}
