/** Text helpers used by the chat handler: ASCII lower-casing (the `i` flag of a
    regular expression over ASCII keywords), substring search, and joining and
    splitting text on the newline character (`Array.prototype.join("\n")`). */
module Text {

  /** Lower-cases an ASCII capital letter and leaves every other character alone. */
  function LowerChar(c: char): char
  {
    if 'A' <= c <= 'Z' then (c as int + 32) as char else c
  }

  /** Two characters are equal up to ASCII case. */
  predicate SameIgnoringCase(c: char, d: char)
  {
    LowerChar(c) == LowerChar(d)
  }

  /** ASCII lower-casing of a whole string, character by character. */
  function AsciiLower(s: string): (r: string)
    ensures |r| == |s|
    ensures forall i :: 0 <= i < |s| ==> r[i] == LowerChar(s[i])
  {
    if s == [] then [] else [LowerChar(s[0])] + AsciiLower(s[1..])
  }

  /** `k` occurs in `s` at position `i`. */
  predicate OccursAt(s: string, k: string, i: int)
  {
    0 <= i && i + |k| <= |s| && s[i..i + |k|] == k
  }

  /** Substring search, scanning `s` from the left. */
  function Contains(s: string, k: string): (b: bool)
    ensures b <==> exists i :: OccursAt(s, k, i)
    decreases |s|
  {
    if |k| > |s| then false
    else if s[..|k|] == k then (assert OccursAt(s, k, 0); true)
    else
      var b := Contains(s[1..], k);
      assert b ==> exists i :: OccursAt(s, k, i) by {
        if b {
          var i :| OccursAt(s[1..], k, i);
          assert s[1..][i..i + |k|] == s[i + 1..i + 1 + |k|];
          assert OccursAt(s, k, i + 1);
        }
      }
      assert (exists i :: OccursAt(s, k, i)) ==> b by {
        if exists i :: OccursAt(s, k, i) {
          var i :| OccursAt(s, k, i);
          assert i != 0;
          assert s[1..][i - 1..i - 1 + |k|] == s[i..i + |k|];
          assert OccursAt(s[1..], k, i - 1);
        }
      }
      b
  }

  /** The lines `xs` joined with a newline between consecutive lines,
      as `xs.join("\n")` does. */
  function JoinLines(xs: seq<string>): string
  {
    if |xs| == 0 then ""
    else if |xs| == 1 then xs[0]
    else xs[0] + "\n" + JoinLines(xs[1..])
  }

  /** The pieces of `s` between newlines, as `s.split("\n")` does: always at
      least one piece. */
  function SplitLines(s: string): (r: seq<string>)
    ensures |r| >= 1
  {
    if |s| == 0 then [""]
    else
      var rest := SplitLines(s[1..]);
      if s[0] == '\n' then [""] + rest
      else [[s[0]] + rest[0]] + rest[1..]
  }

  /** A leading newline starts with an empty piece. */
  lemma SplitAfterNewline(s: string)
    ensures SplitLines("\n" + s) == [""] + SplitLines(s)
  {
    assert ("\n" + s)[1..] == s;
  }

  /** Text without a newline is glued onto the first piece of what follows it. */
  lemma {:induction false} SplitLinesPrefix(a: string, b: string)
    requires '\n' !in a
    ensures SplitLines(a + b) == [a + SplitLines(b)[0]] + SplitLines(b)[1..]
    decreases |a|
  {
    if a == [] {
      assert a + b == b;
      assert a + SplitLines(b)[0] == SplitLines(b)[0];
      assert [SplitLines(b)[0]] + SplitLines(b)[1..] == SplitLines(b);
    } else {
      assert (a + b)[1..] == a[1..] + b;
      SplitLinesPrefix(a[1..], b);
      assert [a[0]] + (a[1..] + SplitLines(b)[0]) == a + SplitLines(b)[0];
    }
  }

  /** A line without a newline, then a newline, then any text: the line is the
      first piece and the text's pieces follow. */
  lemma SplitLineThen(a: string, b: string)
    requires '\n' !in a
    ensures SplitLines(a + "\n" + b) == [a] + SplitLines(b)
  {
    assert a + "\n" + b == a + ("\n" + b);
    SplitLinesPrefix(a, "\n" + b);
    SplitAfterNewline(b);
    assert a + "" == a;
  }

  /** Splitting undoes joining, for lines that hold no newline themselves. */
  lemma {:induction false} SplitJoin(xs: seq<string>)
    requires |xs| >= 1
    requires forall i :: 0 <= i < |xs| ==> '\n' !in xs[i]
    ensures SplitLines(JoinLines(xs)) == xs
    decreases |xs|
  {
    if |xs| == 1 {
      SplitLinesPrefix(xs[0], "");
      assert xs[0] + "" == xs[0];
    } else {
      SplitJoin(xs[1..]);
      SplitLineThen(xs[0], JoinLines(xs[1..]));
      assert [xs[0]] + xs[1..] == xs;
    }
  }

  /** Joining undoes splitting: no character of the text is lost or added. */
  lemma {:induction false} JoinSplit(s: string)
    ensures JoinLines(SplitLines(s)) == s
    decreases |s|
  {
    if |s| > 0 {
      var rest := SplitLines(s[1..]);
      JoinSplit(s[1..]);
      if s[0] == '\n' {
        assert ([""] + rest)[1..] == rest;
        assert [s[0]] + s[1..] == s;
      } else {
        var r := [[s[0]] + rest[0]] + rest[1..];
        if |rest| == 1 {
          assert [s[0]] + s[1..] == s;
        } else {
          assert r[1..] == rest[1..];
          assert JoinLines(rest) == rest[0] + "\n" + JoinLines(rest[1..]);
          assert [s[0]] + s[1..] == s;
        }
      }
    }
  }
}
