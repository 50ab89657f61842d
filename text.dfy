/**
 * JavaScript's `Array.prototype.join` and `String.prototype.split` with a
 * one-character separator, as the consent redirect uses them to carry the
 * selected field ids (`selectedData.join(',')`).
 */
module Text {

  /** `xs.join(sep)`: the elements with one separator between neighbours. */
  function Join(xs: seq<string>, sep: char): string
  {
    if |xs| == 0 then ""
    else if |xs| == 1 then xs[0]
    else xs[0] + [sep] + Join(xs[1..], sep)
  }

  /**
   * `s.split(sep)`: the pieces between separators. As in JavaScript, the
   * result is never empty; the empty string splits into `[""]`.
   */
  function Split(s: string, sep: char): (pieces: seq<string>)
    ensures |pieces| >= 1
    ensures forall i :: 0 <= i < |pieces| ==> sep !in pieces[i]
    decreases |s|
  {
    if |s| == 0 then [""]
    else if s[0] == sep then [""] + Split(s[1..], sep)
    else
      var rest := Split(s[1..], sep);
      [[s[0]] + rest[0]] + rest[1..]
  }

  /** No element of `xs` contains the character `c`. */
  predicate NoneContains(xs: seq<string>, c: char)
  {
    forall i :: 0 <= i < |xs| ==> c !in xs[i]
  }

  /** A string without the separator is one piece. */
  lemma {:induction false} SplitSingle(s: string, sep: char)
    requires sep !in s
    ensures Split(s, sep) == [s]
    decreases |s|
  {
    if |s| > 0 {
      SplitSingle(s[1..], sep);
      assert [s[0]] + s[1..] == s;
    }
  }

  /** Splitting stops at the first separator: the piece before it comes first. */
  lemma {:induction false} SplitAtSeparator(a: string, sep: char, b: string)
    requires sep !in a
    ensures Split(a + [sep] + b, sep) == [a] + Split(b, sep)
    decreases |a|
  {
    if |a| == 0 {
      assert a + [sep] + b == [sep] + b;
      assert ([sep] + b)[1..] == b;
    } else {
      var s := a + [sep] + b;
      assert s[0] == a[0];
      assert s[1..] == a[1..] + [sep] + b;
      SplitAtSeparator(a[1..], sep, b);
      assert [a[0]] + a[1..] == a;
    }
  }

  /**
   * Join and split are inverse when no element contains the separator and
   * the list is not empty (the empty list joins to "", which splits to [""]).
   */
  lemma {:induction false} SplitJoin(xs: seq<string>, sep: char)
    requires |xs| >= 1
    requires NoneContains(xs, sep)
    ensures Split(Join(xs, sep), sep) == xs
  {
    if |xs| == 1 {
      SplitSingle(xs[0], sep);
    } else {
      SplitJoin(xs[1..], sep);
      SplitAtSeparator(xs[0], sep, Join(xs[1..], sep));
      assert [xs[0]] + xs[1..] == xs;
    }
  }

  /** Every character of a join is the separator or a character of some element. */
  lemma {:induction false} JoinChars(xs: seq<string>, sep: char, c: char)
    requires c in Join(xs, sep)
    ensures c == sep || exists i :: 0 <= i < |xs| && c in xs[i]
  {
    if |xs| > 1 {
      var rest := Join(xs[1..], sep);
      assert Join(xs, sep) == xs[0] + [sep] + rest;
      if c !in xs[0] && c != sep {
        assert c in rest;
        JoinChars(xs[1..], sep, c);
        var i :| 0 <= i < |xs[1..]| && c in xs[1..][i];
        assert c in xs[i + 1];
      }
    }
  }

  lemma JoinTwo(a: string, b: string, sep: char)
    ensures Join([a, b], sep) == a + [sep] + b
  {
    assert [a, b][1..] == [b];
  }

  lemma JoinThree(a: string, b: string, c: string, sep: char)
    ensures Join([a, b, c], sep) == a + [sep] + b + [sep] + c
  {
    assert [a, b, c][1..] == [b, c];
    JoinTwo(b, c, sep);
  }

  /** A character that no element and not the separator contains is absent from the join. */
  lemma JoinAvoids(xs: seq<string>, sep: char, c: char)
    requires c != sep && NoneContains(xs, c)
    ensures c !in Join(xs, sep)
  {
    if c in Join(xs, sep) {
      JoinChars(xs, sep, c);
    }
  }

  /** `s.indexOf(c)`-based split at the first occurrence, as a key=value pair is read. */
  function SplitAtFirst(s: string, c: char): (r: (string, string))
    ensures c !in r.0
    ensures c in s ==> s == r.0 + [c] + r.1
    ensures c !in s ==> r == (s, "")
    decreases |s|
  {
    if |s| == 0 then ("", "")
    else if s[0] == c then ("", s[1..])
    else
      var rest := SplitAtFirst(s[1..], c);
      assert [s[0]] + s[1..] == s;
      ([s[0]] + rest.0, rest.1)
  }

  /** Reading `key + c + value` back at the first `c` gives the key and the value. */
  lemma {:induction false} SplitAtFirstOf(key: string, c: char, value: string)
    requires c !in key
    ensures SplitAtFirst(key + [c] + value, c) == (key, value)
    decreases |key|
  {
    if |key| == 0 {
      assert key + [c] + value == [c] + value;
    } else {
      SplitAtFirstOf(key[1..], c, value);
      assert (key + [c] + value)[1..] == key[1..] + [c] + value;
      assert [key[0]] + key[1..] == key;
    }
  }
}
