/**
  The few operations of Go's strings package that the report side relies on,
  over strings as sequences of Unicode scalar values (one char per rune).
*/
module Strings {

  /** strings.Split with a one-character separator: the pieces between separators, in order. */
  function Split(s: string, sep: char): (parts: seq<string>)
    ensures |parts| >= 1
    ensures forall i :: 0 <= i < |parts| ==> sep !in parts[i]
    ensures |parts| == 1 ==> parts[0] == s
    decreases |s|
  {
    if |s| == 0 then [""]
    else
      var rest := Split(s[1..], sep);
      if s[0] == sep then [""] + rest
      else [[s[0]] + rest[0]] + rest[1..]
  }

  /** strings.Join with a one-character separator. */
  function Join(parts: seq<string>, sep: char): string
    requires |parts| >= 1
    decreases |parts|
  {
    if |parts| == 1 then parts[0] else parts[0] + [sep] + Join(parts[1..], sep)
  }

  /** The last element of a non-empty sequence. */
  function Last<T>(xs: seq<T>): T
    requires |xs| >= 1
  {
    xs[|xs| - 1]
  }

  /** strings.HasSuffix. */
  predicate HasSuffix(s: string, suffix: string)
  {
    |suffix| <= |s| && s[|s| - |suffix|..] == suffix
  }

  /** A string ends with whatever was appended to it last. */
  lemma HasSuffixOfConcat(prefix: string, suffix: string)
    ensures HasSuffix(prefix + suffix, suffix)
  {
    assert (prefix + suffix)[|prefix|..] == suffix;
  }

  /** The concatenation of a sequence of strings, in order. */
  function Concat(pieces: seq<string>): string
    decreases |pieces|
  {
    if pieces == [] then "" else Concat(pieces[..|pieces| - 1]) + pieces[|pieces| - 1]
  }

  /** strings.ToLower restricted to ASCII letters; other characters are kept as they are. */
  function LowerChar(c: char): char
  {
    if 'A' <= c <= 'Z' then (c as int - 'A' as int + 'a' as int) as char else c
  }

  function Lower(s: string): (r: string)
    ensures |r| == |s|
    ensures forall i :: 0 <= i < |s| ==> r[i] == LowerChar(s[i])
  {
    seq(|s|, i requires 0 <= i < |s| => LowerChar(s[i]))
  }

  /** A string without the separator splits into itself alone. */
  lemma {:induction false} SplitWithoutSeparator(s: string, sep: char)
    requires sep !in s
    ensures Split(s, sep) == [s]
    decreases |s|
  {
    if |s| > 0 {
      SplitWithoutSeparator(s[1..], sep);
      assert [s[0]] + s[1..] == s;
    }
  }

  /** A string that starts with the separator splits into an empty piece, then the rest's pieces. */
  lemma SplitConsSeparator(t: string, sep: char)
    ensures Split([sep] + t, sep) == [""] + Split(t, sep)
  {
    assert ([sep] + t)[0] == sep && ([sep] + t)[1..] == t;
  }

  /** Any other first character joins the first piece of the rest. */
  lemma SplitConsOther(c: char, t: string, sep: char)
    requires c != sep
    ensures Split([c] + t, sep) == [[c] + Split(t, sep)[0]] + Split(t, sep)[1..]
  {
    assert ([c] + t)[0] == c && ([c] + t)[1..] == t;
  }

  /** Two piece lists that differ by a tail still do once the first piece grows. */
  lemma GrowFirst(x: string, r: seq<string>, tail: seq<string>)
    requires |r| >= 1
    ensures [x + r[0]] + (r + tail)[1..] == ([x + r[0]] + r[1..]) + tail
  {
    assert (r + tail)[1..] == r[1..] + tail;
  }

  lemma SplitOtherAppend(c: char, u: string, t: string, sep: char, tail: seq<string>)
    requires c != sep && Split(t, sep) == Split(u, sep) + tail
    ensures Split([c] + t, sep) == Split([c] + u, sep) + tail
  {
    var r := Split(u, sep);
    SplitConsOther(c, t, sep);
    SplitConsOther(c, u, sep);
    assert (r + tail)[0] == r[0];
    GrowFirst([c], r, tail);
  }

  lemma SplitSeparatorAppend(u: string, t: string, sep: char, tail: seq<string>)
    requires Split(t, sep) == Split(u, sep) + tail
    ensures Split([sep] + t, sep) == Split([sep] + u, sep) + tail
  {
    SplitConsSeparator(t, sep);
    SplitConsSeparator(u, sep);
    assert ([""] + Split(u, sep)) + tail == [""] + (Split(u, sep) + tail);
  }

  /** Putting one character in front of two strings whose splits differ by a tail keeps that tail. */
  lemma SplitConsAppend(c: char, u: string, t: string, sep: char, tail: seq<string>)
    requires Split(t, sep) == Split(u, sep) + tail
    ensures Split([c] + t, sep) == Split([c] + u, sep) + tail
  {
    if c != sep {
      SplitOtherAppend(c, u, t, sep, tail);
    } else {
      SplitSeparatorAppend(u, t, sep, tail);
    }
  }

  /** Splitting around one separator splits each side independently. */
  lemma {:induction false} SplitAround(a: string, sep: char, b: string)
    ensures Split(a + [sep] + b, sep) == Split(a, sep) + Split(b, sep)
    decreases |a|
  {
    if |a| == 0 {
      assert a + [sep] + b == [sep] + b;
      SplitConsSeparator(b, sep);
    } else {
      var t := a[1..] + [sep] + b;
      SplitAround(a[1..], sep, b);
      SplitConsAppend(a[0], a[1..], t, sep, Split(b, sep));
      assert a + [sep] + b == [a[0]] + t;
      assert a == [a[0]] + a[1..];
    }
  }

  /** Join undoes Split: the pieces and separators put back together give the original string. */
  lemma {:induction false} JoinSplit(s: string, sep: char)
    ensures Join(Split(s, sep), sep) == s
    decreases |s|
  {
    if |s| > 0 {
      JoinSplit(s[1..], sep);
      var rest := Split(s[1..], sep);
      if s[0] == sep {
        assert ([""] + rest)[1..] == rest;
        assert Join([""] + rest, sep) == "" + [sep] + Join(rest, sep);
        assert s == [s[0]] + s[1..];
      } else {
        var parts := [[s[0]] + rest[0]] + rest[1..];
        if |rest| == 1 {
          assert parts == [[s[0]] + rest[0]];
          assert s == [s[0]] + s[1..];
        } else {
          assert parts[1..] == rest[1..];
          assert Join(rest, sep) == rest[0] + [sep] + Join(rest[1..], sep);
          assert Join(parts, sep) == [s[0]] + rest[0] + [sep] + Join(rest[1..], sep);
          assert s == [s[0]] + s[1..];
        }
      }
    }
  }

  /** Split undoes Join when no piece contains the separator. */
  lemma {:induction false} SplitJoin(parts: seq<string>, sep: char)
    requires |parts| >= 1
    requires forall i :: 0 <= i < |parts| ==> sep !in parts[i]
    ensures Split(Join(parts, sep), sep) == parts
    decreases |parts|
  {
    SplitWithoutSeparator(parts[0], sep);
    if |parts| > 1 {
      SplitJoin(parts[1..], sep);
      SplitAround(parts[0], sep, Join(parts[1..], sep));
      assert [parts[0]] + parts[1..] == parts;
    }
  }

  /** Join peels its last piece off the back: everything before the final separator, then the last piece. */
  lemma {:induction false} JoinLast(parts: seq<string>, sep: char)
    requires |parts| >= 2
    ensures Join(parts, sep) == Join(parts[..|parts| - 1], sep) + [sep] + Last(parts)
    decreases |parts|
  {
    if |parts| > 2 {
      JoinLast(parts[1..], sep);
      assert parts[1..][..|parts| - 2] == parts[..|parts| - 1][1..];
    }
  }
}
