/** The JavaScript string operations the pipeline relies on: `split` on a
    one-character separator, `join`, and `toUpperCase` on a single character. */
module Text {

  /** JavaScript's `split` for a one-character separator. It always yields at
      least one part: the empty string splits into one empty part, and a
      trailing separator yields a trailing empty part. */
  function Split(s: string, sep: char): (parts: seq<string>)
    ensures |parts| >= 1
    ensures forall i :: 0 <= i < |parts| ==> sep !in parts[i]
    decreases |s|
  {
    if s == [] then [""]
    else
      var rest := Split(s[1..], sep);
      if s[0] == sep then [""] + rest
      else [[s[0]] + rest[0]] + rest[1..]
  }

  /** The parts with the separator between consecutive ones (JavaScript's `join`). */
  function Join(parts: seq<string>, sep: char): string
  {
    if |parts| == 0 then ""
    else if |parts| == 1 then parts[0]
    else parts[0] + [sep] + Join(parts[1..], sep)
  }

  /** The last part of a non-empty list (what `pop` returns). */
  function Last(parts: seq<string>): string
    requires |parts| >= 1
  {
    parts[|parts| - 1]
  }

  /** `suffix` ends `s`. */
  predicate IsSuffix(suffix: string, s: string)
  {
    |suffix| <= |s| && s[|s| - |suffix|..] == suffix
  }

  /** Joining the parts of a split with the same separator gives back the input. */
  lemma {:induction false} JoinSplit(s: string, sep: char)
    ensures Join(Split(s, sep), sep) == s
    decreases |s|
  {
    if s != [] {
      var rest := Split(s[1..], sep);
      JoinSplit(s[1..], sep);
      if s[0] == sep {
        assert Split(s, sep) == [""] + rest;
        assert ([""] + rest)[1..] == rest;
        assert Join([""] + rest, sep) == "" + [sep] + Join(rest, sep);
        assert s == [s[0]] + s[1..];
      } else {
        var parts := [[s[0]] + rest[0]] + rest[1..];
        assert parts[1..] == rest[1..];
        if |rest| == 1 {
          assert Join(rest, sep) == rest[0];
          assert Join(parts, sep) == [s[0]] + rest[0];
        } else {
          assert Join(rest, sep) == rest[0] + [sep] + Join(rest[1..], sep);
          assert Join(parts, sep) == [s[0]] + rest[0] + [sep] + Join(rest[1..], sep);
        }
        assert s == [s[0]] + s[1..];
      }
    }
  }

  /** A string without the separator splits into itself alone. */
  lemma {:induction false} SplitWithoutSeparator(s: string, sep: char)
    requires sep !in s
    ensures Split(s, sep) == [s]
    decreases |s|
  {
    if s != [] {
      SplitWithoutSeparator(s[1..], sep);
      assert s == [s[0]] + s[1..];
    }
  }

  /** Splitting at the first separator: the text before it is the first part and
      the rest is split on its own. */
  lemma {:induction false} SplitAtSeparator(w: string, rest: string, sep: char)
    requires sep !in w
    ensures Split(w + [sep] + rest, sep) == [w] + Split(rest, sep)
    decreases |w|
  {
    var s := w + [sep] + rest;
    if w == [] {
      assert s[1..] == rest;
    } else {
      assert s[1..] == w[1..] + [sep] + rest;
      SplitAtSeparator(w[1..], rest, sep);
      assert w == [w[0]] + w[1..];
    }
  }

  /** The first part of a split is the text before the first separator: a prefix of `s`
      without the separator that is either all of `s` or followed by `sep`. */
  lemma {:induction false} FirstSegment(s: string, sep: char)
    ensures var p := Split(s, sep)[0];
      p <= s && sep !in p && (|p| == |s| || s[|p|] == sep)
    decreases |s|
  {
    if s != [] && s[0] != sep {
      FirstSegment(s[1..], sep);
    }
  }

  /** The last part of a split is the text after the last separator: a suffix of `s`
      without the separator that is either all of `s` or preceded by `sep`. */
  lemma {:induction false} LastSegment(s: string, sep: char)
    ensures IsSuffix(Last(Split(s, sep)), s)
    ensures sep !in Last(Split(s, sep))
    ensures |Last(Split(s, sep))| == |s| || s[|s| - |Last(Split(s, sep))| - 1] == sep
    decreases |s|
  {
    if s != [] {
      var tail := s[1..];
      LastSegment(tail, sep);
      var q := Last(Split(tail, sep));
      assert tail[|tail| - |q|..] == s[|s| - |q|..];
      if s[0] != sep && |Split(tail, sep)| == 1 {
        LastOfSingleSplit(s, sep);
      } else {
        LastOfLongerSplit(s, sep);
        assert |q| < |s|;
        if |q| == |tail| {
          assert q == tail;
          SplitWithoutSeparator(tail, sep);
        }
      }
    }
  }

  /** When the tail has no separator and the head is not one, the last part is
      the whole string. */
  lemma LastOfSingleSplit(s: string, sep: char)
    requires s != [] && s[0] != sep && |Split(s[1..], sep)| == 1
    ensures Last(Split(s, sep)) == s
  {
    JoinSplit(s[1..], sep);
    assert s == [s[0]] + s[1..];
  }

  /** Otherwise the last part is the last part of the tail. */
  lemma LastOfLongerSplit(s: string, sep: char)
    requires s != [] && (s[0] == sep || |Split(s[1..], sep)| > 1)
    ensures Last(Split(s, sep)) == Last(Split(s[1..], sep))
  {
  }

  /** Upper-casing of the ASCII letters; every other character is unchanged. */
  function ToUpper(c: char): (u: char)
    ensures 'a' <= c <= 'z' ==> 'A' <= u <= 'Z' && u as int - 'A' as int == c as int - 'a' as int
    ensures !('a' <= c <= 'z') ==> u == c
  {
    if 'a' <= c <= 'z' then (c as int - 'a' as int + 'A' as int) as char else c
  }
}
