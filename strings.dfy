/** The few JavaScript string operations the application relies on:
    `split` with a one-character separator, ASCII `toLowerCase`, truthiness
    of a nullable string, and the "contains" relation used to state what a
    prompt mentions. */
module Strings {
  import opened Wrappers

  /** A nullable string is truthy in JavaScript when it is present and not empty. */
  predicate Truthy(s: Option<string>): (truthy: bool)
    ensures truthy ==> s.Some?
    ensures s == Some("") ==> !truthy
  {
    s.Some? && s.value != ""
  }

  /** `s.split(sep)`: the fields between occurrences of `sep`, left to right.
      There is always at least one field; "" splits into [""]. */
  function Split(s: string, sep: char): (fields: seq<string>)
    ensures |fields| >= 1
  {
    if s == [] then [""]
    else
      var rest := Split(s[1..], sep);
      if s[0] == sep then [""] + rest
      else [[s[0]] + rest[0]] + rest[1..]
  }

  /** `fields.join(sep)`, the inverse of Split. */
  function Join(fields: seq<string>, sep: char): string
    requires |fields| >= 1
  {
    if |fields| == 1 then fields[0] else fields[0] + [sep] + Join(fields[1..], sep)
  }

  /** Joining the fields of a split gives back the original string, and no
      field contains the separator. */
  lemma {:induction false} SplitJoin(s: string, sep: char)
    ensures Join(Split(s, sep), sep) == s
    ensures forall i :: 0 <= i < |Split(s, sep)| ==> sep !in Split(s, sep)[i]
  {
    if s != [] {
      var rest := Split(s[1..], sep);
      SplitJoin(s[1..], sep);
      if s[0] == sep {
        assert s == [sep] + s[1..];
      } else if |rest| == 1 {
        assert s == [s[0]] + s[1..];
      } else {
        var f := Split(s, sep);
        assert f[1..] == rest[1..];
        calc {
          Join(f, sep);
          ([s[0]] + rest[0]) + [sep] + Join(rest[1..], sep);
          [s[0]] + (rest[0] + [sep] + Join(rest[1..], sep));
          [s[0]] + s[1..];
        }
        assert [s[0]] + s[1..] == s;
        forall i | 0 <= i < |f| ensures sep !in f[i] {
          if i > 0 { assert f[i] == rest[i]; }
        }
      }
    }
  }

  /** Splitting the join of separator-free fields gives the fields back. */
  lemma {:induction false} JoinSplit(fields: seq<string>, sep: char)
    requires |fields| >= 1
    requires forall i :: 0 <= i < |fields| ==> sep !in fields[i]
    ensures Split(Join(fields, sep), sep) == fields
  {
    if |fields| == 1 {
      SplitWithoutSeparator(fields[0], sep);
    } else {
      JoinSplit(fields[1..], sep);
      SplitAtFirstSeparator(fields[0], sep, Join(fields[1..], sep));
      assert [fields[0]] + fields[1..] == fields;
    }
  }

  /** A string without the separator is a single field. */
  lemma {:induction false} SplitWithoutSeparator(s: string, sep: char)
    requires sep !in s
    ensures Split(s, sep) == [s]
  {
    if s != [] {
      SplitWithoutSeparator(s[1..], sep);
      assert [s[0]] + s[1..] == s;
    }
  }

  /** Splitting at the first separator peels off the first field. */
  lemma {:induction false} SplitAtFirstSeparator(pre: string, sep: char, rest: string)
    requires sep !in pre
    ensures Split(pre + [sep] + rest, sep) == [pre] + Split(rest, sep)
  {
    var s := pre + [sep] + rest;
    if pre == [] {
      assert s[1..] == rest;
    } else {
      assert s[1..] == pre[1..] + [sep] + rest;
      SplitAtFirstSeparator(pre[1..], sep, rest);
      assert [pre[0]] + pre[1..] == pre;
    }
  }

  /** A split yields a single field exactly when the separator does not occur. */
  lemma {:induction false} SplitSingleFieldIff(s: string, sep: char)
    ensures |Split(s, sep)| == 1 <==> sep !in s
  {
    if s != [] {
      SplitSingleFieldIff(s[1..], sep);
      assert s == [s[0]] + s[1..];
    }
  }

  /** ASCII case folding, as `toLowerCase` acts on ASCII letters. */
  function LowerChar(c: char): char {
    if 'A' <= c <= 'Z' then (c as int + 32) as char else c
  }

  /** `s.toLowerCase()` for ASCII text. */
  function Lower(s: string): (lower: string)
    ensures |lower| == |s|
    ensures forall i :: 0 <= i < |lower| ==> !('A' <= lower[i] <= 'Z')
    ensures forall i :: 0 <= i < |s| && !('A' <= s[i] <= 'Z') ==> lower[i] == s[i]
    ensures forall i :: 0 <= i < |s| && 'A' <= s[i] <= 'Z' ==> lower[i] as int == s[i] as int + 32
  {
    seq(|s|, i requires 0 <= i < |s| => LowerChar(s[i]))
  }

  /** `s.includes(t)`. */
  ghost predicate Occurs(t: string, s: string) {
    exists i :: 0 <= i <= |s| && t <= s[i..]
  }

  /** A fragment spliced between two others occurs in the result. */
  lemma OccursBetween(a: string, t: string, b: string)
    ensures Occurs(t, a + t + b)
  {
    assert (a + t + b)[|a|..] == t + b;
  }

  /** A fragment of a string is also a fragment of any extension of it. */
  lemma OccursInExtension(t: string, a: string, b: string)
    requires Occurs(t, a)
    ensures Occurs(t, a + b)
  {
    var i :| 0 <= i <= |a| && t <= a[i..];
    assert (a + b)[i..] == a[i..] + b;
  }

  /** Equal strings that share a prefix and a suffix agree in the middle. */
  lemma CancelAround(a: string, x: string, y: string, b: string)
    requires a + x + b == a + y + b
    ensures x == y
  {
    assert (a + x + b)[|a|..] == x + b;
    assert (a + y + b)[|a|..] == y + b;
    assert |x| == |y|;
    assert (x + b)[..|x|] == x;
    assert (y + b)[..|y|] == y;
  }
}
