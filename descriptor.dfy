/**
 * The activity descriptor given on the command line, such as
 * "com.contentsquare.android.demo/.main.ui.MainActivity", and Python's
 * `str.split(sep)` that `AdbCommands.__init__` applies to it.
 */
module Descriptor {
  import opened Wrappers

  /** The separator between the package and the activity name. */
  const Slash: char := '/'

  /** Python's `s.split(sep)` for a one-character separator: the maximal runs between separators. */
  function Split(s: string, sep: char): (parts: seq<string>)
    ensures |parts| >= 1
    ensures forall i :: 0 <= i < |parts| ==> sep !in parts[i]
    decreases |s|
  {
    if |s| == 0 then [[]]
    else
      var rest := Split(s[1..], sep);
      if s[0] == sep then [[]] + rest
      else [[s[0]] + rest[0]] + rest[1..]
  }

  /** Python's `sep.join(parts)`, the inverse of `Split`. */
  function Join(parts: seq<string>, sep: char): string
    requires |parts| >= 1
    decreases |parts|
  {
    if |parts| == 1 then parts[0] else parts[0] + [sep] + Join(parts[1..], sep)
  }

  /** Number of occurrences of `c` in `s`. */
  function Count(s: string, c: char): nat
    decreases |s|
  {
    if |s| == 0 then 0 else (if s[0] == c then 1 else 0) + Count(s[1..], c)
  }

  lemma {:induction false} JoinConsHead(c: char, x: string, tail: seq<string>, sep: char)
    ensures Join([[c] + x] + tail, sep) == [c] + Join([x] + tail, sep)
  {
    if |tail| > 0 {
      assert ([[c] + x] + tail)[1..] == tail;
      assert ([x] + tail)[1..] == tail;
    }
  }

  /** Joining the pieces of a split gives back the original string. */
  lemma {:induction false} JoinSplit(s: string, sep: char)
    ensures Join(Split(s, sep), sep) == s
    decreases |s|
  {
    if |s| > 0 {
      var rest := Split(s[1..], sep);
      JoinSplit(s[1..], sep);
      if s[0] == sep {
        assert ([[]] + rest)[1..] == rest;
        assert s == [sep] + s[1..];
      } else {
        assert [rest[0]] + rest[1..] == rest;
        JoinConsHead(s[0], rest[0], rest[1..], sep);
        assert s == [s[0]] + s[1..];
      }
    }
  }

  /** A split has one more piece than the string has separators. */
  lemma {:induction false} SplitCount(s: string, sep: char)
    ensures |Split(s, sep)| == Count(s, sep) + 1
    decreases |s|
  {
    if |s| > 0 {
      SplitCount(s[1..], sep);
    }
  }

  lemma {:induction false} CountPositive(s: string, c: char)
    ensures Count(s, c) > 0 <==> c in s
    decreases |s|
  {
    if |s| > 0 {
      CountPositive(s[1..], c);
      assert s == [s[0]] + s[1..];
    }
  }

  /** A string without the separator splits into itself alone. */
  lemma {:induction false} SplitWithoutSeparator(s: string, sep: char)
    requires sep !in s
    ensures Split(s, sep) == [s]
    decreases |s|
  {
    if |s| > 0 {
      assert sep !in s[1..];
      SplitWithoutSeparator(s[1..], sep);
      assert [s[0]] + s[1..] == s;
    }
  }

  /** Splitting at a first separator peels off the text in front of it. */
  lemma {:induction false} SplitAtFirst(a: string, sep: char, b: string)
    requires sep !in a
    ensures Split(a + [sep] + b, sep) == [a] + Split(b, sep)
    decreases |a|
  {
    if |a| == 0 {
      assert a + [sep] + b == [sep] + b;
      assert ([sep] + b)[1..] == b;
    } else {
      var s := a + [sep] + b;
      assert s[0] == a[0] && s[1..] == a[1..] + [sep] + b;
      SplitAtFirst(a[1..], sep, b);
      assert [a[0]] + a[1..] == a;
    }
  }

  /** Splitting a join of separator-free pieces gives back the pieces. */
  lemma {:induction false} SplitJoin(parts: seq<string>, sep: char)
    requires |parts| >= 1
    requires forall i :: 0 <= i < |parts| ==> sep !in parts[i]
    ensures Split(Join(parts, sep), sep) == parts
    decreases |parts|
  {
    if |parts| == 1 {
      SplitWithoutSeparator(parts[0], sep);
    } else {
      SplitJoin(parts[1..], sep);
      SplitAtFirst(parts[0], sep, Join(parts[1..], sep));
      assert [parts[0]] + parts[1..] == parts;
    }
  }

  /** The two fields `__init__` derives from the descriptor. */
  datatype Activity = Activity(package: string, name: string)

  /**
   * `activity.split('/')[0]` and `activity.split('/')[1]`; `None` where the
   * second index raises, that is, when the descriptor has no slash.
   */
  function ParseActivity(descriptor: string): (r: Option<Activity>)
    ensures r.Some? <==> Slash in descriptor
    ensures r.Some? ==> Slash !in r.value.package && Slash !in r.value.name
  {
    var parts := Split(descriptor, Slash);
    SplitCount(descriptor, Slash);
    CountPositive(descriptor, Slash);
    if |parts| >= 2 then Some(Activity(parts[0], parts[1])) else None
  }

  /**
   * The package is the text before the first slash, and the activity name is the text
   * between the first slash and the next one (or the end of the descriptor).
   */
  lemma {:induction false} ParseActivityFields(descriptor: string, i: nat)
    requires i < |descriptor| && descriptor[i] == Slash && Slash !in descriptor[..i]
    ensures ParseActivity(descriptor).Some?
    ensures ParseActivity(descriptor).value.package == descriptor[..i]
    ensures var rest := descriptor[i + 1..];
            ParseActivity(descriptor).value.name ==
              if Slash in rest then rest[..FirstIndex(rest, Slash)] else rest
  {
    var rest := descriptor[i + 1..];
    assert descriptor == descriptor[..i] + [Slash] + rest;
    SplitAtFirst(descriptor[..i], Slash, rest);
    if Slash in rest {
      var j := FirstIndex(rest, Slash);
      assert rest == rest[..j] + [Slash] + rest[j + 1..];
      SplitAtFirst(rest[..j], Slash, rest[j + 1..]);
    } else {
      SplitWithoutSeparator(rest, Slash);
    }
  }

  /** Index of the first occurrence of `c` in `s`. */
  function FirstIndex(s: string, c: char): (i: nat)
    requires c in s
    ensures i < |s| && s[i] == c && c !in s[..i]
    decreases |s|
  {
    if s[0] == c then 0
    else
      assert c in s[1..] by { assert s == [s[0]] + s[1..]; }
      var j := FirstIndex(s[1..], c);
      assert s[..j + 1] == [s[0]] + s[1..][..j];
      j + 1
  }

  /** A descriptor written as package/name with one slash yields that package and name. */
  lemma ParseActivityOfComposed(package: string, name: string)
    requires Slash !in package && Slash !in name
    ensures ParseActivity(package + [Slash] + name) == Some(Activity(package, name))
  {
    SplitAtFirst(package, Slash, name);
    SplitWithoutSeparator(name, Slash);
  }
}
