/** The Python string operations the modelled code relies on, for a
    one-character separator: `s.split(sep)`, `s.split(sep, maxsplit)`,
    `sep.join(fields)` and the substring test `sub in s`. */
module PyStr {

  /** Number of occurrences of `c` in `s`. */
  function Count(s: string, c: char): nat
    decreases |s|
  {
    if |s| == 0 then 0 else (if s[0] == c then 1 else 0) + Count(s[1..], c)
  }

  function Min(a: nat, b: nat): nat { if a <= b then a else b }

  /** `sep.join(fields)`. */
  function Join(fields: seq<string>, sep: char): string
    requires |fields| >= 1
    decreases |fields|
  {
    if |fields| == 1 then fields[0] else fields[0] + [sep] + Join(fields[1..], sep)
  }

  /** `s.split(sep)`: every occurrence of `sep` splits, empty fields are kept,
      so there is always one field more than there are separators. */
  function Split(s: string, sep: char): (fields: seq<string>)
    ensures |fields| == Count(s, sep) + 1
    ensures forall i :: 0 <= i < |fields| ==> sep !in fields[i]
    ensures Join(fields, sep) == s
    decreases |s|
  {
    if |s| == 0 then [""]
    else
      var rest := Split(s[1..], sep);
      if s[0] == sep then
        assert s == [sep] + s[1..];
        [""] + rest
      else
        var fields := [[s[0]] + rest[0]] + rest[1..];
        assert fields[1..] == rest[1..];
        assert s == [s[0]] + s[1..];
        fields
  }

  /** `s.split(sep, maxsplit)`: at most `maxsplit` separators, from the left,
      split; the last field keeps the remainder of `s` unsplit. */
  function SplitMax(s: string, sep: char, maxsplit: nat): (fields: seq<string>)
    ensures |fields| == Min(Count(s, sep), maxsplit) + 1
    ensures forall i :: 0 <= i < |fields| - 1 ==> sep !in fields[i]
    ensures Join(fields, sep) == s
    decreases |s|
  {
    if |s| == 0 then [""]
    else if s[0] == sep && maxsplit > 0 then
      assert s == [sep] + s[1..];
      [""] + SplitMax(s[1..], sep, maxsplit - 1)
    else
      var rest := SplitMax(s[1..], sep, maxsplit);
      var fields := [[s[0]] + rest[0]] + rest[1..];
      assert fields[1..] == rest[1..];
      assert s == [s[0]] + s[1..];
      fields
  }

  /** With no more separators than `maxsplit`, the bounded split is the plain one. */
  lemma {:induction false} SplitMaxAgrees(s: string, sep: char, maxsplit: nat)
    requires Count(s, sep) <= maxsplit
    ensures SplitMax(s, sep, maxsplit) == Split(s, sep)
    decreases |s|
  {
    if |s| > 0 {
      if s[0] == sep {
        SplitMaxAgrees(s[1..], sep, maxsplit - 1);
      } else {
        SplitMaxAgrees(s[1..], sep, maxsplit);
      }
    }
  }

  /** Splitting a string that starts with a separator-free piece `a`: `a` is
      glued to the front of the first field and nothing else changes. */
  lemma {:induction false} SplitPrepend(a: string, s: string, sep: char)
    requires sep !in a
    ensures Split(a + s, sep) == [a + Split(s, sep)[0]] + Split(s, sep)[1..]
    decreases |a|
  {
    if |a| > 0 {
      SplitPrepend(a[1..], s, sep);
      assert (a + s)[1..] == a[1..] + s;
      assert [a[0]] + (a[1..] + Split(s, sep)[0]) == a + Split(s, sep)[0];
    } else {
      assert a + s == s;
      assert a + Split(s, sep)[0] == Split(s, sep)[0];
      assert Split(s, sep) == [Split(s, sep)[0]] + Split(s, sep)[1..];
    }
  }

  /** A leading separator contributes an empty first field. */
  lemma SplitAfterSep(rest: string, sep: char)
    ensures Split([sep] + rest, sep) == [""] + Split(rest, sep)
  {
    assert ([sep] + rest)[1..] == rest;
  }

  /** A separator-free `id` followed by nothing or by a separator is the
      whole first field. */
  lemma SplitFirstField(id: string, tail: string, sep: char)
    requires sep !in id && (tail == "" || tail[0] == sep)
    ensures Split(id + tail, sep)[0] == id
  {
    if tail != "" {
      assert tail == [sep] + tail[1..];
      SplitAfterSep(tail[1..], sep);
    }
    SplitPrepend(id, tail, sep);
  }

  /** After a separator-free `head` and one separator, the second field is
      the first field of what follows. */
  lemma SplitSecondField(head: string, rest: string, sep: char)
    requires sep !in head
    ensures |Split(head + ([sep] + rest), sep)| >= 2
    ensures Split(head + ([sep] + rest), sep)[1] == Split(rest, sep)[0]
  {
    SplitAfterSep(rest, sep);
    SplitPrepend(head, [sep] + rest, sep);
  }

  /** Split undoes Join when no field holds the separator (Join undoes Split
      for every string, by Split's own contract). */
  lemma {:induction false} SplitJoin(fields: seq<string>, sep: char)
    requires |fields| >= 1
    requires forall i :: 0 <= i < |fields| ==> sep !in fields[i]
    ensures Split(Join(fields, sep), sep) == fields
    decreases |fields|
  {
    if |fields| == 1 {
      SplitPrepend(fields[0], "", sep);
      assert Split("", sep) == [""];
      assert fields[0] + "" == fields[0];
      assert fields == [fields[0]];
    } else {
      var tail := Join(fields[1..], sep);
      SplitJoin(fields[1..], sep);
      assert ([sep] + tail)[1..] == tail;
      assert Split([sep] + tail, sep) == [""] + fields[1..];
      SplitPrepend(fields[0], [sep] + tail, sep);
      assert Join(fields, sep) == fields[0] + ([sep] + tail);
      assert fields[0] + "" == fields[0];
      assert fields == [fields[0]] + fields[1..];
    }
  }

  /** `s` begins with `prefix`. */
  predicate StartsWith(s: string, prefix: string)
  {
    |prefix| <= |s| && s[..|prefix|] == prefix
  }

  /** Python's substring test `sub in s` (true for an empty `sub`). */
  predicate Contains(s: string, sub: string)
    decreases |s|
  {
    StartsWith(s, sub) || (|s| > 0 && Contains(s[1..], sub))
  }

  /** `sub` occurs in `s` starting at index `i`. */
  ghost predicate OccursAt(s: string, sub: string, i: int)
  {
    0 <= i && i + |sub| <= |s| && s[i..i + |sub|] == sub
  }

  /** The recursive substring test agrees with "occurs at some index". */
  lemma {:induction false} ContainsOccurs(s: string, sub: string)
    ensures Contains(s, sub) <==> exists i :: OccursAt(s, sub, i)
    decreases |s|
  {
    if StartsWith(s, sub) {
      assert OccursAt(s, sub, 0);
    } else if |s| == 0 {
      forall i | OccursAt(s, sub, i) ensures false {
      }
    } else {
      // every occurrence in `s` is one in `s[1..]`, shifted by one
      forall i | OccursAt(s, sub, i) ensures i >= 1 && OccursAt(s[1..], sub, i - 1) {
        assert s[1..][i - 1..i - 1 + |sub|] == s[i..i + |sub|];
      }
      ContainsOccurs(s[1..], sub);
      if Contains(s[1..], sub) {
        var i :| OccursAt(s[1..], sub, i);
        assert s[1..][i..i + |sub|] == s[i + 1..i + 1 + |sub|];
        assert OccursAt(s, sub, i + 1);
      }
    }
  }
}
