/**
 * String helpers with the JavaScript meaning the handlers rely on:
 * ASCII case mapping (`toLowerCase`/`toUpperCase` restricted to ASCII letters),
 * `startsWith`, and `split` on a single separator character with its
 * inverse `join`.
 */
module Text {

  function LowerChar(c: char): char
  {
    if 'A' <= c <= 'Z' then (c as int + 32) as char else c
  }

  function UpperChar(c: char): char
  {
    if 'a' <= c <= 'z' then (c as int - 32) as char else c
  }

  /** `s.toLowerCase()` on ASCII letters: every character is mapped on its own. */
  function Lower(s: string): (r: string)
    ensures |r| == |s|
    ensures forall i :: 0 <= i < |s| ==> r[i] == LowerChar(s[i])
  {
    if s == [] then [] else [LowerChar(s[0])] + Lower(s[1..])
  }

  /** `s.toUpperCase()` on ASCII letters. */
  function Upper(s: string): (r: string)
    ensures |r| == |s|
    ensures forall i :: 0 <= i < |s| ==> r[i] == UpperChar(s[i])
  {
    if s == [] then [] else [UpperChar(s[0])] + Upper(s[1..])
  }

  /** Lower-casing forgets an earlier upper-casing: case-insensitive lookups agree on both. */
  lemma LowerOfUpper(s: string)
    ensures Lower(Upper(s)) == Lower(s)
  {
    var a, b := Lower(Upper(s)), Lower(s);
    assert |a| == |b|;
    forall i | 0 <= i < |a|
      ensures a[i] == b[i]
    {
      var c := s[i];
      assert a[i] == LowerChar(UpperChar(c));
    }
  }

  /** Lower-casing twice is lower-casing once. */
  lemma LowerIdempotent(s: string)
    ensures Lower(Lower(s)) == Lower(s)
  {
    var a := Lower(Lower(s));
    forall i | 0 <= i < |s|
      ensures a[i] == Lower(s)[i]
    {
    }
  }

  /** `s.startsWith(prefix)`. */
  predicate StartsWith(s: string, prefix: string)
  {
    |prefix| <= |s| && s[..|prefix|] == prefix
  }

  /** A string keeps every prefix it had when something is appended to it. */
  lemma StartsWithAppend(s: string, prefix: string, suffix: string)
    requires StartsWith(s, prefix)
    ensures StartsWith(s + suffix, prefix)
  {
    assert (s + suffix)[..|prefix|] == s[..|prefix|];
  }

  /**
   * `s.split(sep)` for a one-character separator: the fields between
   * separators, in order; the empty string yields one empty field.
   */
  function Split(s: string, sep: char): (r: seq<string>)
    ensures |r| >= 1
    ensures forall i :: 0 <= i < |r| ==> sep !in r[i]
  {
    if s == [] then [""]
    else if s[0] == sep then [""] + Split(s[1..], sep)
    else
      var rest := Split(s[1..], sep);
      [[s[0]] + rest[0]] + rest[1..]
  }

  /** `fields.join(sep)`: the partner of `Split`. */
  function Join(fields: seq<string>, sep: char): string
    requires |fields| >= 1
  {
    if |fields| == 1 then fields[0] else fields[0] + [sep] + Join(fields[1..], sep)
  }

  /** Splitting and joining again gives back the original text. */
  lemma {:induction false} JoinSplit(s: string, sep: char)
    ensures Join(Split(s, sep), sep) == s
  {
    if s == [] {
    } else if s[0] == sep {
      JoinSplit(s[1..], sep);
      assert [sep] + s[1..] == s;
    } else {
      JoinSplit(s[1..], sep);
      var rest := Split(s[1..], sep);
      if |rest| == 1 {
        assert [s[0]] + rest[0] == s;
      } else {
        assert Split(s, sep)[1..] == rest[1..];
        assert ([s[0]] + rest[0]) + [sep] + Join(rest[1..], sep)
            == [s[0]] + (rest[0] + [sep] + Join(rest[1..], sep));
        assert [s[0]] + s[1..] == s;
      }
    }
  }

  /** Joining fields free of the separator and splitting again gives back the fields. */
  lemma {:induction false} SplitJoin(fields: seq<string>, sep: char)
    requires |fields| >= 1
    requires forall i :: 0 <= i < |fields| ==> sep !in fields[i]
    ensures Split(Join(fields, sep), sep) == fields
  {
    if |fields| == 1 {
      SplitNoSeparator(fields[0], sep);
    } else {
      SplitJoin(fields[1..], sep);
      SplitAfterField(fields[0], Join(fields[1..], sep), sep);
      assert Join(fields, sep) == fields[0] + [sep] + Join(fields[1..], sep);
      assert [fields[0]] + fields[1..] == fields;
    }
  }

  /** Text without the separator splits into itself alone. */
  lemma {:induction false} SplitNoSeparator(s: string, sep: char)
    requires sep !in s
    ensures Split(s, sep) == [s]
  {
    if s != [] {
      assert sep !in s[1..];
      SplitNoSeparator(s[1..], sep);
      assert [s[0]] + s[1..] == s;
    }
  }

  /** A leading separator-free field followed by the separator is split off first. */
  lemma {:induction false} SplitAfterField(field: string, rest: string, sep: char)
    requires sep !in field
    ensures Split(field + [sep] + rest, sep) == [field] + Split(rest, sep)
  {
    if field == [] {
      assert field + [sep] + rest == [sep] + rest;
      assert ([sep] + rest)[1..] == rest;
    } else {
      var s := field + [sep] + rest;
      assert s[0] == field[0];
      assert s[1..] == field[1..] + [sep] + rest;
      assert sep !in field[1..];
      SplitAfterField(field[1..], rest, sep);
      assert [field[0]] + field[1..] == field;
    }
  }
}
