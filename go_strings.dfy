/**
 * The two Go standard-library string operations the program relies on, with
 * the semantics Go gives them for a one-character separator and a non-empty
 * pattern:
 *   - strings.Split(s, sep): every occurrence of sep ends a field, empty
 *     fields are kept, and there is always one field more than there are
 *     separators;
 *   - strings.ReplaceAll(s, pat, ""): scanning left to right, every
 *     non-overlapping occurrence of pat is deleted.
 */
module GoStrings {

  /** Number of occurrences of `c` in `s`. */
  function Count(s: string, c: char): nat
  {
    if s == [] then 0 else (if s[0] == c then 1 else 0) + Count(s[1..], c)
  }

  /** strings.Split with a one-character separator. */
  function Split(s: string, sep: char): (fields: seq<string>)
    ensures |fields| == Count(s, sep) + 1
    ensures forall i :: 0 <= i < |fields| ==> sep !in fields[i]
  {
    if s == [] then
      [[]]
    else
      var rest := Split(s[1..], sep);
      if s[0] == sep then [[]] + rest
      else [[s[0]] + rest[0]] + rest[1..]
  }

  /** strings.Join: the fields with one separator between neighbours. */
  function Join(fields: seq<string>, sep: char): string
    requires |fields| >= 1
  {
    if |fields| == 1 then fields[0] else fields[0] + [sep] + Join(fields[1..], sep)
  }

  /** No field of `fields` contains the separator. */
  predicate SeparatorFree(fields: seq<string>, sep: char)
  {
    forall i :: 0 <= i < |fields| ==> sep !in fields[i]
  }

  /** Joining the fields of a split gives back the original string. */
  lemma {:induction false} JoinSplit(s: string, sep: char)
    ensures Join(Split(s, sep), sep) == s
  {
    if s != [] {
      var rest := Split(s[1..], sep);
      JoinSplit(s[1..], sep);
      if s[0] == sep {
        assert ([[]] + rest)[1..] == rest;
      } else if |rest| > 1 {
        var fields := [[s[0]] + rest[0]] + rest[1..];
        assert fields[1..] == rest[1..];
        assert Join(rest, sep) == rest[0] + [sep] + Join(rest[1..], sep);
      }
    }
  }

  /** A string without the separator is a single field. */
  lemma {:induction false} SplitNoSeparator(a: string, sep: char)
    requires sep !in a
    ensures Split(a, sep) == [a]
  {
    if a != [] {
      SplitNoSeparator(a[1..], sep);
      assert [a[0]] + a[1..] == a;
    }
  }

  /** A separator-free prefix followed by a separator becomes the first field. */
  lemma {:induction false} SplitCons(a: string, sep: char, b: string)
    requires sep !in a
    ensures Split(a + [sep] + b, sep) == [a] + Split(b, sep)
  {
    var s := a + [sep] + b;
    if a == [] {
      assert s[0] == sep && s[1..] == b;
    } else {
      assert s[0] == a[0] && s[1..] == a[1..] + [sep] + b;
      SplitCons(a[1..], sep, b);
      var rest := Split(s[1..], sep);
      assert rest[0] == a[1..] && rest[1..] == Split(b, sep);
      assert [a[0]] + a[1..] == a;
    }
  }

  /** Text after a join of several fields regroups as the first field, a
      separator and the join of the others followed by that text. */
  lemma {:induction false} JoinRegroup(fields: seq<string>, sep: char, rest: string)
    requires |fields| >= 2
    ensures Join(fields, sep) + [sep] + rest == fields[0] + [sep] + (Join(fields[1..], sep) + [sep] + rest)
  {
    var j := Join(fields[1..], sep);
    assert Join(fields, sep) == fields[0] + [sep] + j;
  }

  /** Splitting separator-free fields joined with the separator, and followed by
      more text after one more separator, recovers the fields first. */
  lemma {:induction false} SplitJoinThen(fields: seq<string>, sep: char, rest: string)
    requires |fields| >= 1 && SeparatorFree(fields, sep)
    ensures Split(Join(fields, sep) + [sep] + rest, sep) == fields + Split(rest, sep)
  {
    if |fields| == 1 {
      SplitCons(fields[0], sep, rest);
    } else {
      JoinRegroup(fields, sep, rest);
      assert sep !in fields[0];
      SplitCons(fields[0], sep, Join(fields[1..], sep) + [sep] + rest);
      assert SeparatorFree(fields[1..], sep) by {
        forall i | 0 <= i < |fields[1..]| ensures sep !in fields[1..][i] {
          assert fields[1..][i] == fields[i + 1];
        }
      }
      SplitJoinThen(fields[1..], sep, rest);
      assert [fields[0]] + (fields[1..] + Split(rest, sep)) == fields + Split(rest, sep);
    }
  }

  /** Split is the inverse of Join on separator-free fields. */
  lemma {:induction false} SplitJoin(fields: seq<string>, sep: char)
    requires |fields| >= 1 && SeparatorFree(fields, sep)
    ensures Split(Join(fields, sep), sep) == fields
  {
    if |fields| == 1 {
      SplitNoSeparator(fields[0], sep);
    } else {
      SplitCons(fields[0], sep, Join(fields[1..], sep));
      SplitJoin(fields[1..], sep);
      assert [fields[0]] + fields[1..] == fields;
    }
  }

  /** `pat` occurs in `s` starting at position `i`. */
  predicate OccursAt(s: string, pat: string, i: int)
  {
    0 <= i && i + |pat| <= |s| && s[i..i + |pat|] == pat
  }

  /** `pat` occurs somewhere in `s`. */
  predicate Contains(s: string, pat: string)
  {
    exists i :: 0 <= i <= |s| - |pat| && OccursAt(s, pat, i)
  }

  /** strings.ReplaceAll(s, pat, "") for a non-empty pattern. */
  function RemoveAll(s: string, pat: string): (r: string)
    requires |pat| > 0
    ensures |r| <= |s|
    ensures forall c :: c in r ==> c in s
    decreases |s|
  {
    if |s| < |pat| then s
    else if s[..|pat|] == pat then RemoveAll(s[|pat|..], pat)
    else [s[0]] + RemoveAll(s[1..], pat)
  }

  /** An occurrence of `pat` in `s[1..]` is one in `s`, one position later. */
  lemma {:induction false} ContainsShift(s: string, pat: string)
    requires |s| > 0
    ensures Contains(s[1..], pat) <==> (exists i :: 1 <= i && OccursAt(s, pat, i))
  {
    if Contains(s[1..], pat) {
      var i :| 0 <= i <= |s[1..]| - |pat| && OccursAt(s[1..], pat, i);
      assert s[i + 1..i + 1 + |pat|] == s[1..][i..i + |pat|];
      assert OccursAt(s, pat, i + 1);
    }
    if exists i :: 1 <= i && OccursAt(s, pat, i) {
      var i :| 1 <= i && OccursAt(s, pat, i);
      assert s[1..][i - 1..i - 1 + |pat|] == s[i..i + |pat|];
      assert OccursAt(s[1..], pat, i - 1);
    }
  }

  /** RemoveAll shortens its input exactly when the pattern occurs in it. */
  lemma {:induction false} RemoveAllLength(s: string, pat: string)
    requires |pat| > 0
    ensures |RemoveAll(s, pat)| == |s| <==> !Contains(s, pat)
    ensures !Contains(s, pat) ==> RemoveAll(s, pat) == s
    decreases |s|
  {
    if |s| < |pat| {
      assert forall i :: !OccursAt(s, pat, i);
    } else if s[..|pat|] == pat {
      assert OccursAt(s, pat, 0);
    } else {
      RemoveAllLength(s[1..], pat);
      ContainsShift(s, pat);
      assert !OccursAt(s, pat, 0);
      if Contains(s, pat) {
        var i :| 0 <= i <= |s| - |pat| && OccursAt(s, pat, i);
        assert i != 0;
      } else {
        assert [s[0]] + s[1..] == s;
      }
    }
  }

  /** ReplaceAll with "" changes its input if and only if the pattern occurs in it. */
  lemma {:induction false} RemoveAllUnchangedIff(s: string, pat: string)
    requires |pat| > 0
    ensures RemoveAll(s, pat) == s <==> !Contains(s, pat)
  {
    RemoveAllLength(s, pat);
  }
}
