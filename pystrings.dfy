/**
 * The two Python string operations the tag module relies on, with their exact
 * Python semantics: `s.split(sep)` for a one-character separator and the slice
 * `s[1:-1]`.
 */
module PyStrings {

  /** `s.split(sep)`: the pieces of `s` between the occurrences of `sep`, empty pieces included. */
  function Split(s: string, sep: char): (r: seq<string>)
    ensures |r| >= 1
    decreases |s|
  {
    if s == [] then [""]
    else
      var rest := Split(s[1..], sep);
      if s[0] == sep then [""] + rest
      else [[s[0]] + rest[0]] + rest[1..]
  }

  /** `sep.join(parts)`: the partner of Split. */
  function Join(parts: seq<string>, sep: char): string
    requires |parts| >= 1
  {
    if |parts| == 1 then parts[0] else parts[0] + [sep] + Join(parts[1..], sep)
  }

  /** Joining the pieces again gives back the string, and no piece holds the separator. */
  lemma {:induction false} SplitJoin(s: string, sep: char)
    ensures Join(Split(s, sep), sep) == s
    ensures forall i :: 0 <= i < |Split(s, sep)| ==> sep !in Split(s, sep)[i]
  {
    if s != [] {
      SplitJoin(s[1..], sep);
      var rest := Split(s[1..], sep);
      var r := Split(s, sep);
      if s[0] == sep {
        assert r[1..] == rest;
        assert s == [sep] + s[1..];
      } else {
        assert r[0] == [s[0]] + rest[0];
        assert r[1..] == rest[1..];
        if |rest| == 1 {
          assert s == [s[0]] + s[1..];
        } else {
          assert Join(rest, sep) == rest[0] + [sep] + Join(rest[1..], sep);
          assert s == [s[0]] + s[1..];
        }
        forall i | 0 <= i < |r| ensures sep !in r[i] {
          if i > 0 {
            assert r[i] == rest[i];
          }
        }
      }
    }
  }

  /** A string without the separator splits into itself alone. */
  lemma {:induction false} SplitWithoutSep(k: string, sep: char)
    requires sep !in k
    ensures Split(k, sep) == [k]
  {
    if k != [] {
      SplitWithoutSep(k[1..], sep);
      assert [k[0]] + k[1..] == k;
    }
  }

  /** A leading separator-free piece is split off as the first piece. */
  lemma {:induction false} SplitAfterPiece(k: string, sep: char, rest: string)
    requires sep !in k
    ensures Split(k + [sep] + rest, sep) == [k] + Split(rest, sep)
  {
    var s := k + [sep] + rest;
    if k == [] {
      assert s[1..] == rest;
    } else {
      assert s[1..] == k[1..] + [sep] + rest;
      SplitAfterPiece(k[1..], sep, rest);
      assert [k[0]] + k[1..] == k;
    }
  }

  /** `a, b = s.split(sep)` succeeds exactly when `s` holds the separator once. */
  lemma SplitInTwo(s: string, sep: char, a: string, b: string)
    ensures Split(s, sep) == [a, b] <==> s == a + [sep] + b && sep !in a && sep !in b
  {
    if Split(s, sep) == [a, b] {
      SplitJoin(s, sep);
      assert Join([a, b], sep) == a + [sep] + Join([b], sep);
      assert Split(s, sep)[0] == a && Split(s, sep)[1] == b;
    }
    if s == a + [sep] + b && sep !in a && sep !in b {
      SplitAfterPiece(a, sep, b);
      SplitWithoutSep(b, sep);
    }
  }

  /** There is one piece more than there are separators. */
  lemma {:induction false} SplitCount(s: string, sep: char)
    ensures |Split(s, sep)| == multiset(s)[sep] + 1
  {
    if s != [] {
      SplitCount(s[1..], sep);
      assert s == [s[0]] + s[1..];
      assert multiset(s) == multiset([s[0]]) + multiset(s[1..]);
    }
  }

  /** Python's slice `s[1:-1]`, which is empty for strings shorter than two characters. */
  function Inner(s: string): (r: string)
    ensures |r| == if |s| >= 2 then |s| - 2 else 0
    ensures forall i :: 0 <= i < |r| ==> r[i] == s[i + 1]
  {
    if |s| >= 2 then s[1..|s| - 1] else ""
  }
}
