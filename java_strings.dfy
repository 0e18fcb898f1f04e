/**
 * The part of java.lang.String the configuration parser relies on:
 * `split(sep)` with a separator that has no regular-expression
 * metacharacters (so it matches literally) and the default limit 0.
 *
 * Java splits around the leftmost non-overlapping occurrences of the
 * separator, scanning left to right; with limit 0 it then drops trailing
 * empty fields, and an input with no occurrence at all comes back as the
 * one-element array holding the input itself (even when the input is empty).
 */
module JavaStrings {
  import opened DroneTypes

  predicate OccursAt(s: string, sep: string, i: nat)
  {
    i + |sep| <= |s| && s[i..i + |sep|] == sep
  }

  /** The first occurrence of `sep` in `s` at or after `from`. */
  function IndexFrom(s: string, sep: string, from: nat): (r: Option<nat>)
    ensures r.Some? ==> from <= r.value && OccursAt(s, sep, r.value)
    ensures r.Some? ==> forall j :: from <= j < r.value ==> !OccursAt(s, sep, j)
    ensures r.None? ==> forall j :: from <= j ==> !OccursAt(s, sep, j)
    decreases |s| - from
  {
    if from + |sep| > |s| then None
    else if s[from..from + |sep|] == sep then Some(from)
    else IndexFrom(s, sep, from + 1)
  }

  /** `s.indexOf(sep)`, with -1 written as None. */
  function IndexOf(s: string, sep: string): (r: Option<nat>)
  {
    IndexFrom(s, sep, 0)
  }

  /** Every field between occurrences, empty ones included (a negative limit). */
  function SplitAll(s: string, sep: string): (fields: seq<string>)
    requires |sep| > 0
    ensures |fields| >= 1
    decreases |s|
  {
    match IndexOf(s, sep)
    case None => [s]
    case Some(i) => [s[..i]] + SplitAll(s[i + |sep|..], sep)
  }

  function DropTrailingEmpty(fields: seq<string>): (r: seq<string>)
    ensures |r| <= |fields| && r == fields[..|r|]
    ensures r != [] ==> r[|r| - 1] != ""
    ensures forall j :: |r| <= j < |fields| ==> fields[j] == ""
  {
    if fields != [] && fields[|fields| - 1] == "" then DropTrailingEmpty(fields[..|fields| - 1])
    else fields
  }

  /** `s.split(sep)` for a literal separator and limit 0. */
  function Split(s: string, sep: string): seq<string>
    requires |sep| > 0
  {
    match IndexOf(s, sep)
    case None => [s]
    case Some(_) => DropTrailingEmpty(SplitAll(s, sep))
  }

  /** The inverse of SplitAll: the fields glued back with the separator. */
  function Join(fields: seq<string>, sep: string): string
  {
    if |fields| <= 1 then (if fields == [] then "" else fields[0])
    else fields[0] + sep + Join(fields[1..], sep)
  }

  /** `s` written `m` times in a row. */
  function Repeat(s: string, m: nat): string
  {
    if m == 0 then "" else s + Repeat(s, m - 1)
  }

  /** Trailing empty fields contribute only their separators to the joined string. */
  lemma {:induction false} JoinTrailingEmpty(fields: seq<string>, p: nat, sep: string)
    requires 1 <= p <= |fields|
    requires forall j :: p <= j < |fields| ==> fields[j] == ""
    ensures Join(fields, sep) == Join(fields[..p], sep) + Repeat(sep, |fields| - p)
    decreases |fields|
  {
    if p == |fields| {
      assert fields[..p] == fields;
    } else {
      var rest := fields[1..];
      if p == 1 {
        JoinTrailingEmpty(rest, 1, sep);
        assert rest[..1] == [""];
        assert Join(fields, sep) == fields[0] + sep + ("" + Repeat(sep, |rest| - 1));
        assert Join(fields[..1], sep) == fields[0];
      } else {
        JoinTrailingEmpty(rest, p - 1, sep);
        assert fields[..p][1..] == rest[..p - 1];
        assert Join(fields[..p], sep) == fields[0] + sep + Join(rest[..p - 1], sep);
      }
    }
  }

  predicate NoOccurrence(s: string, sep: string)
  {
    forall j :: 0 <= j <= |s| ==> !OccursAt(s, sep, j)
  }

  /** Splitting loses nothing: joining the fields restores the input. */
  lemma {:induction false} JoinSplitAll(s: string, sep: string)
    requires |sep| > 0
    ensures Join(SplitAll(s, sep), sep) == s
    decreases |s|
  {
    if IndexOf(s, sep).Some? {
      var i := IndexOf(s, sep).value;
      var tail := s[i + |sep|..];
      SplitAllAtFirst(s, sep);
      JoinSplitAll(tail, sep);
      JoinCons(s[..i], SplitAll(tail, sep), sep);
    }
  }

  /** The first field ends at the first occurrence; the rest is split from after it. */
  lemma SplitAllAtFirst(s: string, sep: string)
    requires |sep| > 0 && IndexOf(s, sep).Some?
    ensures var i := IndexOf(s, sep).value;
      && SplitAll(s, sep) == [s[..i]] + SplitAll(s[i + |sep|..], sep)
      && s == s[..i] + sep + s[i + |sep|..]
  {
    var i := IndexOf(s, sep).value;
    assert OccursAt(s, sep, i);
    assert s == s[..i] + s[i..i + |sep|] + s[i + |sep|..];
  }

  /** Join peels off its first field. */
  lemma JoinCons(first: string, rest: seq<string>, sep: string)
    requires rest != []
    ensures Join([first] + rest, sep) == first + sep + Join(rest, sep)
  {
    assert ([first] + rest)[1..] == rest;
  }

  /** No field of SplitAll contains the separator. */
  lemma {:induction false} SplitAllFieldsLackSeparator(s: string, sep: string, k: nat)
    requires |sep| > 0
    requires k < |SplitAll(s, sep)|
    ensures NoOccurrence(SplitAll(s, sep)[k], sep)
    decreases |s|
  {
    match IndexOf(s, sep)
    case None =>
    case Some(i) =>
      var tail := s[i + |sep|..];
      if k == 0 {
        assert IndexFrom(s, sep, 0) == Some(i);
        assert forall j :: 0 <= j < i ==> !OccursAt(s, sep, j);
        forall j | 0 <= j <= i ensures !OccursAt(s[..i], sep, j) {
          if j + |sep| <= i {
            assert s[..i][j..j + |sep|] == s[j..j + |sep|];
            assert j < i && !OccursAt(s, sep, j);
          }
        }
      } else {
        SplitAllFieldsLackSeparator(tail, sep, k - 1);
      }
  }

  /** A string that does not contain the separator comes back whole. */
  lemma SplitWithoutOccurrence(s: string, sep: string)
    requires |sep| > 0
    requires NoOccurrence(s, sep)
    ensures Split(s, sep) == [s] && SplitAll(s, sep) == [s]
  {
  }
}
