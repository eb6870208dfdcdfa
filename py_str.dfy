/**
 * Python's `str.split(sep)` with a non-empty separator: the string is cut at each
 * occurrence of `sep`, scanning left to right without overlaps, and an input without `sep`
 * gives a one-element list.
 */
module PyStr {
  import opened Wrappers

  /** `sep` occurs in `s` starting at index `j`. */
  predicate OccursAt(s: string, sep: string, j: int) {
    0 <= j && j + |sep| <= |s| && s[j..j + |sep|] == sep
  }

  /** `sep in s`. */
  predicate Contains(s: string, sep: string) {
    exists j :: 0 <= j <= |s| && OccursAt(s, sep, j)
  }

  /** The index of the first occurrence of `sep` in `s`, if any (`s.find(sep)`). */
  function FirstOccurrence(s: string, sep: string): (k: Option<nat>)
    requires |sep| > 0
    ensures k.Some? ==> OccursAt(s, sep, k.value)
    decreases |s|
  {
    if |s| < |sep| then None
    else if s[..|sep|] == sep then Some(0)
    else
      match FirstOccurrence(s[1..], sep)
      case None => None
      case Some(k) =>
        assert s[1..][k..k + |sep|] == s[k + 1..k + 1 + |sep|];
        Some(k + 1)
  }

  /** `s.split(sep)`. */
  function Split(s: string, sep: string): (parts: seq<string>)
    requires |sep| > 0
    ensures |parts| >= 1
    decreases |s|
  {
    match FirstOccurrence(s, sep)
    case None => [s]
    case Some(k) => [s[..k]] + Split(s[k + |sep|..], sep)
  }

  /** `sep.join(parts)`. */
  function Join(parts: seq<string>, sep: string): string
    decreases |parts|
  {
    if parts == [] then ""
    else if |parts| == 1 then parts[0]
    else parts[0] + sep + Join(parts[1..], sep)
  }

  lemma OccursShift(s: string, sep: string, j: int)
    requires |s| >= 1 && 0 <= j
    ensures OccursAt(s[1..], sep, j) <==> OccursAt(s, sep, j + 1)
  {
    if 0 <= j && j + |sep| <= |s| - 1 {
      assert s[1..][j..j + |sep|] == s[j + 1..j + 1 + |sep|];
    }
  }

  /** `FirstOccurrence` finds the leftmost occurrence, and finds none exactly when `sep` is
      not in `s`. */
  lemma {:induction false} FirstOccurrenceIsLeftmost(s: string, sep: string)
    requires |sep| > 0
    ensures FirstOccurrence(s, sep).Some? ==>
      forall j :: 0 <= j < FirstOccurrence(s, sep).value ==> !OccursAt(s, sep, j)
    ensures FirstOccurrence(s, sep).None? <==> !Contains(s, sep)
    decreases |s|
  {
    if |s| < |sep| {
    } else if s[..|sep|] == sep {
      assert OccursAt(s, sep, 0);
    } else {
      FirstOccurrenceIsLeftmost(s[1..], sep);
      assert !OccursAt(s, sep, 0);
      forall j | 1 <= j ensures OccursAt(s, sep, j) <==> OccursAt(s[1..], sep, j - 1) {
        OccursShift(s, sep, j - 1);
      }
      match FirstOccurrence(s[1..], sep)
      case None =>
        assert !Contains(s, sep) by {
          forall j ensures !OccursAt(s, sep, j) {
            if j >= 1 {
              assert !OccursAt(s[1..], sep, j - 1);
            }
          }
        }
      case Some(k) =>
        OccursShift(s, sep, k);
    }
  }

  /** Cutting out an occurrence and putting the separator back gives the string. */
  lemma Reassemble(s: string, sep: string, k: nat)
    requires OccursAt(s, sep, k)
    ensures s[..k] + sep + s[k + |sep|..] == s
  {
    assert s == s[..k] + s[k..k + |sep|] + s[k + |sep|..];
  }

  /** Joining the pieces with the separator gives back the string. */
  lemma {:induction false} SplitJoin(s: string, sep: string)
    requires |sep| > 0
    ensures Join(Split(s, sep), sep) == s
    decreases |s|
  {
    var first := FirstOccurrence(s, sep);
    if first.Some? {
      var k := first.value;
      var rest := s[k + |sep|..];
      SplitJoin(rest, sep);
      var tail := Split(rest, sep);
      assert Split(s, sep) == [s[..k]] + tail;
      assert ([s[..k]] + tail)[1..] == tail;
      assert Join(Split(s, sep), sep) == s[..k] + sep + Join(tail, sep);
      Reassemble(s, sep, k);
    }
  }

  /** No piece contains the separator. */
  lemma {:induction false} SplitPiecesFree(s: string, sep: string)
    requires |sep| > 0
    ensures forall i :: 0 <= i < |Split(s, sep)| ==> !Contains(Split(s, sep)[i], sep)
    decreases |s|
  {
    FirstOccurrenceIsLeftmost(s, sep);
    match FirstOccurrence(s, sep)
    case None =>
    case Some(k) =>
      var rest := s[k + |sep|..];
      SplitPiecesFree(rest, sep);
      var parts := Split(s, sep);
      assert parts[1..] == Split(rest, sep);
      var head := s[..k];
      assert !Contains(head, sep) by {
        forall j | OccursAt(head, sep, j) ensures false {
          assert head[j..j + |sep|] == s[j..j + |sep|];
          assert OccursAt(s, sep, j);
        }
      }
      forall i | 0 <= i < |parts| ensures !Contains(parts[i], sep) {
        if i > 0 {
          assert parts[i] == Split(rest, sep)[i - 1];
        }
      }
  }

  /** The string is cut in at least two pieces exactly when it contains the separator. */
  lemma SplitCount(s: string, sep: string)
    requires |sep| > 0
    ensures |Split(s, sep)| >= 2 <==> Contains(s, sep)
  {
    FirstOccurrenceIsLeftmost(s, sep);
  }
}
