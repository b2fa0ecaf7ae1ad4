/** Ordinal substring search, the part of the runtime's string API that the
    seeder's prefix stripping relies on. Strings are sequences of characters
    and comparison is character by character (no culture rules). */
module Text {

  /** `sep` occurs in `s` starting at position `i`. */
  predicate OccursAt(s: string, sep: string, i: nat) {
    i + |sep| <= |s| && s[i..i + |sep|] == sep
  }

  /** `i` is the first position at which `sep` occurs in `s`. */
  predicate FirstOccurrence(s: string, sep: string, i: nat) {
    OccursAt(s, sep, i) && forall j: nat :: j < i ==> !OccursAt(s, sep, j)
  }

  /** `sep` occurs somewhere in `s`. */
  predicate Contains(s: string, sep: string) {
    exists i: nat :: i <= |s| && OccursAt(s, sep, i)
  }

  /** Position of the first occurrence of `sep` at or after `from`, or -1. */
  function IndexOfFrom(s: string, sep: string, from: nat): (r: int)
    decreases |s| - from
    ensures r == -1 || from <= r <= |s| - |sep|
  {
    if from + |sep| > |s| then -1
    else if s[from..from + |sep|] == sep then from
    else IndexOfFrom(s, sep, from + 1)
  }

  /** The search from `from` finds the first occurrence at or after `from`,
      and reports -1 exactly when there is none. */
  lemma {:induction false} IndexOfFromSpec(s: string, sep: string, from: nat)
    decreases |s| - from
    ensures var r := IndexOfFrom(s, sep, from);
            && (r == -1 || (from <= r && OccursAt(s, sep, r)))
            && (r == -1 ==> forall i: nat :: from <= i ==> !OccursAt(s, sep, i))
            && (r != -1 ==> forall i: nat :: from <= i < r ==> !OccursAt(s, sep, i))
  {
    if from + |sep| <= |s| && s[from..from + |sep|] != sep {
      IndexOfFromSpec(s, sep, from + 1);
    }
  }

  /** Ordinal `IndexOf`: the first position of `sep` in `s`, or -1 when it does not occur. */
  function IndexOf(s: string, sep: string): (r: int)
    ensures r == -1 || 0 <= r <= |s| - |sep|
  {
    IndexOfFrom(s, sep, 0)
  }

  /** `IndexOf` answers -1 exactly when the separator does not occur, and
      otherwise the position of its first occurrence. */
  lemma IndexOfSpec(s: string, sep: string)
    ensures IndexOf(s, sep) == -1 <==> !Contains(s, sep)
    ensures IndexOf(s, sep) != -1 ==> 0 <= IndexOf(s, sep) && FirstOccurrence(s, sep, IndexOf(s, sep))
  {
    IndexOfFromSpec(s, sep, 0);
  }
}
