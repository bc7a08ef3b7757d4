/** `useAnimatedSuggestions`: a cyclic index over six fixed suggestions that
    starts on "nothing shown" and moves one step each time a timer fires. */
module AnimatedSuggestions {
  import opened Common

  const Suggestions: seq<string> :=
    ["SCHOOL 📚", "ALCOHOL 🍺", "PIZZA 🍕", "COFFEE ☕", "BITCOIN 💰", "NETFLIX 🎬"]

  /** The index the hook starts with, meaning no suggestion yet. */
  const Unset: int := -1

  /** An index the hook can hold. */
  predicate InRange(index: int)
  {
    Unset <= index < |Suggestions|
  }

  /** `nextSuggestion`'s update `(prev + 1) % suggestions.length`. The
      dividend is never negative, so the truncating JavaScript remainder and
      Dafny's Euclidean one agree. */
  function Next(prev: int): (i: int)
    requires InRange(prev)
    ensures 0 <= i < |Suggestions|
    ensures prev < |Suggestions| - 1 ==> i == prev + 1
    ensures prev == |Suggestions| - 1 ==> i == 0
  {
    (prev + 1) % |Suggestions|
  }

  /** The hook's return value for an index: null for the unset index, else
      the suggestion at that index. */
  function Shown(index: int): (r: Option<string>)
    requires InRange(index)
    ensures r.None? <==> index == Unset
    ensures r.Some? ==> r.value in Suggestions
  {
    if index == Unset then None else Some(Suggestions[index])
  }

  /** The index after `n` timer ticks from `index`. */
  function Advance(index: int, n: nat): (r: int)
    requires InRange(index)
    ensures InRange(r)
    ensures n > 0 ==> r >= 0
    decreases n
  {
    if n == 0 then index else Next(Advance(index, n - 1))
  }

  /** From a shown index, `n` ticks move `n` places around the cycle. */
  lemma {:induction false} AdvanceFromShown(index: int, n: nat)
    requires 0 <= index < |Suggestions|
    ensures Advance(index, n) == (index + n) % |Suggestions|
    decreases n
  {
    if n > 0 {
      AdvanceFromShown(index, n - 1);
    }
  }

  /** From the unset index, the `n`-th tick shows suggestion number `n - 1`
      around the cycle. */
  lemma {:induction false} AdvanceFromUnset(n: nat)
    requires n > 0
    ensures Advance(Unset, n) == (n - 1) % |Suggestions|
    decreases n
  {
    if n > 1 {
      AdvanceFromUnset(n - 1);
    }
  }

  /** Six ticks from a shown index come back to it. */
  lemma SixTicksCycle(index: int)
    requires 0 <= index < |Suggestions|
    ensures Advance(index, 6) == index
  {
    AdvanceFromShown(index, 6);
  }

  /** The first tick shows "SCHOOL 📚", and after any tick the hook never
      returns null again. */
  lemma FirstTickAndAfter(n: nat)
    requires n > 0
    ensures Shown(Advance(Unset, 1)) == Some("SCHOOL 📚")
    ensures Shown(Advance(Unset, n)).Some?
    ensures Shown(Advance(Unset, n)) == Some(Suggestions[(n - 1) % |Suggestions|])
  {
    AdvanceFromUnset(n);
  }

  /** The hook's state cell `currentIndex`. */
  class SuggestionRotator {
    var currentIndex: int

    ghost predicate Valid()
      reads this
    {
      InRange(currentIndex)
    }

    constructor ()
      ensures Valid() && currentIndex == Unset
      ensures Current() == None
    {
      currentIndex := Unset;
    }

    /** `nextSuggestion`, run by the timers. */
    method NextSuggestion()
      requires Valid()
      modifies this`currentIndex
      ensures Valid() && currentIndex == Next(old(currentIndex))
      ensures Current().Some?
    {
      currentIndex := (currentIndex + 1) % |Suggestions|;
    }

    /** The hook's return value. */
    function Current(): (r: Option<string>)
      requires Valid()
      reads this
      ensures r.None? <==> currentIndex == Unset
      ensures r.Some? ==> r.value in Suggestions
    {
      Shown(currentIndex)
    }
  }
}
