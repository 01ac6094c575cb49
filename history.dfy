/** The list of recently queried cities kept by the application window: most
    recent first, each city once, at most `maxHistory` entries. */
module History {

  /** The size limit the window sets. */
  const MaxHistory: nat := 10

  /** Every entry occurs once. */
  predicate NoDuplicates(s: seq<string>) {
    forall i, j :: 0 <= i < j < |s| ==> s[i] != s[j]
  }

  /** `s` with its first occurrence of `x` removed (Python's `list.remove`). */
  function RemoveFirst(s: seq<string>, x: string): (r: seq<string>)
    ensures multiset(r) == multiset(s) - multiset{x}
    ensures x in s ==> |r| == |s| - 1
    ensures x !in s ==> r == s
    ensures forall y :: y in r ==> y in s
  {
    if s == [] then []
    else if s[0] == x then
      assert s == [s[0]] + s[1..];
      s[1..]
    else
      assert s == [s[0]] + s[1..];
      [s[0]] + RemoveFirst(s[1..], x)
  }

  /** The list after recording a query for `city`. */
  function WithRecent(history: seq<string>, city: string, maxHistory: nat): (h: seq<string>)
    ensures |h| <= maxHistory
    ensures 1 <= maxHistory ==> h != [] && h[0] == city
    ensures forall y :: y in h ==> y == city || y in history
  {
    var others := if city in history then RemoveFirst(history, city) else history;
    var moved := [city] + others;
    if |moved| > maxHistory then
      assert forall y :: y in moved[..maxHistory] ==> y in moved;
      moved[..maxHistory]
    else moved
  }

  /** Position of the first occurrence of `x` in `s`. */
  function FirstIndex(s: seq<string>, x: string): (i: nat)
    requires x in s
    ensures i < |s| && s[i] == x && x !in s[..i]
  {
    if s[0] == x then 0
    else
      var i := FirstIndex(s[1..], x);
      assert s[..i + 1] == [s[0]] + s[1..][..i];
      i + 1
  }

  /** Removing the first occurrence cuts out exactly that position and keeps the
      other entries in their order. */
  lemma {:induction false} RemoveFirstCutsFirst(s: seq<string>, x: string)
    requires x in s
    ensures RemoveFirst(s, x) == s[..FirstIndex(s, x)] + s[FirstIndex(s, x) + 1..]
  {
    if s[0] != x {
      RemoveFirstCutsFirst(s[1..], x);
      var i := FirstIndex(s[1..], x);
      assert s[..i + 1] == [s[0]] + s[1..][..i];
      assert s[i + 2..] == s[1..][i + 1..];
    }
  }

  /** From a list without repetitions, removal takes out every occurrence of `x`
      and adds nothing. */
  lemma {:induction false} RemoveFirstNoDuplicates(s: seq<string>, x: string)
    requires NoDuplicates(s)
    ensures var r := RemoveFirst(s, x);
            NoDuplicates(r) && x !in r && forall y :: y in r ==> y in s
  {
    if s != [] {
      assert NoDuplicates(s[1..]);
      RemoveFirstNoDuplicates(s[1..], x);
      if s[0] != x {
        assert s[0] !in s[1..];
      }
    }
  }

  /** The queried city comes first and the list respects the size limit. */
  lemma RecentFirst(history: seq<string>, city: string, maxHistory: nat)
    requires 1 <= maxHistory
    ensures var h := WithRecent(history, city, maxHistory);
            && 1 <= |h| <= maxHistory
            && |h| <= |history| + 1
            && h[0] == city
  {
    if city in history {
      RemoveFirstCutsFirst(history, city);
    }
  }

  /** The other entries keep their relative order: after the new head comes a
      prefix of the old list with the city's first occurrence cut out. */
  lemma RecentKeepsOrder(history: seq<string>, city: string, maxHistory: nat)
    requires 1 <= maxHistory
    ensures var h := WithRecent(history, city, maxHistory);
            && h[1..] <= RemoveFirst(history, city)
            && (city in history ==>
                  RemoveFirst(history, city) == history[..FirstIndex(history, city)] + history[FirstIndex(history, city) + 1..])
            && (city !in history ==> RemoveFirst(history, city) == history)
  {
    RecentFirst(history, city, maxHistory);
    if city in history {
      RemoveFirstCutsFirst(history, city);
    }
  }

  /** A list without repetitions stays without repetitions, and the city occurs
      in it exactly once, at the front. (list.remove takes out only the first of
      several occurrences, so this needs the list to be free of repetitions.) */
  lemma RecentUnique(history: seq<string>, city: string, maxHistory: nat)
    requires 1 <= maxHistory
    requires NoDuplicates(history)
    ensures var h := WithRecent(history, city, maxHistory);
            NoDuplicates(h) && h[0] == city && city !in h[1..]
  {
    RemoveFirstNoDuplicates(history, city);
    var others := RemoveFirst(history, city);
    var moved := [city] + others;
    PrependFresh(city, others);
    RecentFirst(history, city, maxHistory);
    var h := WithRecent(history, city, maxHistory);
    assert h == moved[..|h|];
    assert h[1..] == others[..|h| - 1];
  }

  /** Putting an absent entry in front of a list without repetitions keeps it so. */
  lemma PrependFresh(x: string, s: seq<string>)
    requires NoDuplicates(s) && x !in s
    ensures NoDuplicates([x] + s)
  {
    var t := [x] + s;
    forall i, j | 0 <= i < j < |t|
      ensures t[i] != t[j]
    {
      if i > 0 {
        assert t[i] == s[i - 1] && t[j] == s[j - 1];
      } else {
        assert t[j] in s;
      }
    }
  }

  class WeatherApp {
    /** Recently queried cities, most recent first. */
    var history: seq<string>
    const maxHistory: nat := MaxHistory

    /** What the window keeps true of its list. */
    ghost predicate Valid()
      reads this
    {
      |history| <= maxHistory && NoDuplicates(history)
    }

    constructor ()
      ensures Valid() && history == []
    {
      history := [];
    }

    /** Moves (or puts) `cityName` to the front and drops entries beyond the limit. */
    method AddToHistory(cityName: string)
      modifies this
      ensures history == WithRecent(old(history), cityName, maxHistory)
      ensures history[0] == cityName && |history| <= maxHistory
      ensures NoDuplicates(old(history)) ==> NoDuplicates(history) && cityName !in history[1..]
      ensures old(Valid()) ==> Valid()
    {
      ghost var before := history;
      if cityName in history {
        history := RemoveFirst(history, cityName);
      }
      history := [cityName] + history;
      if |history| > maxHistory {
        history := history[..maxHistory];
      }
      RecentFirst(before, cityName, maxHistory);
      if NoDuplicates(before) {
        RecentUnique(before, cityName, maxHistory);
      }
    }
  }
}
