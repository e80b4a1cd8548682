/**
 * The history screen (src/pages/HistoryPage.tsx): the stored diagnoses, a
 * case-insensitive search over disease name and species, and clearing.
 */
module HistoryPage {
  import opened Strings
  import opened DiagnosisTypes
  import opened Storage
  import DiagnosisResults

  /** The history cards' own copy of the severity badge classes. */
  const HistorySeverityColors: map<string, string> := map[
    "mild" := "bg-severity-mild text-white",
    "moderate" := "bg-severity-moderate text-white",
    "severe" := "bg-severity-severe text-white",
    "critical" := "bg-severity-critical text-white"
  ]

  /** The history cards and the diagnosis view style severities identically. */
  lemma SeverityColorTablesAgree()
    ensures HistorySeverityColors == DiagnosisResults.SeverityColors
  {
  }

  /** The search keeps `d` when the lower-cased search text occurs in its lower-cased disease name or species. */
  predicate Matches(d: DiagnosisResult, search: string)
  {
    Contains(Lower(d.diseaseName), Lower(search)) || Contains(Lower(d.species), Lower(search))
  }

  /** `history.filter(...)`: the entries the search keeps, in history order. */
  function Filter(h: seq<DiagnosisResult>, search: string): (r: seq<DiagnosisResult>)
    ensures forall d :: d in r <==> d in h && Matches(d, search)
    ensures forall d :: multiset(r)[d] == if Matches(d, search) then multiset(h)[d] else 0
    ensures |r| <= |h|
    decreases |h|
  {
    if h == [] then []
    else
      assert h == [h[0]] + h[1..];
      (if Matches(h[0], search) then [h[0]] else []) + Filter(h[1..], search)
  }

  /** `r` is `h` with some entries left out, the rest in their original order. */
  predicate Subsequence(r: seq<DiagnosisResult>, h: seq<DiagnosisResult>)
    decreases |h|
  {
    if r == [] then true
    else if h == [] then false
    else (r[0] == h[0] && Subsequence(r[1..], h[1..])) || Subsequence(r, h[1..])
  }

  /** The filtered list keeps the history's relative order. */
  lemma {:induction false} FilterIsSubsequence(h: seq<DiagnosisResult>, search: string)
    ensures Subsequence(Filter(h, search), h)
    decreases |h|
  {
    if h != [] {
      FilterIsSubsequence(h[1..], search);
      var r := Filter(h, search);
      if Matches(h[0], search) {
        assert r[0] == h[0] && r[1..] == Filter(h[1..], search);
      } else {
        assert r == Filter(h[1..], search);
        if r != [] {
          assert Subsequence(r, h[1..]);
        }
      }
    }
  }

  /** An empty search keeps every entry. */
  lemma {:induction false} EmptySearchKeepsAll(h: seq<DiagnosisResult>)
    ensures Filter(h, "") == h
    decreases |h|
  {
    if h != [] {
      assert Lower("") == "";
      ContainsEmpty(Lower(h[0].diseaseName));
      assert Matches(h[0], "");
      EmptySearchKeepsAll(h[1..]);
      assert [h[0]] + h[1..] == h;
    }
  }

  /** Filtering the filtered list again with the same search changes nothing. */
  lemma {:induction false} FilterIdempotent(h: seq<DiagnosisResult>, search: string)
    ensures Filter(Filter(h, search), search) == Filter(h, search)
    decreases |h|
  {
    if h != [] {
      var rest := Filter(h[1..], search);
      FilterIdempotent(h[1..], search);
      if Matches(h[0], search) {
        var r := [h[0]] + rest;
        assert Filter(h, search) == r;
        assert r[1..] == rest;
        assert Filter(r, search) == [h[0]] + Filter(rest, search);
      } else {
        assert Filter(h, search) == rest;
      }
    }
  }

  /** Lower-casing twice is lower-casing once. */
  lemma LowerIdempotent(s: string)
    ensures Lower(Lower(s)) == Lower(s)
  {
    assert forall i | 0 <= i < |s| :: LowerChar(LowerChar(s[i])) == LowerChar(s[i]);
  }

  /** The search ignores letter case: searching for the lower-cased text gives the same list. */
  lemma {:induction false} FilterIgnoresCase(h: seq<DiagnosisResult>, search: string)
    ensures Filter(h, Lower(search)) == Filter(h, search)
    decreases |h|
  {
    LowerIdempotent(search);
    if h != [] {
      assert Matches(h[0], Lower(search)) == Matches(h[0], search);
      FilterIgnoresCase(h[1..], search);
    }
  }

  class HistoryPage {
    var history: seq<DiagnosisResult>
    var search: string
    const storage: LocalStorage

    constructor (storage: LocalStorage)
      ensures history == [] && search == "" && this.storage == storage
    {
      history := [];
      search := "";
      this.storage := storage;
    }

    /** The entries shown: the history filtered by the search text. */
    function Filtered(): seq<DiagnosisResult>
      reads this
    {
      Filter(history, search)
    }

    /** The "nothing found" panel is shown exactly when no entry matches the search. */
    predicate ShowsEmptyState()
      reads this
    {
      |Filtered()| == 0
    }

    /** The empty state is shown exactly when no history entry matches the search. */
    lemma {:induction false} EmptyStateIffNoMatch()
      ensures ShowsEmptyState() <==> forall d | d in history :: !Matches(d, search)
    {
      var r := Filtered();
      if r != [] {
        assert r[0] in r;
      }
    }

    /**
     * The mount effect: the stored history is loaded when it reads as a list
     * (`ok`). When it does not, the page fails to render; the model reports
     * that as `ok == false` and leaves the list as it was.
     */
    method Load() returns (ok: bool)
      modifies this
      ensures ok <==> StoredHistory(storage.GetItem(HistoryKey)).Some?
      ensures ok ==> history == StoredHistory(storage.GetItem(HistoryKey)).value
      ensures !ok ==> history == old(history)
      ensures search == old(search)
    {
      var stored := StoredHistory(storage.GetItem(HistoryKey));
      ok := stored.Some?;
      if ok {
        history := stored.value;
      }
    }

    /** Typing in the search box. */
    method SetSearch(text: string)
      modifies this
      ensures search == text && history == old(history)
    {
      search := text;
    }

    /**
     * `clearHistory`: the stored history is removed, every other stored key is
     * kept, and the list becomes empty, so the empty state shows.
     */
    method ClearHistory()
      modifies this, storage
      ensures history == [] && search == old(search)
      ensures storage.items == old(storage.items) - {HistoryKey}
      ensures HistoryKey !in storage.items
      ensures ShowsEmptyState()
    {
      storage.RemoveItem(HistoryKey);
      history := [];
    }
  }
}
