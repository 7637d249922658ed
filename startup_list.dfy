/**
 * The marketplace list's filter: a startup is kept when its lower-cased
 * title contains the lower-cased search term, its sector matches the
 * selected one ('' and "All" match every sector), and its prediction score
 * reaches the minimum success slider (a startup without a prediction counts
 * as score 0).
 */
module StartupList {
  import opened Wrappers
  import opened Text

  /** The prediction a listed startup may carry; `score` may itself be missing. */
  datatype ListedPrediction = ListedPrediction(score: Option<real>)

  /** The fields of a startup that the filter reads. */
  datatype Listed = Listed(title: string, sector: string, prediction: Option<ListedPrediction>)

  /** The three controls: search box, sector select and minimum-success slider (`parseInt`, so whole). */
  datatype Query = Query(searchTerm: string, selectedSector: string, minSuccess: int)

  predicate MatchesSearch(title: string, searchTerm: string) {
    Contains(ToLower(title), ToLower(searchTerm))
  }

  predicate MatchesSector(sector: string, selectedSector: string) {
    selectedSector == "" || selectedSector == "All" || sector == selectedSector
  }

  /**
   * `startup.prediction ? startup.prediction.score : 0`: no prediction gives 0;
   * a prediction without a score gives a missing score.
   */
  function PredictionScore(s: Listed): (score: Option<real>)
    ensures s.prediction.None? ==> score == Some(0.0)
    ensures s.prediction.Some? ==> score == s.prediction.value.score
  {
    match s.prediction
    case None => Some(0.0)
    case Some(p) => p.score
  }

  /** `predictionScore >= minSuccess`; a missing score compares false. */
  predicate MatchesSuccess(s: Listed, minSuccess: int) {
    var score := PredictionScore(s);
    score.Some? && score.value >= minSuccess as real
  }

  predicate Keep(q: Query, s: Listed) {
    MatchesSearch(s.title, q.searchTerm) && MatchesSector(s.sector, q.selectedSector) && MatchesSuccess(s, q.minSuccess)
  }

  /** `xs` can be obtained from `ys` by deleting elements. */
  ghost predicate IsSubsequence<T>(xs: seq<T>, ys: seq<T>)
    decreases |ys|
  {
    if ys == [] then xs == []
    else (xs != [] && xs[0] == ys[0] && IsSubsequence(xs[1..], ys[1..])) || IsSubsequence(xs, ys[1..])
  }

  /** `startups.filter(...)`: the startups the query keeps, in their order. */
  function Filter(q: Query, startups: seq<Listed>): (kept: seq<Listed>)
    ensures |kept| <= |startups|
    ensures forall i :: 0 <= i < |kept| ==> Keep(q, kept[i]) && kept[i] in startups
  {
    if startups == [] then []
    else if Keep(q, startups[0]) then [startups[0]] + Filter(q, startups[1..])
    else Filter(q, startups[1..])
  }

  /** The filter keeps its input's order: the result is a subsequence of the input. */
  lemma {:induction false} FilterIsSubsequence(q: Query, startups: seq<Listed>)
    ensures IsSubsequence(Filter(q, startups), startups)
    decreases |startups|
  {
    if startups != [] {
      FilterIsSubsequence(q, startups[1..]);
      var rest := Filter(q, startups[1..]);
      if Keep(q, startups[0]) {
        assert ([startups[0]] + rest)[1..] == rest;
      }
    }
  }

  /** A startup appears in the result exactly when it appears in the input and the query keeps it. */
  lemma {:induction false} FilterMembership(q: Query, startups: seq<Listed>, s: Listed)
    ensures s in Filter(q, startups) <==> s in startups && Keep(q, s)
    decreases |startups|
  {
    if startups != [] {
      FilterMembership(q, startups[1..], s);
      assert startups == [startups[0]] + startups[1..];
    }
  }

  /** A second pass over the result removes nothing. */
  lemma {:induction false} FilterIdempotent(q: Query, startups: seq<Listed>)
    ensures Filter(q, Filter(q, startups)) == Filter(q, startups)
  {
    AllKept(q, Filter(q, startups));
  }

  /** When the query keeps every startup the result is the input itself. */
  lemma {:induction false} AllKept(q: Query, startups: seq<Listed>)
    requires forall i :: 0 <= i < |startups| ==> Keep(q, startups[i])
    ensures Filter(q, startups) == startups
    decreases |startups|
  {
    if startups != [] {
      AllKept(q, startups[1..]);
      assert [startups[0]] + startups[1..] == startups;
    }
  }

  /** The empty search term matches every title. */
  lemma EmptySearchMatches(title: string)
    ensures MatchesSearch(title, "")
  {
    ContainsEmpty(ToLower(title));
  }

  /** A matching search has an occurrence of the lower-cased term in the lower-cased title. */
  lemma SearchFindsOccurrence(title: string, searchTerm: string)
    requires MatchesSearch(title, searchTerm)
    ensures exists i :: OccursAt(ToLower(title), ToLower(searchTerm), i)
  {
    ContainsAt(ToLower(title), ToLower(searchTerm));
  }

  /** An occurrence of the lower-cased term in the lower-cased title makes the search match. */
  lemma OccurrenceMatches(title: string, searchTerm: string, i: int)
    requires OccursAt(ToLower(title), ToLower(searchTerm), i)
    ensures MatchesSearch(title, searchTerm)
  {
    ContainsAt(ToLower(title), ToLower(searchTerm));
  }

  /** The search is a substring match of the lower-cased term at some position of the lower-cased title. */
  lemma SearchIsSubstring(title: string, searchTerm: string)
    ensures MatchesSearch(title, searchTerm) <==> exists i :: OccursAt(ToLower(title), ToLower(searchTerm), i)
  {
    if MatchesSearch(title, searchTerm) {
      SearchFindsOccurrence(title, searchTerm);
    }
    if exists i :: OccursAt(ToLower(title), ToLower(searchTerm), i) {
      var i :| OccursAt(ToLower(title), ToLower(searchTerm), i);
      OccurrenceMatches(title, searchTerm, i);
    }
  }

  /** Lower-casing the title or the term first changes nothing: the search ignores ASCII case. */
  lemma SearchIgnoresCase(title: string, searchTerm: string)
    ensures MatchesSearch(ToLower(title), searchTerm) == MatchesSearch(title, searchTerm)
    ensures MatchesSearch(title, ToLower(searchTerm)) == MatchesSearch(title, searchTerm)
  {
    ToLowerIdempotent(title);
    ToLowerIdempotent(searchTerm);
  }

  /** "All" and the empty selection impose nothing; any other selection demands equality. */
  lemma SectorWildcards(sector: string, selectedSector: string)
    ensures MatchesSector(sector, "") && MatchesSector(sector, "All")
    ensures selectedSector != "" && selectedSector != "All" ==>
      (MatchesSector(sector, selectedSector) <==> sector == selectedSector)
  {
  }

  /** Every kept startup has a score of at least `minSuccess`; one without a prediction is scored 0. */
  lemma KeptScoresReachMinimum(q: Query, startups: seq<Listed>)
    ensures forall s :: s in Filter(q, startups) ==>
      PredictionScore(s).Some? && PredictionScore(s).value >= q.minSuccess as real
    ensures forall s :: s in Filter(q, startups) && s.prediction.None? ==> q.minSuccess <= 0
  {
  }

  /**
   * The initial controls (empty search, no sector, minimum at most 0) keep
   * every startup whose score, when it has a prediction, is present and not
   * negative: the list is shown unchanged.
   */
  lemma {:induction false} OpenQueryKeepsAll(startups: seq<Listed>, minSuccess: int)
    requires minSuccess <= 0
    requires forall i :: 0 <= i < |startups| ==>
      startups[i].prediction.Some? ==> startups[i].prediction.value.score.Some? && startups[i].prediction.value.score.value >= 0.0
    ensures Filter(Query("", "", minSuccess), startups) == startups
  {
    var q := Query("", "", minSuccess);
    forall i | 0 <= i < |startups| ensures Keep(q, startups[i]) {
      EmptySearchMatches(startups[i].title);
    }
    AllKept(q, startups);
  }
}
