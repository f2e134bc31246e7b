/**
 * The search panel of `src/components/search/SearchModal.jsx`: suggestions
 * drawn from product names, categories and colours, and the list of recent
 * searches, most recent first.
 */
module SearchModal {
  import opened Seqs
  import opened Text
  import opened Catalog

  /** The most suggestions and the most recent searches shown. */
  const MaxSuggestions: nat := 5
  const MaxHistory: nat := 5

  /** `products.map(p => p.name)`. */
  function NameList(ps: seq<Product>): (r: seq<string>)
    ensures |r| == |ps|
    ensures forall i :: 0 <= i < |ps| ==> r[i] == ps[i].name
  {
    if ps == [] then [] else [ps[0].name] + NameList(ps[1..])
  }

  /** The test applied to each candidate: its lower-case form contains `needle`. */
  function Matcher(needle: string): string -> bool
  {
    c => Contains(Lower(c), needle)
  }

  /** The candidates whose lower-case form contains `needle`, in order. */
  function Matching(needle: string, candidates: seq<string>): seq<string>
  {
    Filter(Matcher(needle), candidates)
  }

  /** The test the history update filters by. */
  function Other(term: string): string -> bool
  {
    h => h != term
  }

  /** Everything offered to the suggestion set, in the order it is offered. */
  function Offered(input: string, ps: seq<Product>): seq<string>
  {
    var needle := Lower(input);
    Matching(needle, NameList(ps)) + Matching(needle, Categories(ps)) + Matching(needle, Colors(ps))
  }

  /** A product name, category or colour of the catalogue. */
  predicate IsCandidate(ps: seq<Product>, s: string)
  {
    exists p :: p in ps && (p.name == s || p.category == s || s in p.colors)
  }
  /** Every product name is a candidate. */
  lemma NamesAreCandidates(ps: seq<Product>)
    ensures forall s :: s in NameList(ps) ==> IsCandidate(ps, s)
  {
    var names := NameList(ps);
    forall s | s in names ensures IsCandidate(ps, s) {
      var i :| 0 <= i < |names| && names[i] == s;
      assert ps[i] in ps;
    }
  }
  /** A matching candidate is offered: by name, by category or by colour. */
  lemma CandidatesAreOffered(needle: string, ps: seq<Product>, s: string)
    requires IsCandidate(ps, s) && Matcher(needle)(s)
    ensures s in Matching(needle, NameList(ps)) + Matching(needle, Categories(ps)) + Matching(needle, Colors(ps))
  {
    var f := Matcher(needle);
    var names := NameList(ps);
    FilterMembers(f, names);
    FilterMembers(f, Categories(ps));
    FilterMembers(f, Colors(ps));
    var p :| p in ps && (p.name == s || p.category == s || s in p.colors);
    if p.name == s {
      var i :| 0 <= i < |ps| && ps[i] == p;
      assert names[i] == s;
    }
  }

  /** Only matching candidates are offered. */
  lemma OfferedAreCandidates(needle: string, ps: seq<Product>, s: string)
    requires s in Matching(needle, NameList(ps)) + Matching(needle, Categories(ps)) + Matching(needle, Colors(ps))
    ensures IsCandidate(ps, s) && Matcher(needle)(s)
  {
    var f := Matcher(needle);
    FilterMembers(f, NameList(ps));
    FilterMembers(f, Categories(ps));
    FilterMembers(f, Colors(ps));
    NamesAreCandidates(ps);
  }

  /** What is offered is exactly the matching candidates. */
  lemma OfferedMembers(input: string, ps: seq<Product>)
    ensures forall s :: s in Offered(input, ps) <==> IsCandidate(ps, s) && Matcher(Lower(input))(s)
  {
    forall s ensures s in Offered(input, ps) <==> IsCandidate(ps, s) && Matcher(Lower(input))(s) {
      if s in Offered(input, ps) {
        OfferedAreCandidates(Lower(input), ps, s);
      }
      if IsCandidate(ps, s) && Matcher(Lower(input))(s) {
        CandidatesAreOffered(Lower(input), ps, s);
      }
    }
  }

  /**
   * The suggestions for `input`: none for an empty input, otherwise the
   * first five members of the insertion-ordered set of matching names (in
   * catalogue order), then matching categories, then matching colours.
   * `Matcher(Lower(input))(s)` says that the lower-case `s` contains the
   * lower-case input.
   */
  function Suggestions(input: string, ps: seq<Product>): (r: seq<string>)
    ensures input == "" ==> r == []
    ensures |r| <= MaxSuggestions
    ensures NoDuplicates(r)
    ensures forall s :: s in r ==> IsCandidate(ps, s) && Matcher(Lower(input))(s)
    ensures input != "" && |r| < MaxSuggestions ==>
      forall s :: IsCandidate(ps, s) && Matcher(Lower(input))(s) ==> s in r
  {
    if input == "" then []
    else
      var d := Distinct(Offered(input, ps));
      DistinctFacts(Offered(input, ps));
      OfferedMembers(input, ps);
      NoDuplicatesPrefix(d, |Take(d, MaxSuggestions)|);
      Take(d, MaxSuggestions)
  }

  /**
   * Matching names lead the suggestions: the first five distinct matching
   * names, in catalogue order, are a prefix of them.
   */
  lemma NamesComeFirst(input: string, ps: seq<Product>)
    requires input != ""
    ensures Take(Distinct(Matching(Lower(input), NameList(ps))), MaxSuggestions) <= Suggestions(input, ps)
  {
    var needle := Lower(input);
    var a := Matching(needle, NameList(ps));
    var b := Matching(needle, Categories(ps)) + Matching(needle, Colors(ps));
    assert Offered(input, ps) == a + b;
    DistinctPrefix(a, b);
    assert Suggestions(input, ps) == Take(Distinct(a + b), MaxSuggestions);
    TakePrefix(Distinct(a), Distinct(a + b), MaxSuggestions);
  }

  /**
   * Categories come next: the first five distinct matching names and
   * categories, names first, are a prefix of the suggestions, so colours
   * only fill the places the first two passes leave.
   */
  lemma CategoriesBeforeColours(input: string, ps: seq<Product>)
    requires input != ""
    ensures Take(Distinct(Matching(Lower(input), NameList(ps)) + Matching(Lower(input), Categories(ps))), MaxSuggestions)
         <= Suggestions(input, ps)
  {
    var needle := Lower(input);
    var a := Matching(needle, NameList(ps)) + Matching(needle, Categories(ps));
    var b := Matching(needle, Colors(ps));
    assert Offered(input, ps) == a + b;
    DistinctPrefix(a, b);
    assert Suggestions(input, ps) == Take(Distinct(a + b), MaxSuggestions);
    TakePrefix(Distinct(a), Distinct(a + b), MaxSuggestions);
  }

  /**
   * One `forEach` pass: every candidate that passes `matches` is added to
   * the insertion-ordered set, unless it is already there.  `offered` is
   * what the set has been offered before this pass.
   */
  method AddMatching(suggestionSet: seq<string>, ghost offered: seq<string>, matches: string -> bool, candidates: seq<string>)
    returns (r: seq<string>)
    requires suggestionSet == Distinct(offered)
    ensures r == Distinct(offered + Filter(matches, candidates))
  {
    r := suggestionSet;
    assert offered + Filter(matches, candidates[..0]) == offered;
    var i := 0;
    while i < |candidates|
      invariant 0 <= i <= |candidates|
      invariant r == Distinct(offered + Filter(matches, candidates[..i]))
    {
      DistinctFilterStep(matches, offered, candidates, i);
      if matches(candidates[i]) && candidates[i] !in r {
        r := r + [candidates[i]];
      }
      i := i + 1;
    }
    assert candidates[..i] == candidates;
  }

  /**
   * `generateSuggestions`: three passes add the matching names, categories
   * and colours to an insertion-ordered set, which is then cut to five.
   */
  method GenerateSuggestions(input: string, products: seq<Product>) returns (suggestions: seq<string>)
    ensures suggestions == Suggestions(input, products)
  {
    if input == "" {
      return [];
    }
    var inputLower := Lower(input);
    var matches := Matcher(inputLower);
    var suggestionSet: seq<string> := [];
    var fromNames := Matching(inputLower, NameList(products));
    var fromCategories := Matching(inputLower, Categories(products));
    var fromColors := Matching(inputLower, Colors(products));

    suggestionSet := AddMatching(suggestionSet, [], matches, NameList(products));
    assert [] + fromNames == fromNames;
    suggestionSet := AddMatching(suggestionSet, fromNames, matches, Categories(products));
    suggestionSet := AddMatching(suggestionSet, fromNames + fromCategories, matches, Colors(products));
    assert fromNames + fromCategories + fromColors == Offered(input, products);

    suggestions := Take(suggestionSet, MaxSuggestions);
  }

  /**
   * The history after searching `term`: `term` first, then the earlier
   * entries other than `term` in their order, at most five in all.
   */
  function UpdatedHistory(term: string, prev: seq<string>): (r: seq<string>)
    ensures 1 <= |r| <= MaxHistory && r[0] == term
  {
    Take([term] + Filter(Other(term), prev), MaxHistory)
  }

  /** The searched term occurs once only, at the front. */
  lemma HistoryHasTermOnce(term: string, prev: seq<string>)
    ensures forall i :: 1 <= i < |UpdatedHistory(term, prev)| ==> UpdatedHistory(term, prev)[i] != term
  {
    var others := Filter(Other(term), prev);
    FilterMembers(Other(term), prev);
    var r := UpdatedHistory(term, prev);
    assert r[1..] == others[..|r| - 1];
    forall i | 1 <= i < |r| ensures r[i] != term {
      assert r[i] == others[i - 1];
      assert others[i - 1] in others;
    }
  }

  /** The entries after the front keep their earlier relative order. */
  lemma HistoryKeepsOrder(term: string, prev: seq<string>)
    ensures IsSubsequence(UpdatedHistory(term, prev)[1..], prev)
  {
    var others := Filter(Other(term), prev);
    FilterIsSubsequence(Other(term), prev);
    var r := UpdatedHistory(term, prev);
    assert r[1..] == others[..|r| - 1];
    PrefixIsSubsequence(others, prev, |r| - 1);
  }

  /** Entries are only dropped once the list is full. */
  lemma HistoryKeepsAllWhileRoom(term: string, prev: seq<string>)
    ensures |UpdatedHistory(term, prev)| < MaxHistory ==>
      forall h :: h in prev ==> h in UpdatedHistory(term, prev)
  {
    var others := Filter(Other(term), prev);
    FilterMembers(Other(term), prev);
    var r := UpdatedHistory(term, prev);
    if |r| < MaxHistory {
      assert r == [term] + others;
      forall h | h in prev ensures h in r {
        if h != term {
          assert h in others;
        }
      }
    }
  }

  /** A recent-search list without repeats keeps none after an update. */
  lemma HistoryStaysDistinct(term: string, prev: seq<string>)
    requires NoDuplicates(prev)
    ensures NoDuplicates(UpdatedHistory(term, prev))
  {
    var f := Other(term);
    var others := Filter(f, prev);
    FilterNoDuplicates(f, prev);
    HistoryHasTermOnce(term, prev);
    var r := UpdatedHistory(term, prev);
    assert r == Take([term] + others, MaxHistory);
    forall i, j | 0 <= i < j < |r| ensures r[i] != r[j] {
      if i > 0 {
        assert r[i] == others[i - 1] && r[j] == others[j - 1];
      }
    }
  }

  /** Searching the same term twice in a row changes nothing the second time. */
  lemma HistoryUpdateIdempotent(term: string, prev: seq<string>)
    ensures UpdatedHistory(term, UpdatedHistory(term, prev)) == UpdatedHistory(term, prev)
  {
    var f := Other(term);
    var r := UpdatedHistory(term, prev);
    HistoryHasTermOnce(term, prev);
    assert r == [r[0]] + r[1..];
    assert forall x :: x in r[1..] ==> f(x);
    FilterKeepsAll(f, r[1..]);
    assert !f(r[0]);
    assert Filter(f, r) == Filter(f, r[1..]);
  }

  /**
   * A new term on a full list evicts the oldest entry.
   */
  lemma NewTermEvictsOldest(term: string, prev: seq<string>)
    requires |prev| == MaxHistory && term !in prev
    ensures UpdatedHistory(term, prev) == [term] + prev[..MaxHistory - 1]
  {
    var f := Other(term);
    FilterKeepsAll(f, prev);
  }

  /** The values a submit hands to `onSearch`. */
  datatype Submitted = Ignored | Searched(term: string)

  /** The panel's state. */
  class SearchPanel {
    const catalog: seq<Product>
    var searchInput: string
    var searchHistory: seq<string>
    var suggestions: seq<string>

    ghost predicate Valid()
      reads this
    {
      |searchHistory| <= MaxHistory && NoDuplicates(searchHistory)
    }

    /** The history starts empty; restoring it from storage is not modelled. */
    constructor (catalog: seq<Product>)
      ensures Valid()
      ensures this.catalog == catalog
      ensures searchInput == "" && searchHistory == [] && suggestions == []
    {
      this.catalog := catalog;
      searchInput := "";
      searchHistory := [];
      suggestions := [];
    }

    /** `handleInputChange`, with the suggestions the debounced call settles on. */
    method HandleInputChange(value: string)
      requires Valid()
      modifies this
      ensures Valid()
      ensures searchInput == value
      ensures suggestions == Suggestions(value, catalog)
      ensures searchHistory == old(searchHistory)
    {
      var generated := GenerateSuggestions(value, catalog);
      searchInput := value;
      suggestions := generated;
    }

    /**
     * `handleSubmit`: a blank input is ignored; otherwise the trimmed input
     * is searched and recorded.
     */
    method HandleSubmit() returns (submitted: Submitted)
      requires Valid()
      modifies this
      ensures Valid()
      ensures Trim(old(searchInput)) == "" ==> submitted == Ignored && searchHistory == old(searchHistory)
      ensures Trim(old(searchInput)) != "" ==>
        submitted == Searched(Trim(old(searchInput))) &&
        searchHistory == UpdatedHistory(Trim(old(searchInput)), old(searchHistory))
      ensures searchInput == old(searchInput) && suggestions == old(suggestions)
    {
      var term := Trim(searchInput);
      if term != "" {
        HistoryStaysDistinct(term, searchHistory);
        searchHistory := UpdatedHistory(term, searchHistory);
        submitted := Searched(term);
      } else {
        submitted := Ignored;
      }
    }

    /** `handleSelectSuggestion`: the suggestion, untrimmed, is searched and recorded. */
    method HandleSelectSuggestion(suggestion: string) returns (submitted: Submitted)
      requires Valid()
      modifies this
      ensures Valid()
      ensures submitted == Searched(suggestion)
      ensures searchInput == suggestion
      ensures searchHistory == UpdatedHistory(suggestion, old(searchHistory))
      ensures suggestions == old(suggestions)
    {
      searchInput := suggestion;
      HistoryStaysDistinct(suggestion, searchHistory);
      searchHistory := UpdatedHistory(suggestion, searchHistory);
      submitted := Searched(suggestion);
    }

    /** `handleClearSearch`: only the input is cleared; the suggestions stay. */
    method HandleClearSearch()
      requires Valid()
      modifies this
      ensures Valid()
      ensures searchInput == ""
      ensures searchHistory == old(searchHistory) && suggestions == old(suggestions)
    {
      searchInput := "";
    }
  }

  /** Searching "batik", "kebaya", then "batik" again leaves both, newest first. */
  lemma RepeatedSearchMovesToFront()
    ensures UpdatedHistory("batik", UpdatedHistory("kebaya", UpdatedHistory("batik", []))) == ["batik", "kebaya"]
  {
    var h1 := UpdatedHistory("batik", []);
    assert h1 == ["batik"];
    var h2 := UpdatedHistory("kebaya", h1);
    assert Filter(Other("kebaya"), h1) == ["batik"];
    assert h2 == ["kebaya", "batik"];
    var f := Other("batik");
    assert Filter(f, h2) == ["kebaya"] by {
      assert Filter(f, h2) == [h2[0]] + Filter(f, h2[1..]);
      assert h2[1..] == ["batik"];
      assert Filter(f, ["batik"]) == [] + Filter(f, ["batik"][1..]);
    }
  }
}
