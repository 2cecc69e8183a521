/**
 * The search box (src/TechnologySearch.jsx): a case-insensitive substring
 * filter over title, description and category, which throws on a record
 * without a category that matches neither of the others, behind a single-slot
 * debounce.  `toLowerCase` is the parameter `fold`; timers are explicit
 * events: a keystroke (`Input`), the pending timer going off (`Fire`) and
 * unmounting (`Teardown`).
 */
module TechnologySearch {
  import opened Wrappers
  import opened Technologies

  /**
   * `fold(tech.title).includes(q) || fold(tech.description).includes(q) ||
   * fold(tech.category).includes(q)` with `q == fold(query)`, evaluated left
   * to right: `None` is the TypeError raised when the evaluation reaches the
   * category of a record that has none.
   */
  function MatchOutcome(query: string, fold: string -> string, t: Tech): (r: Option<bool>)
    ensures r.None? <==>
              t.category.None? && !Includes(fold(t.title), fold(query)) && !Includes(fold(t.description), fold(query))
    ensures r == Some(true) <==>
              Includes(fold(t.title), fold(query)) || Includes(fold(t.description), fold(query))
              || (t.category.Some? && Includes(fold(t.category.value), fold(query)))
  {
    if Includes(fold(t.title), fold(query)) || Includes(fold(t.description), fold(query)) then Some(true)
    else match t.category
         case None => None
         case Some(c) => Some(Includes(fold(c), fold(query)))
  }

  /** The filter's callback returns true for the record. */
  function MatchesQuery(query: string, fold: string -> string): (keep: Tech -> bool)
    ensures forall t :: keep(t) <==>
              Includes(fold(t.title), fold(query)) || Includes(fold(t.description), fold(query))
              || (t.category.Some? && Includes(fold(t.category.value), fold(query)))
  {
    (t: Tech) => MatchOutcome(query, fold, t) == Some(true)
  }

  /** The filter's callback throws on the record. */
  function ThrowsOn(query: string, fold: string -> string): Tech -> bool {
    (t: Tech) => MatchOutcome(query, fold, t).None?
  }

  /** What a finished search leaves on screen. */
  datatype Results = Results(filtered: seq<Tech>, showResults: bool)

  /**
   * `searchTechnologies(query)`: a query that is blank once trimmed clears
   * and hides the results; any other is matched as typed, untrimmed, and
   * the matching records are shown in their original order.  `None` is a
   * filter that threw: the `catch` swallows the error and nothing is set.
   */
  function Search(techs: seq<Tech>, query: string, fold: string -> string): (r: Option<Results>)
    ensures r.None? ==> Trim(query) != ""
    ensures r.Some? ==> (r.value.showResults <==> Trim(query) != "")
    ensures r.Some? && !r.value.showResults ==> r.value.filtered == []
  {
    if Trim(query) == "" then Some(Results([], false))
    else if Filter(techs, ThrowsOn(query, fold)) != [] then None
    else Some(Results(Filter(techs, MatchesQuery(query, fold)), true))
  }

  /** The screen after a search: a search that threw leaves the previous results. */
  function AfterSearch(screen: Results, outcome: Option<Results>): Results {
    match outcome
    case Some(r) => r
    case None => screen
  }

  /**
   * A blank query (empty or whitespace only) shows nothing; any other throws
   * iff some record matches neither by title nor by description and has no
   * category, and otherwise shows exactly the input records that match.
   */
  lemma SearchExact(techs: seq<Tech>, query: string, fold: string -> string)
    ensures Search(techs, query, fold).None? <==>
              (exists i | 0 <= i < |query| :: !IsSpace(query[i]))
              && exists j | 0 <= j < |techs| ::
                   techs[j].category.None? && !Includes(fold(techs[j].title), fold(query))
                   && !Includes(fold(techs[j].description), fold(query))
    ensures Search(techs, query, fold).Some? ==>
            var r := Search(techs, query, fold).value;
            (r.showResults <==> exists i | 0 <= i < |query| :: !IsSpace(query[i]))
            && (forall i | 0 <= i < |r.filtered| :: r.filtered[i] in techs && MatchesQuery(query, fold)(r.filtered[i]))
            && (r.showResults ==>
                  forall i | 0 <= i < |techs| :: MatchesQuery(query, fold)(techs[i]) ==> techs[i] in r.filtered)
            && (!r.showResults ==> r.filtered == [])
  {
    TrimEmpty(query);
    if forall j | 0 <= j < |techs| :: !ThrowsOn(query, fold)(techs[j]) {
      FilterNone(techs, ThrowsOn(query, fold));
    }
  }

  /**
   * The results keep the input order: searching a concatenation throws iff
   * searching either part does, and otherwise concatenates the results.
   */
  lemma SearchKeepsOrder(a: seq<Tech>, b: seq<Tech>, query: string, fold: string -> string)
    requires Trim(query) != ""
    ensures Search(a + b, query, fold).None? <==> Search(a, query, fold).None? || Search(b, query, fold).None?
    ensures Search(a + b, query, fold).Some? ==>
              Search(a + b, query, fold).value.filtered
              == Search(a, query, fold).value.filtered + Search(b, query, fold).value.filtered
  {
    FilterConcat(a, b, ThrowsOn(query, fold));
    FilterConcat(a, b, MatchesQuery(query, fold));
  }

  // ---------------------------------------------------------------------
  // The debounce slot
  // ---------------------------------------------------------------------

  datatype Event = Input(value: string) | Fire | Teardown

  /**
   * The timer slot (`searchTimeoutRef.current`), the queries whose search has
   * started, and whether the component is still mounted.
   */
  datatype Debounce = Debounce(pending: Option<string>, started: seq<string>, mounted: bool)

  /**
   * One event: a keystroke replaces whatever is pending; the timer going off
   * starts the pending search; teardown clears the slot.  An unmounted
   * component receives nothing.
   */
  function Step(d: Debounce, e: Event): (r: Debounce)
    ensures !d.mounted ==> r == d
    ensures d.mounted && e.Input? ==> r == d.(pending := Some(e.value))
    ensures d.mounted && e.Fire? && d.pending.Some? ==> r == Debounce(None, d.started + [d.pending.value], true)
    ensures e.Fire? && d.pending.None? ==> r == d
    ensures d.mounted && e.Teardown? ==> r == Debounce(None, d.started, false)
  {
    if !d.mounted then d
    else match e
         case Input(v) => d.(pending := Some(v))
         case Fire =>
           (match d.pending
            case Some(v) => Debounce(None, d.started + [v], true)
            case None => d)
         case Teardown => Debounce(None, d.started, false)
  }

  function Run(d: Debounce, events: seq<Event>): Debounce
    decreases |events|
  {
    if events == [] then d else Run(Step(d, events[0]), events[1..])
  }

  function Inputs(values: seq<string>): (r: seq<Event>)
    ensures |r| == |values|
    ensures forall i | 0 <= i < |values| :: r[i] == Input(values[i])
    decreases |values|
  {
    if values == [] then [] else [Input(values[0])] + Inputs(values[1..])
  }

  /**
   * A burst of keystrokes followed by the timer starts exactly one search,
   * for the last value typed.
   */
  lemma {:induction false} LatestWins(d: Debounce, values: seq<string>)
    requires d.mounted && values != []
    ensures Run(d, Inputs(values) + [Fire]) == Debounce(None, d.started + [values[|values| - 1]], true)
    decreases |values|
  {
    var d1 := Step(d, Input(values[0]));
    assert (Inputs(values) + [Fire])[1..] == Inputs(values[1..]) + [Fire];
    if |values| == 1 {
      assert Inputs(values[1..]) + [Fire] == [Fire];
      assert Run(d1, [Fire]) == Run(Step(d1, Fire), []);
    } else {
      LatestWins(d1, values[1..]);
    }
  }

  /** After teardown nothing is pending and no later event starts a search. */
  lemma {:induction false} TeardownSilences(d: Debounce, later: seq<Event>)
    ensures d.mounted ==> Step(d, Teardown).pending.None?
    ensures Run(Step(d, Teardown), later).started == d.started
    decreases |later|
  {
    var t := Step(d, Teardown);
    if later != [] {
      assert Step(t, later[0]) == t;
      assert Run(t, later) == Run(t, later[1..]);
      TeardownSilences(d, later[1..]);
    }
  }

  /** The component with its debounce slot and what it shows. */
  class SearchBox {
    var searchTerm: string
    var pending: Option<string>
    var started: seq<string>
    var mounted: bool
    var filtered: seq<Tech>
    var showResults: bool
    const technologies: seq<Tech>
    const fold: string -> string

    constructor (technologies: seq<Tech>, fold: string -> string)
      ensures this.technologies == technologies && this.fold == fold
      ensures searchTerm == "" && pending.None? && started == [] && mounted
      ensures filtered == [] && !showResults
    {
      this.technologies := technologies;
      this.fold := fold;
      searchTerm := "";
      pending := None;
      started := [];
      mounted := true;
      filtered := [];
      showResults := false;
    }

    function Slot(): Debounce
      reads this
    {
      Debounce(pending, started, mounted)
    }

    /** `handleSearchChange`: the term follows the input and the slot holds only the new value. */
    method HandleSearchChange(value: string)
      requires mounted
      modifies this
      ensures Slot() == Step(old(Slot()), Input(value))
      ensures searchTerm == value
      ensures filtered == old(filtered) && showResults == old(showResults)
    {
      searchTerm := value;
      pending := Some(value);
    }

    /**
     * The pending timer goes off: its search runs to completion on the value
     * it captured, and a search that threw keeps what was on screen.
     */
    method FireTimer()
      modifies this
      ensures Slot() == Step(old(Slot()), Fire)
      ensures searchTerm == old(searchTerm)
      ensures old(mounted) && old(pending).Some? ==>
                Results(filtered, showResults)
                == AfterSearch(old(Results(filtered, showResults)), Search(technologies, old(pending).value, fold))
      ensures !(old(mounted) && old(pending).Some?) ==> filtered == old(filtered) && showResults == old(showResults)
    {
      if mounted && pending.Some? {
        var query := pending.value;
        Show(query);
        pending, started := None, started + [query];
      }
    }

    /**
     * The search for `query` runs; its results replace what is on screen,
     * unless the filter threw, and nothing else changes.
     */
    method Show(query: string)
      modifies this
      ensures Results(filtered, showResults) == AfterSearch(old(Results(filtered, showResults)), Search(technologies, query, fold))
      ensures Slot() == old(Slot()) && searchTerm == old(searchTerm)
    {
      var outcome := Search(technologies, query, fold);
      if outcome.Some? {
        filtered, showResults := outcome.value.filtered, outcome.value.showResults;
      }
    }

    /** Unmounting clears the pending timer. */
    method Teardown()
      modifies this
      ensures Slot() == Step(old(Slot()), Event.Teardown)
      ensures searchTerm == old(searchTerm) && filtered == old(filtered) && showResults == old(showResults)
    {
      if mounted {
        pending := None;
        mounted := false;
      }
    }

    /** `handleSelectTechnology(tech)`: the term clears, the list hides, and the record is returned to forward. */
    method HandleSelect(tech: Tech) returns (forwarded: Tech)
      modifies this
      ensures forwarded == tech
      ensures searchTerm == "" && !showResults
      ensures Slot() == old(Slot()) && filtered == old(filtered)
    {
      searchTerm := "";
      showResults := false;
      forwarded := tech;
    }
  }
}
