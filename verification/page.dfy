/** The home page: it owns the selected year, the selected country and
    whether the history drawer is open, and wires the globe, the search
    box and the drawer to those three fields. */
module HomePage {
  import opened JsValues
  import CountrySearch
  import Types

  /** The selected country; `flagUrl` is always left undefined by the handlers. */
  datatype Selection = Selection(code: string, name: MaybeString, flagUrl: MaybeString)

  datatype HomeState = HomeState(selectedYear: int, selectedCountry: Option<Selection>, isDrawerOpen: bool)

  /** Mounting: year 2025, nothing selected, drawer closed. */
  const Initial: HomeState := HomeState(2025, None, false)

  /** The events the page reacts to. A globe click may carry no name (the
      feature's `ADMIN || NAME` can be undefined); a search always has one. */
  datatype Action =
    | CountryClick(code: string, clickedName: MaybeString)   // handleCountryClick
    | CountrySearched(code: string, searchedName: string)    // handleCountrySearch
    | YearChange(year: int)                                  // handleYearChange
    | Explore                                                // handleExplore
    | CloseDrawer                                            // the drawer's onClose

  predicate IsSelection(a: Action) {
    a.CountryClick? || a.CountrySearched?
  }

  /** The drawer can be open only while a country is selected. */
  predicate Invariant(s: HomeState) {
    s.isDrawerOpen ==> s.selectedCountry.Some?
  }

  /** One handler run to completion. */
  function Step(s: HomeState, a: Action): (t: HomeState)
    ensures IsSelection(a) ==>
      t.selectedCountry.Some? && t.selectedCountry.value.code == a.code &&
      t.selectedCountry.value.flagUrl.None? &&
      t.selectedYear == s.selectedYear && t.isDrawerOpen == s.isDrawerOpen
    ensures a.CountryClick? ==> t.selectedCountry.value.name == a.clickedName
    ensures a.CountrySearched? ==> t.selectedCountry.value.name == Some(a.searchedName)
    ensures a.YearChange? ==> t == s.(selectedYear := a.year)
    ensures a.Explore? ==> t == (if s.selectedCountry.Some? then s.(isDrawerOpen := true) else s)
    ensures a.CloseDrawer? ==> t == s.(isDrawerOpen := false)
    ensures s.selectedCountry.Some? ==> t.selectedCountry.Some?
    ensures s.selectedCountry.None? && t.selectedCountry.Some? ==> IsSelection(a)
    ensures Invariant(s) ==> Invariant(t)
  {
    match a
    case CountryClick(code, name) => s.(selectedCountry := Some(Selection(code, name, None)))
    case CountrySearched(code, name) => s.(selectedCountry := Some(Selection(code, Some(name), None)))
    case YearChange(year) => s.(selectedYear := year)
    case Explore => if s.selectedCountry.Some? then s.(isDrawerOpen := true) else s
    case CloseDrawer => s.(isDrawerOpen := false)
  }

  /** The state after a sequence of handlers. */
  function Run(s: HomeState, actions: seq<Action>): HomeState
    decreases |actions|
  {
    if actions == [] then s else Run(Step(s, actions[0]), actions[1..])
  }

  /** Every reachable state keeps the drawer closed while nothing is selected. */
  lemma {:induction false} RunPreservesInvariant(s: HomeState, actions: seq<Action>)
    requires Invariant(s)
    ensures Invariant(Run(s, actions))
    decreases |actions|
  {
    if actions != [] {
      RunPreservesInvariant(Step(s, actions[0]), actions[1..]);
    }
  }

  /** No handler clears the selection. */
  lemma {:induction false} SelectionIsPermanent(s: HomeState, actions: seq<Action>)
    requires s.selectedCountry.Some?
    ensures Run(s, actions).selectedCountry.Some?
    decreases |actions|
  {
    if actions != [] {
      SelectionIsPermanent(Step(s, actions[0]), actions[1..]);
    }
  }

  /** A country is selected only after a globe click or a search selected one. */
  lemma {:induction false} SelectionNeedsSelectingAction(s: HomeState, actions: seq<Action>)
    requires s.selectedCountry.None?
    requires Run(s, actions).selectedCountry.Some?
    ensures exists i :: 0 <= i < |actions| && IsSelection(actions[i])
    decreases |actions|
  {
    var t := Step(s, actions[0]);
    if t.selectedCountry.None? {
      SelectionNeedsSelectingAction(t, actions[1..]);
      var i :| 0 <= i < |actions[1..]| && IsSelection(actions[1..][i]);
      assert IsSelection(actions[i + 1]);
    } else {
      assert IsSelection(actions[0]);
    }
  }

  /** From the initial page, the drawer opens only after some country was
      selected by a click or a search. */
  lemma DrawerOpensOnlyAfterSelection(actions: seq<Action>)
    requires Run(Initial, actions).isDrawerOpen
    ensures exists i :: 0 <= i < |actions| && IsSelection(actions[i])
  {
    RunPreservesInvariant(Initial, actions);
    SelectionNeedsSelectingAction(Initial, actions);
  }

  // ---------------------------------------------------------------------
  // What the children receive

  /** `selectedCountry?.code || ""`, the search box's `selectedCountryCode`. */
  function SearchBoxCode(s: HomeState): (r: string)
    ensures s.selectedCountry.None? ==> r == ""
    ensures s.selectedCountry.Some? ==> r == s.selectedCountry.value.code
  {
    if s.selectedCountry.Some? && s.selectedCountry.value.code != "" then s.selectedCountry.value.code else ""
  }

  /** The props the page hands the drawer. The drawer declares `countryName`
      as a string, but a globe click can leave the name undefined, so it is
      passed on as a `MaybeString`; `HistoryDrawer.Drawer` receives it as a
      string, which holds whenever the name is defined. */
  datatype DrawerProps = DrawerProps(isOpen: bool, countryName: MaybeString, countryCode: string, year: int)

  /** The drawer is mounted only while a country is selected. */
  function Drawer(s: HomeState): (r: Option<DrawerProps>)
    ensures r.Some? <==> s.selectedCountry.Some?
    ensures r.Some? ==>
      r.value == DrawerProps(s.isDrawerOpen, s.selectedCountry.value.name, s.selectedCountry.value.code, s.selectedYear)
  {
    match s.selectedCountry
    case None => None
    case Some(c) => Some(DrawerProps(s.isDrawerOpen, c.name, c.code, s.selectedYear))
  }

  /** A search pick that notifies the page becomes the search box's selected
      code, and picking the same item again then notifies nobody. */
  lemma SearchPickSettles(s: HomeState, c: Types.Country)
    requires CountrySearch.Notification(c, SearchBoxCode(s)).Some?
    ensures var t := Step(s, CountrySearched(c.countryCode, c.name));
      SearchBoxCode(t) == c.countryCode && CountrySearch.Notification(c, SearchBoxCode(t)).None?
  {
  }

  /** Explore after a selection opens the mounted drawer for that country. */
  lemma ExploreOpensDrawer(s: HomeState)
    requires s.selectedCountry.Some?
    ensures var t := Step(s, Explore);
      Drawer(t).Some? && Drawer(t).value.isOpen && Drawer(t).value.countryCode == s.selectedCountry.value.code
  {
  }

  // ---------------------------------------------------------------------
  // The component

  class Home {
    var selectedYear: int
    var selectedCountry: Option<Selection>
    var isDrawerOpen: bool

    function State(): HomeState
      reads this
    {
      HomeState(selectedYear, selectedCountry, isDrawerOpen)
    }

    constructor ()
      ensures State() == Initial
    {
      selectedYear := 2025;
      selectedCountry := None;
      isDrawerOpen := false;
    }

    method HandleCountryClick(countryCode: string, countryName: MaybeString)
      modifies this`selectedCountry
      ensures State() == Step(old(State()), CountryClick(countryCode, countryName))
    {
      selectedCountry := Some(Selection(countryCode, countryName, None));
    }

    method HandleCountrySearch(countryCode: string, countryName: string)
      modifies this`selectedCountry
      ensures State() == Step(old(State()), CountrySearched(countryCode, countryName))
    {
      selectedCountry := Some(Selection(countryCode, Some(countryName), None));
    }

    method HandleYearChange(year: int)
      modifies this`selectedYear
      ensures State() == Step(old(State()), YearChange(year))
    {
      selectedYear := year;
    }

    method HandleExplore()
      modifies this`isDrawerOpen
      ensures State() == Step(old(State()), Explore)
    {
      if selectedCountry.Some? {
        isDrawerOpen := true;
      }
    }

    method HandleClose()
      modifies this`isDrawerOpen
      ensures State() == Step(old(State()), CloseDrawer)
    {
      isDrawerOpen := false;
    }
  }
}
