/** The country search box: a combobox over the loaded countries, a
    trigger showing the selected country, and an Explore button. The
    selected code is owned by the parent and passed in as `value`. */
module CountrySearch {
  import opened JsValues
  import opened Types

  /** `countries.findIndex(c => c.country_code === code)` from `from` on. */
  function FindByCode(countries: seq<Country>, code: string, from: nat := 0): (r: Option<nat>)
    requires from <= |countries|
    ensures r.Some? ==> from <= r.value < |countries| && countries[r.value].countryCode == code
    ensures r.Some? ==> forall j :: from <= j < r.value ==> countries[j].countryCode != code
    ensures r.None? <==> forall j :: from <= j < |countries| ==> countries[j].countryCode != code
    decreases |countries| - from
  {
    if from == |countries| then None
    else if countries[from].countryCode == code then Some(from)
    else FindByCode(countries, code, from + 1)
  }

  /** `selectedCountry`: the first loaded country carrying the selected code. */
  function SelectedCountry(countries: seq<Country>, value: string): (r: Option<Country>)
    ensures r.Some? <==> exists i :: 0 <= i < |countries| && countries[i].countryCode == value
    ensures r.Some? ==> r.value.countryCode == value && r.value in countries
  {
    var found := FindByCode(countries, value);
    if found.Some? then Some(countries[found.value]) else None
  }

  /** Whether the Explore button is disabled: no loaded country has the selected code. */
  function ExploreDisabled(countries: seq<Country>, value: string): (r: bool)
    ensures r <==> forall i :: 0 <= i < |countries| ==> countries[i].countryCode != value
  {
    SelectedCountry(countries, value).None?
  }

  /** What the trigger button shows. */
  datatype Trigger =
    | LoadingText                                  // "Loading countries..."
    | SelectedName(name: string, flag: MaybeString) // the name, with the flag when its URL is truthy
    | Placeholder                                  // the search prompt

  function TriggerOf(loading: bool, countries: seq<Country>, value: string): (t: Trigger)
    ensures loading <==> t.LoadingText?
    ensures t.SelectedName? <==> !loading && !ExploreDisabled(countries, value)
    ensures t.SelectedName? ==>
      t.name == SelectedCountry(countries, value).value.name &&
      (t.flag.Some? <==> TruthyString(SelectedCountry(countries, value).value.flagUrl)) &&
      (t.flag.Some? ==> t.flag == SelectedCountry(countries, value).value.flagUrl)
  {
    if loading then LoadingText
    else
      var selected := SelectedCountry(countries, value);
      if selected.Some? then
        var c := selected.value;
        SelectedName(c.name, if TruthyString(c.flagUrl) then c.flagUrl else None)
      else Placeholder
  }

  /** One list item: the search text, the flag (when truthy), the subtitle
      `code` or `code • region`, and whether the check mark is visible. */
  datatype Item = Item(searchText: string, flag: MaybeString, subtitle: string, checked: bool)

  function ItemOf(c: Country, value: string): (it: Item)
    ensures it.checked <==> c.countryCode == value
    ensures it.searchText == c.name + " " + c.countryCode
    ensures it.flag.Some? <==> TruthyString(c.flagUrl)
    ensures TruthyString(c.region) ==> it.subtitle == c.countryCode + " \U{2022} " + c.region.value
    ensures !TruthyString(c.region) ==> it.subtitle == c.countryCode
  {
    Item(c.name + " " + c.countryCode,
         if TruthyString(c.flagUrl) then c.flagUrl else None,
         c.countryCode + (if TruthyString(c.region) then " \U{2022} " + c.region.value else ""),
         c.countryCode == value)
  }

  function Items(countries: seq<Country>, value: string): (items: seq<Item>)
    ensures |items| == |countries|
    ensures forall i :: 0 <= i < |countries| ==> items[i] == ItemOf(countries[i], value)
  {
    if countries == [] then [] else [ItemOf(countries[0], value)] + Items(countries[1..], value)
  }

  /** The check mark is on exactly the items carrying the selected code; with
      unique codes that is the selected country's item alone. */
  lemma CheckedItems(countries: seq<Country>, value: string)
    requires forall i, j :: 0 <= i < j < |countries| ==> countries[i].countryCode != countries[j].countryCode
    ensures forall i :: 0 <= i < |countries| ==>
      (Items(countries, value)[i].checked <==> FindByCode(countries, value) == Some(i))
  {
    forall i | 0 <= i < |countries|
      ensures Items(countries, value)[i].checked <==> FindByCode(countries, value) == Some(i)
    {
      if countries[i].countryCode == value {
        assert FindByCode(countries, value).Some?;
      }
    }
  }

  /** Whom selecting country `c` notifies: `newValue` is "" when `c` is
      already selected, and the parent hears `(code, name)` only when
      `newValue` is truthy. */
  function Notification(c: Country, value: string): (r: Option<(string, string)>)
    ensures r.Some? <==> c.countryCode != value && c.countryCode != ""
    ensures r.Some? ==> r.value == (c.countryCode, c.name)
  {
    var newValue := if c.countryCode == value then "" else c.countryCode;
    if newValue != "" then Some((c.countryCode, c.name)) else None
  }

  /** Once the parent adopts the notified code, selecting the same item again
      notifies nobody. */
  lemma NotificationSettles(c: Country, value: string)
    requires Notification(c, value).Some?
    ensures Notification(c, Notification(c, value).value.0).None?
  {
  }

  datatype SearchView = SearchView(trigger: Trigger, popoverOpen: bool, items: seq<Item>, exploreDisabled: bool)

  class SearchBox {
    /** The `selectedCountryCode` prop. */
    var value: string
    var open: bool
    var countries: seq<Country>
    var loading: bool

    /** Mounting: closed, no countries, loading. */
    constructor (selectedCountryCode: string)
      ensures value == selectedCountryCode
      ensures !open && countries == [] && loading
    {
      value := selectedCountryCode;
      open := false;
      countries := [];
      loading := true;
    }

    /** `loadCountries` once the fetch settles: the list is replaced only when
        the fetch succeeded, and loading ends either way. */
    method LoadCountries(fetched: Result<seq<Country>, string>)
      modifies this`countries, this`loading
      ensures !loading
      ensures fetched.Ok? ==> countries == fetched.value
      ensures fetched.Err? ==> countries == old(countries)
    {
      if fetched.Ok? {
        countries := fetched.value;
      }
      loading := false;
    }

    /** The popover's `onOpenChange`. */
    method SetOpen(o: bool)
      modifies this`open
      ensures open == o
    {
      open := o;
    }

    /** Selecting the `i`-th listed country closes the popover and returns the
        notification sent to the parent, if any. */
    method SelectItem(i: nat) returns (notified: Option<(string, string)>)
      requires i < |countries|
      modifies this`open
      ensures !open
      ensures notified == Notification(countries[i], value)
      ensures notified.Some? <==> countries[i].countryCode != value && countries[i].countryCode != ""
    {
      var country := countries[i];
      var newValue := if country.countryCode == value then "" else country.countryCode;
      open := false;
      if newValue != "" {
        notified := Some((country.countryCode, country.name));
      } else {
        notified := None;
      }
    }

    /** The parent re-renders with a new selected code. */
    method ReceiveSelectedCode(code: string)
      modifies this`value
      ensures value == code
    {
      value := code;
    }

    function Render(): (v: SearchView)
      reads this
      ensures v.trigger == TriggerOf(loading, countries, value)
      ensures v.popoverOpen == open
      ensures v.items == Items(countries, value)
      ensures v.exploreDisabled <==> SelectedCountry(countries, value).None?
    {
      SearchView(TriggerOf(loading, countries, value), open, Items(countries, value),
                 ExploreDisabled(countries, value))
    }
  }
}
