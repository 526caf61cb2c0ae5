/** The history drawer: a static table of event categories shown as an
    accordion on the left, and the details of the selected event on the
    right. Its own state is `expandedCategory` and `selectedEvent`; the
    drawer renders nothing while `isOpen` is false. */
module HistoryDrawer {
  import opened JsValues
  import opened JsNumbers

  datatype MockEvent = MockEvent(id: string, title: string, date: string, category: string)

  datatype Category = Category(id: string, caption: string, icon: string, events: seq<MockEvent>)

  const Wars := Category("war", "Wars & Conflicts", "\U{2694}\U{FE0F}", [
    MockEvent("1", "World War I Begins", "1914", "war"),
    MockEvent("2", "Battle of Somme", "1916", "war"),
    MockEvent("3", "Treaty of Versailles", "1919", "war")])
  const Revolutions := Category("revolution", "Revolutions", "\U{270A}", [
    MockEvent("4", "Russian Revolution", "1917", "revolution"),
    MockEvent("5", "October Revolution", "1917", "revolution")])
  const Discoveries := Category("discovery", "Discoveries", "\U{1F52C}", [
    MockEvent("6", "Discovery of Penicillin", "1928", "discovery")])
  const NaturalDisasters := Category("natural_disaster", "Natural Disasters", "\U{1F32A}\U{FE0F}", [])
  const Politics := Category("politics", "Politics", "\U{1F3DB}\U{FE0F}", [])
  const SocialChanges := Category("social", "Social Changes", "\U{1F465}", [])
  const Economics := Category("economics", "Economics", "\U{1F4B0}", [])
  const Culture := Category("culture", "Culture & Arts", "\U{1F3A8}", [])

  /** The mock category table, in display order. */
  const EventCategories: seq<Category> :=
    [Wars, Revolutions, Discoveries, NaturalDisasters, Politics, SocialChanges, Economics, Culture]

  // ---------------------------------------------------------------------
  // Table invariants

  predicate DistinctIds(table: seq<Category>) {
    forall i, j :: 0 <= i < j < |table| ==> table[i].id != table[j].id
  }

  /** Every event sits in the category its own `category` field names. */
  predicate EventsInOwnCategory(table: seq<Category>) {
    forall i, k :: 0 <= i < |table| && 0 <= k < |table[i].events| ==> table[i].events[k].category == table[i].id
  }

  /** The mock table has eight categories with distinct ids. */
  lemma TableIdsDistinct()
    ensures |EventCategories| == 8
    ensures DistinctIds(EventCategories)
  {
    DistinctByFirstChar(EventCategories, "wrdnpsec");
  }

  /** Ids that differ in their first character are distinct. */
  lemma DistinctByFirstChar(table: seq<Category>, firsts: string)
    requires |firsts| == |table|
    requires forall i :: 0 <= i < |table| ==> table[i].id != [] && table[i].id[0] == firsts[i]
    requires forall i, j :: 0 <= i < j < |firsts| ==> firsts[i] != firsts[j]
    ensures DistinctIds(table)
  {
    forall i, j | 0 <= i < j < |table|
      ensures table[i].id != table[j].id
    {
      assert table[i].id[0] != table[j].id[0];
    }
  }

  /** Each mock event is filed under the category its own `category` names. */
  lemma TableEventsFiled()
    ensures EventsInOwnCategory(EventCategories)
  {
    forall i, k | 0 <= i < |EventCategories| && 0 <= k < |EventCategories[i].events|
      ensures EventCategories[i].events[k].category == EventCategories[i].id
    {
      assert i < 3;
    }
  }

  // ---------------------------------------------------------------------
  // Category lookup

  /** `table.findIndex(c => c.id === id)` from position `from` on: the first
      category with that id, or none. */
  function FindCategory(table: seq<Category>, id: string, from: nat := 0): (r: Option<nat>)
    requires from <= |table|
    ensures r.Some? ==> from <= r.value < |table| && table[r.value].id == id
    ensures r.Some? ==> forall j :: from <= j < r.value ==> table[j].id != id
    ensures r.None? <==> forall j :: from <= j < |table| ==> table[j].id != id
    decreases |table| - from
  {
    if from == |table| then None
    else if table[from].id == id then Some(from)
    else FindCategory(table, id, from + 1)
  }

  /** The label shown for an event's category: the found category's label, or
      "Unknown" when there is none or its label is empty. */
  function CategoryLabel(table: seq<Category>, category: string): (r: string)
    ensures r != ""
    ensures FindCategory(table, category).None? ==> r == "Unknown"
    ensures FindCategory(table, category).Some? && table[FindCategory(table, category).value].caption != "" ==>
      r == table[FindCategory(table, category).value].caption
    ensures FindCategory(table, category).Some? && table[FindCategory(table, category).value].caption == "" ==>
      r == "Unknown"
  {
    var found := FindCategory(table, category);
    OrDefault(if found.Some? then Some(table[found.value].caption) else None, "Unknown")
  }

  /** With distinct ids the lookup finds a category by its own id. */
  lemma FindOwnCategory(table: seq<Category>, i: nat)
    requires DistinctIds(table) && i < |table|
    ensures FindCategory(table, table[i].id) == Some(i)
  {
  }

  /** With distinct ids, a category's own id is labelled with its caption
      when that caption is not empty. */
  lemma OwnCategoryLabel(table: seq<Category>, i: nat)
    requires DistinctIds(table) && i < |table| && table[i].caption != ""
    ensures CategoryLabel(table, table[i].id) == table[i].caption
  {
    FindOwnCategory(table, i);
  }

  /** Every mock event shows the label of the category that contains it. */
  lemma MockEventLabels(i: nat, k: nat)
    requires i < |EventCategories| && k < |EventCategories[i].events|
    ensures CategoryLabel(EventCategories, EventCategories[i].events[k].category) == EventCategories[i].caption
  {
    TableIdsDistinct();
    TableEventsFiled();
    assert i < 3;
    OwnCategoryLabel(EventCategories, i);
  }

  /** An event whose category is not in the table is labelled "Unknown". */
  lemma UnknownCategoryLabel(category: string)
    requires forall i :: 0 <= i < |EventCategories| ==> EventCategories[i].id != category
    ensures CategoryLabel(EventCategories, category) == "Unknown"
  {
  }

  // ---------------------------------------------------------------------
  // Count label

  /** `{n} event{n !== 1 ? "s" : ""}` under a category's caption: the count,
      read back by `parseInt`, followed by the word. */
  function CountLabel(n: nat): (r: string)
    ensures |r| > |NumberToString(n)| && r[..|NumberToString(n)|] == NumberToString(n)
    ensures r[|r| - 1] == 's' <==> n != 1
    ensures r[|NumberToString(n)|..] == if n == 1 then " event" else " events"
  {
    var word := " event" + (if n != 1 then "s" else "");
    NumberToString(n) + word
  }

  /** `parseInt` reads the count back from its label. */
  lemma {:induction false} CountLabelReadsBack(n: nat)
    ensures ParseInt(CountLabel(n)) == Some(n)
  {
    var word := " event" + (if n != 1 then "s" else "");
    ParseIntOfNumberToString(n, word);
  }

  /** Only one event gives the singular label "1 event"; 0 gives "0 events". */
  lemma {:induction false} CountLabelSingular(n: nat)
    ensures n == 1 <==> CountLabel(n) == "1 event"
    ensures n == 0 ==> CountLabel(n) == "0 events"
  {
    if n == 1 {
      CountLabelOfOne();
    } else {
      var r := CountLabel(n);
      assert r[|r| - 1] == 's';
      assert "1 event"[6] == 't';
      if n == 0 {
        assert NumberToString(0) == "0";
      }
    }
  }

  lemma CountLabelOfOne()
    ensures CountLabel(1) == "1 event"
  {
    assert Digits(1) == ['1'];
    assert NumberToString(1) == "1";
  }

  // ---------------------------------------------------------------------
  // Toggle

  /** The accordion click: collapse when that category is the expanded one,
      otherwise expand it (collapsing any other). */
  function Toggled(expanded: Option<string>, id: string): (r: Option<string>)
    ensures r.None? <==> expanded == Some(id)
    ensures r.Some? ==> r.value == id
  {
    if expanded == Some(id) then None else Some(id)
  }

  /** Two clicks on the same category restore the state exactly when nothing
      or that category was expanded; from another expanded category they
      leave everything collapsed. */
  lemma ToggleTwice(expanded: Option<string>, id: string)
    ensures Toggled(Toggled(expanded, id), id) == expanded <==> expanded.None? || expanded == Some(id)
    ensures expanded.Some? && expanded.value != id ==> Toggled(Toggled(expanded, id), id).None?
  {
  }

  // ---------------------------------------------------------------------
  // View

  /** One event button: its title, its date and whether it is highlighted as
      the selected event. */
  datatype EventRow = EventRow(title: string, date: string, highlighted: bool)

  /** What appears under a category header. */
  datatype Panel = Collapsed | NoEventsFound | EventList(rows: seq<EventRow>)

  /** A category header and its panel. `arrowDegrees` is the arrow's rotation. */
  datatype CategoryView = CategoryView(icon: string, caption: string, count: string, arrowDegrees: int, panel: Panel)

  /** The right-hand side: a welcome text, or the selected event's details,
      with the "Key Information" block's country, time period and id. */
  datatype Detail =
    | Welcome
    | EventDetail(title: string, date: string, categoryLabel: string,
                  country: string, period: string, eventId: string)

  datatype DrawerView = DrawerView(
    title: string, subtitle: string, categories: seq<CategoryView>, detail: Detail)

  function Rows(events: seq<MockEvent>, selected: Option<MockEvent>): (rows: seq<EventRow>)
    ensures |rows| == |events|
    ensures forall k :: 0 <= k < |events| ==>
      rows[k].title == events[k].title && rows[k].date == events[k].date &&
      (rows[k].highlighted <==> selected.Some? && selected.value.id == events[k].id)
  {
    if events == [] then []
    else
      var e := events[0];
      [EventRow(e.title, e.date, selected.Some? && selected.value.id == e.id)] + Rows(events[1..], selected)
  }

  function PanelOf(c: Category, expanded: Option<string>, selected: Option<MockEvent>): (p: Panel)
    ensures p.Collapsed? <==> expanded != Some(c.id)
    ensures p.NoEventsFound? <==> expanded == Some(c.id) && c.events == []
    ensures p.EventList? ==> p.rows == Rows(c.events, selected) && p.rows != []
  {
    if expanded != Some(c.id) then Collapsed
    else if |c.events| == 0 then NoEventsFound
    else EventList(Rows(c.events, selected))
  }

  function CategoryViewOf(c: Category, expanded: Option<string>, selected: Option<MockEvent>): (v: CategoryView)
    ensures v.caption == c.caption && v.count == CountLabel(|c.events|)
    ensures v.arrowDegrees == 180 <==> expanded == Some(c.id)
    ensures v.arrowDegrees == 0 <==> expanded != Some(c.id)
    ensures v.panel == PanelOf(c, expanded, selected)
  {
    CategoryView(c.icon, c.caption, CountLabel(|c.events|), if expanded == Some(c.id) then 180 else 0,
                 PanelOf(c, expanded, selected))
  }

  function CategoryViews(table: seq<Category>, expanded: Option<string>, selected: Option<MockEvent>): (vs: seq<CategoryView>)
    ensures |vs| == |table|
    ensures forall i :: 0 <= i < |table| ==> vs[i] == CategoryViewOf(table[i], expanded, selected)
  {
    if table == [] then [] else [CategoryViewOf(table[0], expanded, selected)] + CategoryViews(table[1..], expanded, selected)
  }

  function DetailOf(selected: Option<MockEvent>, countryName: string, countryCode: string, year: int): (d: Detail)
    ensures d.Welcome? <==> selected.None?
    ensures d.EventDetail? ==>
      d.title == selected.value.title && d.date == selected.value.date &&
      d.categoryLabel == CategoryLabel(EventCategories, selected.value.category) && d.eventId == selected.value.id
    ensures d.EventDetail? ==>
      d.country == countryName + " (" + countryCode + ")" &&
      d.period == NumberToString(year) + " CE"
  {
    if selected.None? then Welcome
    else
      var e := selected.value;
      EventDetail(e.title, e.date, CategoryLabel(EventCategories, e.category),
                  countryName + " (" + countryCode + ")", NumberToString(year) + " CE", e.id)
  }

  /** With distinct ids, at most one category shows a panel. */
  lemma AtMostOnePanelOpen(table: seq<Category>, expanded: Option<string>, selected: Option<MockEvent>)
    requires DistinctIds(table)
    ensures forall i, j ::
      0 <= i < |table| && 0 <= j < |table| &&
      !PanelOf(table[i], expanded, selected).Collapsed? &&
      !PanelOf(table[j], expanded, selected).Collapsed? ==>
      i == j
  {
  }

  // ---------------------------------------------------------------------
  // The component

  class Drawer {
    // Props.
    var isOpen: bool
    var countryName: string
    var countryCode: string
    var year: int
    // State.
    var expandedCategory: Option<string>
    var selectedEvent: Option<MockEvent>

    /** Mounting: nothing expanded and nothing selected. */
    constructor (isOpen: bool, countryName: string, countryCode: string, year: int)
      ensures this.isOpen == isOpen && this.countryName == countryName
      ensures this.countryCode == countryCode && this.year == year
      ensures expandedCategory.None? && selectedEvent.None?
    {
      this.isOpen := isOpen;
      this.countryName := countryName;
      this.countryCode := countryCode;
      this.year := year;
      expandedCategory := None;
      selectedEvent := None;
    }

    /** A click on a category header. */
    method ClickCategory(id: string)
      modifies this`expandedCategory
      ensures expandedCategory == Toggled(old(expandedCategory), id)
    {
      expandedCategory := if expandedCategory == Some(id) then None else Some(id);
    }

    /** A click on an event button. */
    method ClickEvent(event: MockEvent)
      modifies this`selectedEvent
      ensures selectedEvent == Some(event)
    {
      selectedEvent := Some(event);
    }

    /** The parent re-renders with new props; the component's state persists,
        also across closing and reopening. */
    method ReceiveProps(isOpen: bool, countryName: string, countryCode: string, year: int)
      modifies this`isOpen, this`countryName, this`countryCode, this`year
      ensures this.isOpen == isOpen && this.countryName == countryName
      ensures this.countryCode == countryCode && this.year == year
    {
      this.isOpen := isOpen;
      this.countryName := countryName;
      this.countryCode := countryCode;
      this.year := year;
    }

    /** What the drawer renders: nothing while closed. */
    function Render(): (r: Option<DrawerView>)
      reads this
      ensures r.None? <==> !isOpen
      ensures r.Some? ==>
        r.value.title == countryName &&
        r.value.subtitle == "Historical Events - " + NumberToString(year) + " CE" &&
        r.value.categories == CategoryViews(EventCategories, expandedCategory, selectedEvent) &&
        r.value.detail == DetailOf(selectedEvent, countryName, countryCode, year)
    {
      if !isOpen then None
      else Some(DrawerView(countryName, "Historical Events - " + NumberToString(year) + " CE",
                           CategoryViews(EventCategories, expandedCategory, selectedEvent),
                           DetailOf(selectedEvent, countryName, countryCode, year)))
    }
  }
}
