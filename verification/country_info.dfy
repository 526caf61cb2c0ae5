/** The country information card: a loading view, or the flag, name, code,
    the optional capital / population / region rows, the year in BCE/CE
    form and the Explore button. Every choice is made from the props by
    JavaScript truthiness. */
module CountryInfo {
  import opened JsValues
  import opened JsNumbers

  datatype Props = Props(
    countryName: string,
    countryCode: string,
    year: int,
    flagUrl: MaybeString,
    capital: MaybeString,
    population: Option<int>,
    region: MaybeString,
    isLoading: Option<bool>     // defaults to false when absent
  )

  /** `year < 0 ? `${Math.abs(year)} BCE` : `${year} CE``: the magnitude of the
      year, then the era; the era suffix tells BCE from CE, and year 0 is "0 CE". */
  function YearLabel(year: int): (r: string)
    ensures |r| > |NumberToString(Abs(year))| && r[..|NumberToString(Abs(year))|] == NumberToString(Abs(year))
    ensures year < 0 ==> r[|NumberToString(Abs(year))|..] == " BCE"
    ensures year >= 0 ==> r[|NumberToString(Abs(year))|..] == " CE"
    ensures IsBceLabel(r) <==> year < 0
  {
    var d := NumberToString(Abs(year));
    var suffix := if year < 0 then " BCE" else " CE";
    ThirdLastOfSuffix(d, suffix, d + suffix);
    d + suffix
  }

  /** The marker that tells the two forms apart: the third-last character is
      the `B` of " BCE", where " CE" has its space. */
  predicate IsBceLabel(r: string) {
    |r| >= 3 && r[|r| - 3] == 'B'
  }

  /** The third-last character of `d + suffix` belongs to the suffix. */
  lemma ThirdLastOfSuffix(d: string, suffix: string, r: string)
    requires |suffix| >= 3 && r == d + suffix
    ensures |r| >= 3 && r[|r| - 3] == suffix[|suffix| - 3]
  {
  }

  /** `parseInt` reads the magnitude of the year back from its label. */
  lemma {:induction false} YearLabelReadsBack(year: int)
    ensures ParseInt(YearLabel(year)) == Some(Abs(year))
  {
    var suffix := if year < 0 then " BCE" else " CE";
    ParseIntOfNumberToString(Abs(year), suffix);
  }

  /** Different years get different labels. */
  lemma {:induction false} YearLabelInjective(a: int, b: int)
    requires YearLabel(a) == YearLabel(b)
    ensures a == b
  {
    YearLabelReadsBack(a);
    YearLabelReadsBack(b);
  }

  /** The flag cell: the image when `flagUrl` is truthy, else a placeholder. */
  datatype Flag = FlagImage(src: string, alt: string) | FlagPlaceholder

  /** The population slot. `population && <row>` renders the row for a non-zero
      number; for 0 the expression's value is 0 itself, which React prints as
      the text "0"; for undefined it prints nothing. */
  datatype PopulationSlot = PopulationRow(value: int) | ZeroText | NoPopulation

  datatype View =
    | LoadingView
    | DetailsView(flag: Flag, name: string, code: string, capital: MaybeString,
                  population: PopulationSlot, region: MaybeString, yearLabel: string)

  /** `value && <row>` for a string prop: a row holding the value when it is
      truthy, nothing otherwise (an empty string renders as nothing). */
  function StringRow(v: MaybeString): (r: MaybeString)
    ensures r.Some? <==> TruthyString(v)
    ensures r.Some? ==> r == v
  {
    if TruthyString(v) then v else None
  }

  function PopulationSlotOf(p: Option<int>): (r: PopulationSlot)
    ensures r.PopulationRow? <==> TruthyInt(p)
    ensures r.PopulationRow? ==> r.value == p.value
    ensures r.ZeroText? <==> p == Some(0)
  {
    if TruthyInt(p) then PopulationRow(p.value) else if p.Some? then ZeroText else NoPopulation
  }

  function Render(p: Props): (v: View)
    ensures v.LoadingView? <==> p.isLoading == Some(true)
    ensures v.DetailsView? ==>
      v.name == p.countryName && v.code == p.countryCode && v.yearLabel == YearLabel(p.year)
    ensures v.DetailsView? ==> (v.flag.FlagImage? <==> TruthyString(p.flagUrl))
    ensures v.DetailsView? && v.flag.FlagImage? ==>
      v.flag == FlagImage(p.flagUrl.value, p.countryName + " flag")
    ensures v.DetailsView? ==>
      v.capital == StringRow(p.capital) && v.region == StringRow(p.region) &&
      v.population == PopulationSlotOf(p.population)
  {
    var loading := if p.isLoading.Some? then p.isLoading.value else false;
    if loading then LoadingView
    else
      DetailsView(
        if TruthyString(p.flagUrl) then FlagImage(p.flagUrl.value, p.countryName + " flag") else FlagPlaceholder,
        p.countryName, p.countryCode,
        StringRow(p.capital), PopulationSlotOf(p.population), StringRow(p.region),
        YearLabel(p.year))
  }

  /** A population of 0 never shows the population row, but the card is not
      blank there: the number 0 itself is printed. */
  lemma ZeroPopulationPrintsZero(p: Props)
    requires p.isLoading != Some(true) && p.population == Some(0)
    ensures Render(p).DetailsView? && !Render(p).population.PopulationRow?
    ensures Render(p).population == ZeroText
  {
  }
}
