/** The `countries` row the app reads. Only its shape is modelled;
    timestamps are kept as the strings the database returns. */
module Types {
  import opened JsValues

  /** A row of the `countries` table. */
  datatype Country = Country(
    countryCode: string,
    id: string,
    name: string,
    flagUrl: MaybeString,
    currentCapital: MaybeString,
    currentPopulation: Option<int>,
    region: MaybeString,
    createdAt: string,
    updatedAt: string,
    generalInformation: MaybeString
  )
}
