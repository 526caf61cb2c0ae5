# maptory globe viewer — Dafny model

A model of the deterministic logic in a globe-viewer web app. The app draws
countries on a 3-D globe and lets the user click or search for a country. It
shows the country's details and a drawer of historical events. It also ships
two scripts: one seeds the `countries` table, the other lists boundary
features that have no ISO code. Rendering, the database and the network are
replaced by plain values, as listed under "Left out".

The model has one module per source file:

- `WorldMapComponent`: the colour hash, the centre and zoom of a clicked
  country, the click report, and the polygon cap colour and altitude.
- `Timeline`: the year text field, the slider, the quick-jump buttons and
  the era label.
- `HistoryDrawer`: the category accordion, the selected event, the category
  label lookup, the count label and the static category table.
- `CountrySearch`: loading the countries, the selected-country lookup, the
  notify-on-select rule, the trigger label and the Explore button.
- `HomePage`: the page's three state fields and its handlers.
- `CountryInfo`: the BCE/CE label and which rows the card shows.
- `Populate`: the record transform and the batched insert loop.
- `FindMissing`: the problem-country filter.

Shared JavaScript behaviour lives in three modules:

- `JsValues`: `undefined`/`null` as `None`, truthiness, and `a || b`.
- `JsStrings`: UTF-16 code units and the white space `parseInt` skips.
- `JsNumbers`: ToInt32, the truncating `%`, `Number#toString` on integers
  and `parseInt` with no radix.

`GeoJson` and `Types` hold the record shapes.

Where the code works by changing state, the model does too. The React
components become classes whose fields are the props and the `useState`
values. The loops become methods with loop invariants. Most methods are proved
against a specification function, and the properties are proved about those
functions; the simple state setters state their effect directly.

## Model

| member | source | states |
|---|---|---|
| JsValues.OrString | src/components/WorldMapComponent.tsx:158-164 | `a \|\| b` on string properties: a truthy left side wins, otherwise the right side; the result is truthy iff either side is |
| JsValues.OrDefault | src/components/WorldMapComponent.tsx:191 | `a \|\| "literal"`: the truthy value, or else the literal; never empty when the literal is not |
| JsNumbers.ToInt32 | src/components/WorldMapComponent.tsx:22 | the operand conversion of `<<`: the result is in [-2^31, 2^31), congruent to the input mod 2^32, and the identity inside that range |
| JsNumbers.TruncRem | src/components/WorldMapComponent.tsx:25 | JS `%` by a positive divisor: the remainder takes the dividend's sign and its magnitude is \|a\| mod b |
| JsNumbers.NumberToString | src/components/Timeline.tsx:13 | `toString()` of an integer: a `-` exactly for negatives, then the shortest decimal digits, whose first digit is never `0` unless the number is 0, written "0" |
| JsNumbers.ParseInt | src/components/Timeline.tsx:26 | `parseInt(inputValue)`: blank text gives NaN, and a negative result needs a `-` after the leading white space; what it reads is stated by the ParseInt lemmas below |
| JsNumbers.ParseIntOfNumberToString | src/components/Timeline.tsx:26 | `parseInt` reads back any integer written by `toString`, whatever follows that does not continue the numeral |
| JsNumbers.ParseIntRoundTrip | src/components/Timeline.tsx:13 | `parseInt(n.toString()) == n` for every integer |
| JsNumbers.NumberToStringInjective | src/components/Timeline.tsx:13 | different integers are written differently |
| JsNumbers.ParseIntOfUnsigned | src/components/Timeline.tsx:26 | text that starts with a digit is read with no sign handling |
| JsNumbers.ParseIntSkipsWhiteSpace | src/components/Timeline.tsx:26 | leading white space never changes what `parseInt` reads |
| JsNumbers.ParseIntNaN | src/components/Timeline.tsx:26-27 | no decimal digit after the white space and an optional sign gives NaN |
| JsStrings.Utf16OfBmp | src/components/WorldMapComponent.tsx:21-22 | for text inside the Basic Multilingual Plane, `charCodeAt(i)` is the i-th character's code point and `length` is the character count |
| JsStrings.Utf16 | src/components/WorldMapComponent.tsx:21-22 | the code units `charCodeAt` walks: at least one per character, two for characters outside the Basic Multilingual Plane |
| JsStrings.TrimStart | src/components/Timeline.tsx:26 | the text after its leading white space: a suffix whose removed part is all white space and whose first character is not |
| WorldMapComponent.HueOf | src/components/WorldMapComponent.tsx:19-26 | the hue is \|hash\| mod 60 over the name's UTF-16 code units, so it lies in 0..59 |
| WorldMapComponent.CountryColor | src/components/WorldMapComponent.tsx:25-26 | the colour's CSS text is `hsl(<hue>, 70%, 50%)` with the hue of `HueOf` |
| WorldMapComponent.GetCountryColor | src/components/WorldMapComponent.tsx:19-27 | the hash loop yields `hsl(hue, 70%, 50%)` with the hue of `HueOf`; the same name always gets the same colour; the empty name gets hue 0 |
| WorldMapComponent.HashMagnitude | src/components/WorldMapComponent.tsx:20-23 | the hash leaves the int32 range but grows at most by 2^31+65535 per code unit, so it stays an exact double for any realistic name |
| WorldMapComponent.EmptyNameHue | src/components/WorldMapComponent.tsx:20-26 | the empty name hashes to 0 and has hue 0 |
| WorldMapComponent.ColorOfAB | src/components/WorldMapComponent.tsx:19-26 | a worked value: "AB" hashes to 2081 and gets `hsl(41, 70%, 50%)` |
| WorldMapComponent.UpdateBounds | src/components/WorldMapComponent.tsx:49-58 | the forEach with four independent `if`s computes the fold of the running min/max over the ring |
| WorldMapComponent.FoldBoundsAppend | src/components/WorldMapComponent.tsx:63-65 | scanning the parts one after another is scanning their concatenation |
| WorldMapComponent.FoldBoundsHull | src/components/WorldMapComponent.tsx:44-58 | each running extreme is bounded by its start value and by every vertex seen, and equals its start value or one of the vertices |
| WorldMapComponent.SentinelFoldIsBoundingBox | src/components/WorldMapComponent.tsx:44-58 | from the sentinels 90/-90/180/-180, at least one vertex on the globe yields exactly the vertices' bounding box |
| WorldMapComponent.ScanBounds | src/components/WorldMapComponent.tsx:60-66 | only `coordinates[0]` of a Polygon and `polygon[0]` of each MultiPolygon part are scanned; a missing ring or geometry throws; another type scans nothing |
| WorldMapComponent.GetCountryCenter | src/components/WorldMapComponent.tsx:32-72 | the method computes `CenterOf`: truthy LAT/LONG, else truthy LABEL_Y/LABEL_X, else the midpoint of the scanned box |
| WorldMapComponent.CenterPrefersLatLong | src/components/WorldMapComponent.tsx:35-37 | truthy LAT and LONG are returned verbatim and the geometry is never read |
| WorldMapComponent.CenterPrefersLabelPoint | src/components/WorldMapComponent.tsx:39-41 | failing that, truthy LABEL_Y and LABEL_X are returned verbatim and the geometry is never read; a 0 falls through |
| WorldMapComponent.CenterOfEmptyScan | src/components/WorldMapComponent.tsx:44-71 | a scan that visits no vertex leaves the sentinels, and the centre is (0, 0) |
| WorldMapComponent.CenterIsBoxMidpoint | src/components/WorldMapComponent.tsx:60-71 | with in-range vertices, the centre is the midpoint of their true bounding box, and its latitude lies between two vertex latitudes |
| WorldMapComponent.CenterErrors | src/components/WorldMapComponent.tsx:33-66 | the centre throws exactly when the properties are missing, or when no label point applies and the scan throws |
| WorldMapComponent.CenterOfSquare | src/components/WorldMapComponent.tsx:68-71 | a worked value: the 10×10 square ring is centred at (5, 5) |
| WorldMapComponent.GetZoomAltitude | src/components/WorldMapComponent.tsx:77-112 | the spans are computed, the result is always 1.5, and it throws exactly when the scan throws |
| WorldMapComponent.ClickPick | src/components/WorldMapComponent.tsx:156-164 | with properties, code = ISO_A3 \|\| ADM0_A3 \|\| ISO_A2 \|\| "UNKNOWN" (never empty) and name = ADMIN \|\| NAME; without them, nothing |
| WorldMapComponent.HandleCountryClick | src/components/WorldMapComponent.tsx:155-185 | a click with falsy properties does nothing; otherwise it reports `ClickPick`, then sends the camera to the centre at the zoom altitude, or throws where either helper throws |
| WorldMapComponent.PolygonCapColor | src/components/WorldMapComponent.tsx:190-199 | `#fbbf24` for the hovered polygon, otherwise `getCountryColor(ADMIN \|\| "Unknown")`; missing properties throw even when hovered |
| WorldMapComponent.PolygonAltitude | src/components/WorldMapComponent.tsx:210 | 0.12 exactly for the hovered polygon, 0.06 for all others |
| Timeline.CommittedYear | src/components/Timeline.tsx:25-32 | a submit commits `parseInt(inputValue)` exactly when it is a number in [1000, 2025] |
| Timeline.YearInput.constructor | src/components/Timeline.tsx:13 | the field starts as `year.toString()`, which parses back to `year` |
| Timeline.YearInput.SliderChange | src/components/Timeline.tsx:15-19 | reports `values[0]` and sets the field to its string, so field and year agree |
| Timeline.YearInput.InputChange | src/components/Timeline.tsx:21-23 | typing only replaces the field and reports nothing |
| Timeline.YearInput.InputSubmit | src/components/Timeline.tsx:25-32 | reports `CommittedYear(field)` and keeps the field as typed; otherwise reports nothing and resets the field to `year.toString()` |
| Timeline.YearInput.KeyPress | src/components/Timeline.tsx:34-38 | the handler as written (it is attached to nothing): only "Enter" submits; any other key changes nothing |
| Timeline.YearInput.QuickJump | src/components/Timeline.tsx:150-156 | a quick-jump button reports its year (1000, 1500 or 2000) and shows it in the field |
| Timeline.YearInput.ReceiveYear | src/components/Timeline.tsx:12-13 | a new `year` prop does not re-synchronise the field |
| Timeline.FieldValidAfterSubmit | src/components/Timeline.tsx:25-32 | with the current year in range, the field always holds a committable year after a submit |
| Timeline.SubmitOfWrittenYear | src/components/Timeline.tsx:25-32 | a written year with leading white space and non-numeral trailing text (" AD", ".9", "e3") is read as that year and committed iff it is in range |
| Timeline.SubmitReadsHex | src/components/Timeline.tsx:26 | text starting `0x`/`0X` is read as hexadecimal |
| Timeline.EraOf | src/components/Timeline.tsx:131-139 | the threshold chain: Medieval exactly below 1500 and 21st Century exactly from 2000; EraIntervals gives every interval and EraMonotone the order |
| Timeline.EraLabel | src/components/Timeline.tsx:131-139 | each label starts with a pictograph; EraLabelsDistinct proves that distinct eras show distinct labels |
| Timeline.EraLabelsDistinct | src/components/Timeline.tsx:131-139 | each era shows its own label text |
| Timeline.EraIntervals | src/components/Timeline.tsx:131-139 | the era thresholds 1500, 1800, 1900 and 2000 split the years into consecutive intervals |
| Timeline.EraMonotone | src/components/Timeline.tsx:131-139 | a later year never has an earlier era |
| Timeline.QuickJumpEras | src/components/Timeline.tsx:150 | the three quick-jump years fall in three different eras |
| HistoryDrawer.TableIdsDistinct | src/components/HistoryDrawer.tsx:15-88 | the table has eight categories with distinct ids |
| HistoryDrawer.TableEventsFiled | src/components/HistoryDrawer.tsx:15-88 | every mock event's `category` is the id of the category containing it |
| HistoryDrawer.FindCategory | src/components/HistoryDrawer.tsx:445-447 | the `find`: the first category with the id, or none when no category has it |
| HistoryDrawer.CategoryLabel | src/components/HistoryDrawer.tsx:445-447 | the first category with the id gives its label, or "Unknown" when no category has the id or the found label is empty; never empty |
| HistoryDrawer.OwnCategoryLabel | src/components/HistoryDrawer.tsx:445-447 | with distinct ids, a category's own id shows its caption when the caption is not empty |
| HistoryDrawer.FindOwnCategory | src/components/HistoryDrawer.tsx:445-447 | with distinct ids, looking up a category's own id finds that category |
| HistoryDrawer.MockEventLabels | src/components/HistoryDrawer.tsx:445-447 | every mock event shows the label of the category that contains it |
| HistoryDrawer.UnknownCategoryLabel | src/components/HistoryDrawer.tsx:445-447 | an event whose category is not in the table shows "Unknown" |
| HistoryDrawer.CountLabel | src/components/HistoryDrawer.tsx:290-291 | the label is the count's decimal text followed by " event" for the count 1 and " events" otherwise, so it ends in "s" exactly when the count is not 1 |
| HistoryDrawer.CountLabelReadsBack | src/components/HistoryDrawer.tsx:290-291 | `parseInt` reads the count back from its label |
| HistoryDrawer.CountLabelSingular | src/components/HistoryDrawer.tsx:290-291 | "1 event" is the label of exactly the count 1, and 0 gives "0 events" |
| HistoryDrawer.Toggled | src/components/HistoryDrawer.tsx:247-251 | a click collapses the category when it is the expanded one, and otherwise expands it |
| HistoryDrawer.ToggleTwice | src/components/HistoryDrawer.tsx:247-251 | two clicks on the same category restore the state exactly when nothing or that category was expanded; otherwise all are collapsed |
| HistoryDrawer.PanelOf | src/components/HistoryDrawer.tsx:312-330 | the event list shows only under the expanded category; an empty category shows "No events found" instead |
| HistoryDrawer.Rows | src/components/HistoryDrawer.tsx:333-378 | one button per event, in order, with title and date; highlighted exactly when its id is the selected event's id |
| HistoryDrawer.CategoryViewOf | src/components/HistoryDrawer.tsx:278-309 | the header shows the label and the count label; the arrow is turned 180° exactly for the expanded category |
| HistoryDrawer.CategoryViews | src/components/HistoryDrawer.tsx:235-309 | one header per category, in table order |
| HistoryDrawer.DetailOf | src/components/HistoryDrawer.tsx:398-563 | the welcome text when no event is selected, otherwise the event's title, date and category label, and the "Key Information" block's `{countryName} ({countryCode})`, `{year} CE` and event id |
| HistoryDrawer.AtMostOnePanelOpen | src/components/HistoryDrawer.tsx:312 | with distinct ids, at most one category shows a panel |
| HistoryDrawer.Drawer.constructor | src/components/HistoryDrawer.tsx:98-101 | nothing is expanded and nothing is selected on mount |
| HistoryDrawer.Drawer.ClickCategory | src/components/HistoryDrawer.tsx:247-251 | the expanded category becomes `Toggled(old, id)`; the selected event is untouched |
| HistoryDrawer.Drawer.ClickEvent | src/components/HistoryDrawer.tsx:336 | the clicked event becomes the selected one; the expanded category is untouched |
| HistoryDrawer.Drawer.ReceiveProps | src/components/HistoryDrawer.tsx:90-96 | new props leave the drawer's own state as it was, also across closing and reopening |
| HistoryDrawer.Drawer.Render | src/components/HistoryDrawer.tsx:107-563 | nothing while `isOpen` is false; otherwise the title, the "Historical Events - {year} CE" line, every category's view and the detail view |
| CountrySearch.FindByCode | src/components/CountrySearch.tsx:58 | the first loaded country with the code, or none when no country has it |
| CountrySearch.SelectedCountry | src/components/CountrySearch.tsx:39-58 | a country is selected iff some loaded country carries the selected code, and it carries that code |
| CountrySearch.ExploreDisabled | src/components/CountrySearch.tsx:218 | Explore is disabled exactly when no loaded country has the selected code |
| CountrySearch.TriggerOf | src/components/CountrySearch.tsx:94-118 | "Loading countries..." while loading; otherwise the selected country's name, with its flag iff the flag URL is truthy; otherwise the placeholder |
| CountrySearch.ItemOf | src/components/CountrySearch.tsx:141-205 | an item is searched by "name code", shows its flag iff truthy and " • region" iff the region is truthy, and is checked iff its code is the selected one |
| CountrySearch.Items | src/components/CountrySearch.tsx:141-206 | one item per loaded country, in load order |
| CountrySearch.CheckedItems | src/components/CountrySearch.tsx:199-205 | with unique codes, the check mark is on the selected country's item and nowhere else |
| CountrySearch.Notification | src/components/CountrySearch.tsx:145-155 | selecting a country notifies the parent with (code, name) iff its code differs from the selected code and is not empty |
| CountrySearch.NotificationSettles | src/components/CountrySearch.tsx:145-155 | once the parent adopts the notified code, selecting the same item again notifies nobody |
| CountrySearch.SearchBox.constructor | src/components/CountrySearch.tsx:34-36 | on mount the popover is closed, no countries are loaded, and loading is on |
| CountrySearch.SearchBox.LoadCountries | src/components/CountrySearch.tsx:46-56 | the list is replaced only by a successful fetch, kept on failure, and loading ends either way |
| CountrySearch.SearchBox.SetOpen | src/components/CountrySearch.tsx:72 | the popover's open state follows `onOpenChange` |
| CountrySearch.SearchBox.SelectItem | src/components/CountrySearch.tsx:145-155 | selecting always closes the popover and sends exactly `Notification` |
| CountrySearch.SearchBox.ReceiveSelectedCode | src/components/CountrySearch.tsx:39 | the selected code is the parent's prop |
| CountrySearch.SearchBox.Render | src/components/CountrySearch.tsx:60-218 | the trigger, the popover state, the items, and Explore disabled exactly when no country is selected |
| HomePage.Step | src/app/page.tsx:42-83 | a click or search selects `{code, name, flagUrl: undefined}` and leaves year and drawer alone; Explore opens the drawer only with a selection; no handler clears the selection; the drawer-needs-selection invariant is kept |
| HomePage.RunPreservesInvariant | src/app/page.tsx:42-83 | along any sequence of handlers the drawer is open only while a country is selected |
| HomePage.SelectionIsPermanent | src/app/page.tsx:42-83 | once a country is selected, some country stays selected forever |
| HomePage.SelectionNeedsSelectingAction | src/app/page.tsx:42-66 | a country becomes selected only through a globe click or a search |
| HomePage.DrawerOpensOnlyAfterSelection | src/app/page.tsx:30-83 | from the initial state, the drawer is open only after some click or search |
| HomePage.SearchBoxCode | src/app/page.tsx:100 | the search box receives the selected code, or "" when nothing is selected |
| HomePage.Drawer | src/app/page.tsx:105-113 | the drawer is mounted only while a country is selected, with that country, the year and the open flag |
| HomePage.SearchPickSettles | src/app/page.tsx:54-66 | a search pick that notifies the page becomes the search box's code, so picking it again notifies nobody |
| HomePage.ExploreOpensDrawer | src/app/page.tsx:73-83 | Explore with a selection opens the mounted drawer for that country |
| HomePage.Home.constructor | src/app/page.tsx:30-40 | the page starts at year 2025, with nothing selected and the drawer closed |
| HomePage.Home.HandleCountryClick | src/app/page.tsx:42-52 | the state becomes `Step(old, CountryClick)` |
| HomePage.Home.HandleCountrySearch | src/app/page.tsx:54-66 | the state becomes `Step(old, CountrySearched)` |
| HomePage.Home.HandleYearChange | src/app/page.tsx:68-71 | the state becomes `Step(old, YearChange)` |
| HomePage.Home.HandleExplore | src/app/page.tsx:73-83 | the state becomes `Step(old, Explore)` |
| HomePage.Home.HandleClose | src/app/page.tsx:108 | the state becomes `Step(old, CloseDrawer)` |
| CountryInfo.YearLabel | src/components/CountryInfo.tsx:271 | the label is the decimal text of \|year\| followed by " BCE" for negative years and " CE" otherwise, so 0 gives "0 CE"; the third-last character tells the two forms apart |
| CountryInfo.YearLabelReadsBack | src/components/CountryInfo.tsx:271 | `parseInt` reads \|year\| back from the label |
| CountryInfo.YearLabelInjective | src/components/CountryInfo.tsx:271 | different years get different labels |
| CountryInfo.StringRow | src/components/CountryInfo.tsx:159-235 | a string row appears iff its value is truthy |
| CountryInfo.PopulationSlotOf | src/components/CountryInfo.tsx:185-209 | the population row appears iff the population is truthy; a population of 0 leaves the bare text "0" |
| CountryInfo.Render | src/components/CountryInfo.tsx:26-271 | with `isLoading` true only the loading view; otherwise the flag image iff `flagUrl` is truthy (else a placeholder), name, code, the truthiness-gated rows and the year label |
| CountryInfo.ZeroPopulationPrintsZero | src/components/CountryInfo.tsx:185 | a population of 0 hides the row but prints "0" |
| Populate.FormatCountry | src/scripts/populate.ts:40-59 | name is `name.common` or "Unknown"; flag is svg, else png, else null; capital is `capital[0]` of an array, else null; population is the value or 0; region is the value or null |
| Populate.StringOrNull | src/scripts/populate.ts:44-49 | `v \|\| null`: a truthy string or null |
| Populate.FormatAll | src/scripts/populate.ts:40-59 | the transform keeps length and order |
| Populate.BatchSlices | src/scripts/populate.ts:72-73 | batch k is `slice(100k, 100k + 100)`, and there is one batch per offset below the length |
| Populate.BatchSizes | src/scripts/populate.ts:69-73 | every batch holds 1 to 100 rows, and all but the last exactly 100 |
| Populate.FlattenBatches | src/scripts/populate.ts:72-73 | the batches concatenate back to the rows |
| Populate.FirstRejected | src/scripts/populate.ts:75-80 | the first batch the database rejects, with every earlier batch accepted |
| Populate.InsertInBatches | src/scripts/populate.ts:69-89 | with every batch accepted, the count is the number of rows; otherwise it stops with the 1-based number of the first rejected batch (the number it logs), and no later batch is attempted |
| Populate.PopulateCountries | src/scripts/populate.ts:40-89 | succeeds iff every batch is accepted, and then reports as many rows as fetched records |
| FindMissing.NameOf | src/scripts/find-missing.ts:13 | the recorded name is ADMIN \|\| NAME |
| FindMissing.FlaggedIndices | src/scripts/find-missing.ts:15 | the flagged features' indices in increasing order: a feature is listed iff ISO_A3 is falsy, "-99" or "UNKNOWN" |
| FindMissing.ProblemNames | src/scripts/find-missing.ts:10-24 | the fold succeeds iff every feature has properties |
| FindMissing.ProblemNamesAreFlagged | src/scripts/find-missing.ts:10-16 | the list is the flagged features' names in input order, and nothing else |
| FindMissing.ProblemNamesErrPersists | src/scripts/find-missing.ts:11-12 | a feature without properties aborts the whole scan |
| FindMissing.CollectProblemCountries | src/scripts/find-missing.ts:8-26 | the loop computes `ProblemNames`, and the total is the number of flagged features |

## Left out

- The database wrappers in src/lib/supabase.ts and src/lib/database.ts: their filtering and ordering run on the server, in code that is not part of this model.
- The connection probe in src/scripts/test.ts.
- I/O is replaced by parameters:
  - the REST Countries fetch and `process.exit`;
  - the GeoJSON file read and the console output of the scripts;
  - the globe's `fetch` of the boundary file.
  The fetched records, the features and the database's answer to each batch are inputs. For the last one, `accept(k, batch)` gives the answer to the k-th insert call.
- Rendering is left out: styles, hover colour tweaks, animations, the 3-D globe component, `next/dynamic` loading and the initial camera setup. The views are modelled only as the data each view decision picks.
- Floating point: coordinates, spans and altitudes are exact reals. The colour hash is computed on exact integers; `HashMagnitude` bounds it well inside the exactly representable doubles.
- NaN: the truthiness of numbers treats only 0 and a missing value as falsy.
- JsNumbers.ParseInt: a negative zero ("-0") is read as 0.
- JsNumbers.NumberToString: only integers are written; the exponent form used from 1e21 up is not modelled.
- CountryInfo.PopulationSlotOf: `population.toLocaleString()` is locale formatting; the row carries the number.
- Asynchrony: a fetch that settles is one method call. Nothing in the code discards stale responses, and none is modelled.
- The code has no category-grouping function and no events fetch. The only category data is the eight-entry mock table at src/components/HistoryDrawer.tsx:15-88, and that table is what is modelled.
- The `historical_events` row type in src/lib/types.ts:13-22 is read only by the database wrappers, which are not part of this model, so it has no counterpart here.
- `getZoomAltitude` computes the spans and returns the constant 1.5. Its comment about adjusting the altitude to the country's size is not implemented, and the model returns 1.5 too.
- Timeline.YearInput.KeyPress: `handleKeyPress` (src/components/Timeline.tsx:34-38) is defined but attached to no element; the input wires only `onChange` and `onBlur`. The handler is modelled as written, but in the running component Enter does not submit, and only blur does.
- Timeline and CountryInfo are modelled on their own. The page does not mount them (its Timeline import is commented out), so `HomePage.YearChange` has no caller in the running app.
- The slider's own range limit (min 1000, max 2025) belongs to the slider widget and is not assumed by `Timeline.YearInput.SliderChange`.
- WorldMapComponent.HandleCountryClick: the camera step assumes the globe reference is set; the branch where it is not only logs.
- The `polygonLabel` tooltip text and the hover handler of the globe are rendering and are not modelled; the hovered polygon is a parameter.
- The detail view's Description and Historical Significance paragraphs are fixed placeholder text, so they are not modelled.
- Country list items in CountrySearch are filtered by the command palette's own fuzzy search, which is library code and is not modelled.
