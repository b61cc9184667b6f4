# Plate search and mechanic reviews — a verified model

This project models the two pieces of behaviour in the vehicle-parts lookup app:

* **The plate-search screen** (`screens/VehicleSearchScreen.js`). The user types a plate (at most seven characters). Pressing the search button trims and upper-cases it. If the result is shorter than seven characters, the screen raises the "Placa Inválida" alert. Otherwise it sets `loading`, clears `error` and `veiculoData`, and asks the catalog service for the vehicle. The response sets the vehicle and manufacturer, or an error message. Navigation to the part catalog happens only while a vehicle and a non-empty manufacturer are held.
* **The mechanic-review feed** (`components/MechanicReviews.js`). On mount the feed loads the fixed mock list once. It shows a spinner, an error, an empty notice or the list, in that priority. Each review's rating is drawn as full, half and empty stars.

Modules:

| file | module | what it holds |
|---|---|---|
| `wrappers.dfy` | `Wrappers` | `Option`, the model of `null`/`undefined` |
| `js_text.dfy` | `JsText` | `trim` (exact ECMAScript white-space set) and `toUpperCase` (ASCII letters) |
| `plate_search.dfy` | `PlateSearch` | the screen's state as a value; one function per transition; the session lemma |
| `vehicle_search_screen.dfy` | `VehicleSearchScreen` | class `Screen`, whose fields are the five `useState` variables; each method is proved to follow a `PlateSearch` function |
| `star_rating.dfy` | `StarRating` | star counts, the three push loops, and the properties of the icon row |
| `mechanic_reviews.dfy` | `MechanicReviews` | the mock data, the load, the view choice, and class `Feed` |

The `await` in `handleSearch` is split into two steps. `Start` covers everything before the call. `Complete` covers the try/catch branch and the `finally`. The service's answer is a parameter: `Success(veiculo, montadora)`, `Failure(message)` or `Thrown`. The review load is split the same way (`Begin` / `Finish`), and whether the awaited delay resolves or throws is a parameter.

Behaviour of the code the model keeps:
- The screen stores the plate as typed. Only the search key is trimmed and upper-cased.
- The button is enabled on the raw length and `loading`. It does not look at the length of the trimmed key.
- Navigation carries `placa.toUpperCase()`, which is untrimmed.
- On a failed search the manufacturer from an earlier search is kept.
- The feed state is the three variables `reviews`, `isLoading` and `error`.

## Model

| member | source | states |
|---|---|---|
| `JsText.LeadingSpaces` | screens/VehicleSearchScreen.js:39 | the length of the longest white-space prefix: every character before it is white space and the one at it is not |
| `JsText.TrailingSpaces` | screens/VehicleSearchScreen.js:39 | the length of the longest white-space suffix: every character in it is white space and the one before it is not |
| `JsText.Trim` | screens/VehicleSearchScreen.js:39 | the result is a slice `s[i..j]` with only white space before `i` and from `j` on, and no white space at either of its own ends; it is empty exactly when the input is all white space; an unchanged length means an unchanged string |
| `JsText.TrimOfTrimmed` | screens/VehicleSearchScreen.js:39 | a string without outer white space is its own trim |
| `JsText.TrimIdempotent` | screens/VehicleSearchScreen.js:39 | trimming twice equals trimming once |
| `JsText.UpperChar` | screens/VehicleSearchScreen.js:39 | a–z map to A–Z; every other character is unchanged |
| `JsText.ToUpper` | screens/VehicleSearchScreen.js:39 | same length; each character is upper-cased in place; no lower-case letter remains |
| `JsText.UpperKeepsTrimmed` | screens/VehicleSearchScreen.js:39 | upper-casing keeps a trimmed string trimmed |
| `JsText.ToUpperIdempotent` | screens/VehicleSearchScreen.js:39 | upper-casing twice equals upper-casing once |
| `PlateSearch.Initial` | screens/VehicleSearchScreen.js:32-36 | empty plate; no vehicle, no manufacturer, no error; not loading; the state is valid |
| `PlateSearch.SearchKey` | screens/VehicleSearchScreen.js:39 | the search key is no longer than the plate, has no outer white space and has no lower-case letters |
| `PlateSearch.SearchKeyIsUpperMiddle` | screens/VehicleSearchScreen.js:39 | the key is `ToUpper(placa[i..j])` for a slice with only white space outside it |
| `PlateSearch.Edit` | screens/VehicleSearchScreen.js:98-101 | the stored plate is the whole typed text when it fits in 7 characters, otherwise its first 7 characters; no other field changes; validity is kept |
| `PlateSearch.Disabled` | screens/VehicleSearchScreen.js:109-111 | the button is disabled exactly when loading or when the raw plate has fewer than 7 characters |
| `PlateSearch.Start` | screens/VehicleSearchScreen.js:38-46 | alerts, with no state change, exactly when the key is shorter than 7; otherwise sends the key (at least 7 long) and sets `loading`, clears `error` and `veiculoData`, and keeps `montadora`; validity is kept |
| `PlateSearch.FailureText` | screens/VehicleSearchScreen.js:54 | the service message when it is non-empty, otherwise the fixed not-found text; never empty |
| `PlateSearch.Complete` | screens/VehicleSearchScreen.js:48-60 | `loading` always ends false. Success takes the response's vehicle and manufacturer and leaves `error` alone. A business failure sets the message or the default. A throw sets the communication message. A failure keeps vehicle and manufacturer. A valid in-flight state stays valid |
| `PlateSearch.Press` | screens/VehicleSearchScreen.js:108-111 | a press does nothing, and changes nothing, exactly when loading or when the raw plate is shorter than 7; an enabled press is `Start`, i.e. runs `handleSearch`; a request leaves the screen loading |
| `PlateSearch.Navigate` | screens/VehicleSearchScreen.js:63-71 | an action exists exactly when a vehicle and a non-empty manufacturer are held; it carries the route, the upper-cased untrimmed plate, the vehicle and the manufacturer |
| `PlateSearch.SearchKeyIdempotent` | screens/VehicleSearchScreen.js:39 | normalising a key again does not change it |
| `PlateSearch.SearchedKeyIsWholePlate` | screens/VehicleSearchScreen.js:39-40 | with the 7-character input cap, a key that is searched is the whole plate upper-cased, which had nothing to trim and exactly 7 characters |
| `PlateSearch.EnabledButtonCanStillAlert` | screens/VehicleSearchScreen.js:109-111 | "ABC123 " enables the button, yet the press raises the invalid-plate alert |
| `PlateSearch.SearchEndsSettled` | screens/VehicleSearchScreen.js:44-60 | a started and completed search ends not loading, valid, and never holds both a vehicle and an error |
| `PlateSearch.StaleManufacturerBlocksNavigation` | screens/VehicleSearchScreen.js:44-70 | after a success then a failure, the old manufacturer is still held but navigation is blocked |
| `PlateSearch.NavigationUsesCurrentPlate` | screens/VehicleSearchScreen.js:63-70 | after a successful search, editing the plate changes the plate the navigation carries while the vehicle stays the found one |
| `PlateSearch.IncompleteSuccessBlocksNavigation` | screens/VehicleSearchScreen.js:50-64 | a success response without a vehicle, or with a missing or empty manufacturer, leaves nothing to navigate with |
| `PlateSearch.StepKeepsInvariant` | screens/VehicleSearchScreen.js:44-111 | typing, pressing, and a pending request settling each keep these true: state valid, at most one request in flight, `loading` exactly while one is |
| `PlateSearch.RunKeepsInvariant` | screens/VehicleSearchScreen.js:44-111 | the session invariant holds after any sequence of events |
| `PlateSearch.AtMostOneRequestInFlight` | screens/VehicleSearchScreen.js:108-111 | from the mounted screen, whatever the events, at most one catalog request is in flight, and `loading` holds exactly while one is |
| `VehicleSearchScreen.Screen.constructor` | screens/VehicleSearchScreen.js:32-36 | the fields start at `PlateSearch.Initial` |
| `VehicleSearchScreen.Screen.ChangeText` | screens/VehicleSearchScreen.js:98-101 | the fields change as `PlateSearch.Edit` |
| `VehicleSearchScreen.Screen.SearchDisabled` | screens/VehicleSearchScreen.js:109-111 | disabled exactly when `loading` or the plate field holds fewer than 7 characters; agrees with `PlateSearch.Disabled` |
| `VehicleSearchScreen.Screen.StartSearch` | screens/VehicleSearchScreen.js:38-46 | the effect and the new fields are those of `PlateSearch.Start` |
| `VehicleSearchScreen.Screen.CompleteSearch` | screens/VehicleSearchScreen.js:48-60 | the fields change as `PlateSearch.Complete` |
| `VehicleSearchScreen.Screen.PressSearch` | screens/VehicleSearchScreen.js:108-111 | the effect and the new fields are those of `PlateSearch.Press` |
| `VehicleSearchScreen.Screen.NavigateToPartSearch` | screens/VehicleSearchScreen.js:63-71 | navigates exactly when a vehicle and a non-empty manufacturer are held, with the upper-cased plate and both values |
| `StarRating.CountStars` | components/MechanicReviews.js:38-40 | `full` is the floor of the rating; `half` holds exactly when the rating is not whole; full + half + empty = 5 |
| `StarRating.Times` | components/MechanicReviews.js:46-58 | a counted loop bound runs `n` times, or zero times when `n` is negative |
| `StarRating.FullRun` | components/MechanicReviews.js:46-48 | `n` full stars, keyed 0..n-1 |
| `StarRating.EmptyRun` | components/MechanicReviews.js:56-58 | `n` empty stars, keyed 0..n-1 |
| `StarRating.RenderStars` | components/MechanicReviews.js:37-61 | the three push loops build exactly `Icons(rating)` |
| `StarRating.IconCount` | components/MechanicReviews.js:46-58 | the icon count is max(full,0) + half + max(empty,0) |
| `StarRating.FiveIconsInRange` | components/MechanicReviews.js:38-58 | for 0 ≤ rating ≤ 5 every count is non-negative and exactly 5 icons are drawn |
| `StarRating.WholeRatingHasNoHalf` | components/MechanicReviews.js:39-40 | a whole rating n gives (n, no half, 5 − n) |
| `StarRating.IconsOrderedAndDistinct` | components/MechanicReviews.js:45-58 | icons run full, then at most one half, then empty, and no two share a key |
| `StarRating.ExampleCounts` | components/MechanicReviews.js:38-40 | 5 → (5,0,0), 4.5 → (4,1,0), 3 → (3,0,2), 0 → (0,0,5) |
| `StarRating.OutOfRangeIconCounts` | components/MechanicReviews.js:56-58 | outside [0,5], 5.5 and −1 each draw six icons |
| `MechanicReviews.Initial` | components/MechanicReviews.js:83-85 | no reviews, loading, no error |
| `MechanicReviews.Begin` | components/MechanicReviews.js:89-90 | loading, error cleared, reviews kept |
| `MechanicReviews.Finish` | components/MechanicReviews.js:93-106 | loading always ends. Success gives exactly the mock list and keeps the error. A throw sets the fixed message and keeps the reviews |
| `MechanicReviews.RenderCard` | components/MechanicReviews.js:66-76 | the card's key is the review id; its header is `name + " - " + garage`; it shows the review's text, date and `Icons(rating)` |
| `MechanicReviews.RenderCards` | components/MechanicReviews.js:152-154 | one card per review, in the reviews' order |
| `MechanicReviews.Select` | components/MechanicReviews.js:114-154 | spinner exactly while loading. Otherwise a non-empty error shows the error. Otherwise an empty list shows the empty notice. Otherwise a non-empty list of cards in order |
| `MechanicReviews.DummyReviewsWellFormed` | components/MechanicReviews.js:7-32 | 3 reviews with ids 1, 2, 3, all ratings in [0,5] and multiples of 0.5 |
| `MechanicReviews.CardKeysDistinct` | components/MechanicReviews.js:152-154 | distinct review ids give distinct card keys |
| `MechanicReviews.LoadSucceeds` | components/MechanicReviews.js:87-110 | the mounted load shows the spinner, then three cards keyed 1, 2, 3 in source order, each with 5 stars |
| `MechanicReviews.LoadFails` | components/MechanicReviews.js:101-106 | a throwing load shows the fixed error and keeps the reviews, which start empty |
| `MechanicReviews.FinishedLoadIsNotLoading` | components/MechanicReviews.js:104-106 | after a load finishes, on any path, the spinner is gone |
| `MechanicReviews.Feed.constructor` | components/MechanicReviews.js:83-85 | the fields start at `Initial` |
| `MechanicReviews.Feed.BeginFetch` | components/MechanicReviews.js:89-90 | the fields change as `Begin` |
| `MechanicReviews.Feed.FinishFetch` | components/MechanicReviews.js:93-106 | the fields change as `Finish` |
| `MechanicReviews.Feed.Render` | components/MechanicReviews.js:114-154 | the returned view is `Select` of the fields |

## Left out

- JSX, `StyleSheet` objects, colours and icons: presentation only. A card's and an icon's visual content are reduced to their data (key, header text, glyph kind).
- `utils/constants.js`: a colour palette with no behaviour.
- `searchVehicle` in `Services/ancoraAPI` is not part of this model. Its result is the `Outcome` parameter of `Complete`. Its response is assumed to be one of three shapes: success true, success false, or a throw.
- The 1500 ms `setTimeout`, `Alert.alert`, `navigation.navigate` and `console.error` are platform calls. The alert is the returned `Alert` effect, navigation is the returned `NavAction`, and the delay is not modelled. The throw path of the review load is commented out in the source; it is modelled as the `Threw` parameter.
- Async interleaving and React re-render scheduling are not modelled. Each `await` is two sequential steps. Calling `StartSearch` directly while loading is possible in the class, because `handleSearch` does not check `loading`. The session model only starts searches through the button, as the screen does.
- `useEffect` semantics: the load runs once on mount; remounting (a fresh `Feed`) is not modelled separately.
- JsText.ToUpper: maps only a–z. Other lower-case letters (accented letters, and `ß`, which becomes two characters) are not upper-cased. A plate with such letters would get a different key length than in JavaScript.
- JsText.Trim: strings are sequences of Unicode scalar values, not UTF-16 code units. This covers lengths as well as trimming: the 7-character checks at screens/VehicleSearchScreen.js:40 and 109-111, and `maxLength={7}` at line 101, count UTF-16 code units, while the model counts scalar values. The two agree for plates without characters outside the Basic Multilingual Plane, which includes every ASCII plate. Every white-space code point `trim` removes lies in that plane.
- Truthiness of `veiculoData`: any vehicle the service returns is treated as truthy. Only an absent one is falsy.
- Ratings are exact reals. IEEE rounding of fractional ratings is not modelled.
- The hardcoded review cards at screens/VehicleSearchScreen.js:145-177 are static markup.
