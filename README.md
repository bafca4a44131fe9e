# Place catalogue and random pick — a Dafny model

This project models the core of a small web service. It keeps a catalogue of places: restaurants, cafés and sights, each tagged with a region and a category. It also picks one of them at random.

The model covers these parts:

- **Admin actions** (`src/actions/place-actions.ts`):
  - read one place by id;
  - list places page by page with name, category and region filters;
  - create a place from the admin form, geocoding its address, uploading its image and inserting the row;
  - update a place, re-geocoding only when the address changed and replacing only a newly chosen image;
  - delete a place.
- **Pick actions** (`src/actions/pick-actions.ts`):
  - pick a random place near the visitor, or within a region and category;
  - pick a random place of one category.
- **Admin list pager** (`src/components/Place/List.tsx`).
- **Client stores:**
  - `src/stores/filterStore.ts` keeps the visitor's pick filter;
  - `src/stores/authStore.ts` keeps the sign-in state.

Everything outside the code is a value or a function handed to the model. That includes the database, its two stored procedures, the object store, the geocoder, the auth service (the signed-in user is an input), `JSON.parse`, the clock and the random suffix of an upload key.

Every action returns its result together with the log of the store, geocoder and object-store calls it made, in order. This lets the lemmas state properties such as these:

- the store is not touched before the checks pass;
- the geocoder is asked exactly once, and only when needed;
- the insert or update is the only write, and the last call;
- the written row carries the form's values.

The modules are:

| file | module | models |
|---|---|---|
| `common.dfy` | `Common` | the error table of `src/config/errors.ts`, the region, category and status value sets, JavaScript numbers, the tagged action result |
| `js_text.dfy` | `JsText` | `trim`, `split` on one character, `join`, ASCII `toLowerCase` |
| `tags.dfy` | `Tags` | `parseTags`, and the tag text the edit form pre-fills |
| `place_actions.dfy` | `PlaceActions` | the five admin actions and `stripUndefined` |
| `pick_actions.dfy` | `PickActions` | the two pick actions, and the filters of the two stored procedures |
| `place_list.dfy` | `AdminList` | the pager state of the admin list |
| `filter_store.dfy` | `FilterStore` | the filter store |
| `auth_store.dfy` | `AuthStore` | the auth store |

The code has two forms:

- **Imperative.** `createPlaceAction`, `updatePlaceAction` and `getPlaceListAction` reassign local state step by step, so they are methods. Each create or update method is proved equal to a specification function (`CreateRun`, `UpdateRun`). The properties are lemmas about that function.
- **Functions.** The pick actions, `getPlaceByIdAction` and `deletePlaceAction` use only constant bindings and early returns, so they are functions.

The pager and the two stores are classes whose methods overwrite fields.

## Model

| member | source | states |
|---|---|---|
| Common.ErrorType.Code | src/config/errors.ts:6-39 | Every status code in the error table lies in 400..599. A code is below 500 exactly for the client-error entries. |
| Common.TruthyNumbers | src/actions/place-actions.ts:214-215 | A number fails `!x` exactly when it is NaN or zero; the infinities are truthy. |
| Common.ErrorTableInjective | src/config/errors.ts:6-39 | No two entries of the error table share a code or a `type` string. |
| JsText.TrimSpec | src/actions/place-actions.ts:122-130 | `trim` yields a string with no whitespace at either end. The result is empty exactly when the input is all whitespace, and an already trimmed string is unchanged. |
| JsText.TrimAfterWhitespace | src/actions/place-actions.ts:21 | Whitespace in front of a trimmed string is exactly what `trim` removes. |
| JsText.Split | src/actions/place-actions.ts:29 | `split` yields at least one piece, and no piece contains the separator. |
| JsText.JoinSplit | src/actions/place-actions.ts:29 | Joining the pieces of `s.split(c)` with `c` gives back `s`. |
| JsText.SplitJoin | src/actions/place-actions.ts:29 | Splitting a join of separator-free pieces gives back the pieces. |
| JsText.AfterLastIsLastPiece | src/actions/place-actions.ts:153 | `name.split('.').pop()` is the text after the last dot. |
| JsText.Lower | src/actions/place-actions.ts:153 | `toLowerCase` keeps the length and lower-cases each letter A–Z, leaving other characters alone. |
| JsText.LowerIdempotent | src/actions/place-actions.ts:153 | A lower-cased string has no letter A–Z left, and lower-casing it again changes nothing. |
| Tags.Dedup | src/actions/place-actions.ts:26 | `Array.from(new Set(s))` has no duplicates and holds exactly the elements of `s`. |
| Tags.DedupOrder | src/actions/place-actions.ts:26 | `Array.from(new Set(s))` lists the elements in the order of their first occurrence. |
| Tags.Clean | src/actions/place-actions.ts:26 | After de-duplication and `.filter(Boolean)`, the result has no duplicates and holds exactly the non-empty elements. |
| Tags.TrimAll | src/actions/place-actions.ts:29 | Every piece is trimmed, position by position. |
| Tags.ParseTags | src/actions/place-actions.ts:19-30 | `parseTags` yields null exactly when the field is missing or blank. Otherwise it yields a list without duplicates whose tags are trimmed and non-empty. |
| Tags.ParseTagsCharacterised | src/actions/place-actions.ts:19-30 | For a non-blank field, the tags are exactly the non-empty trimmed pieces (JSON-array elements or comma-separated parts), in first-occurrence order. |
| Tags.FormTagsRoundTrip | src/components/Place/Form.tsx:267 | Tags the edit form writes as `tags.join(', ')` parse back to the same list, provided they are distinct, trimmed, non-empty and free of commas, and the first does not start with `[`. An empty list parses back to null. |
| PlaceActions.StripUndefined | src/actions/place-actions.ts:14-16 | The result's keys are exactly the defined entries, and each carries its value unchanged. |
| PlaceActions.BlankToNull | src/actions/place-actions.ts:125-127 | `s \|\| null` is null exactly for the empty string, and otherwise is `s`. |
| PlaceActions.Extension | src/actions/place-actions.ts:153 | The upload key's extension is never empty and contains no dot. |
| PlaceActions.GetPlaceById | src/actions/place-actions.ts:43-63 | A non-finite id is a bad request, with no store call. Otherwise there is one select by id: its error is an internal error with the message, a missing row is not-found, and a row is returned. |
| PlaceActions.AddFilters | src/actions/place-actions.ts:71-74 | The filter chain adds a name filter `%q%` only for non-blank trimmed `q`, then a category filter and a region filter only for non-empty values, in that order. |
| PlaceActions.GetPlaceList | src/actions/place-actions.ts:66-114 | The count query comes first, and its error is thrown. The page query then asks for the inclusive range from `page*pageSize` to `page*pageSize + pageSize - 1`, exactly `pageSize` rows. Both queries carry the same filters. A page error is an internal error. Otherwise the result holds the rows (or none) and the count (or 0). |
| PlaceActions.PagesAreContiguous | src/actions/place-actions.ts:80-87 | For a positive page size, the range `GetPlaceList` requests for page `p + 1` begins right after page `p`'s range ends, and every later page begins past it, so no row is on two pages. |
| PlaceActions.CreatePlace | src/actions/place-actions.ts:117-207 | The method's result and call log are those of the specification function `CreateRun`. |
| PlaceActions.CreateChecksFirst | src/actions/place-actions.ts:118-138 | A missing user is an internal error with message `UNAUTHORIZED`. Missing name, category or region is a bad request. Neither case makes a store, geocoder or upload call, and any such call implies both checks passed. |
| PlaceActions.CreateGeocodes | src/actions/place-actions.ts:140-148 | The geocoder is the first call exactly when there is a non-blank address. Its failure is returned unchanged, with nothing after it. |
| PlaceActions.CreateGeocodesOnce | src/actions/place-actions.ts:140-148 | No other call is a geocode. |
| PlaceActions.CreateUploads | src/actions/place-actions.ts:150-163 | A non-empty file is uploaded right after geocoding, under `category/stamp.ext`. An upload error ends the action with an internal error carrying its message. |
| PlaceActions.CreateUploadsOnce | src/actions/place-actions.ts:150-163 | No other call is an upload, and there is no upload without a new file. |
| PlaceActions.CreateInsertsLast | src/actions/place-actions.ts:165-198 | No call before the last one writes. A success always ends with the insert. |
| PlaceActions.CreateInserts | src/actions/place-actions.ts:166-198 | The insert carries the form's fields, the geocoded coordinates, the public URL of the upload (or none) and status `published`. Its reply decides the result. |
| PlaceActions.InsertedCoordinatesPaired | src/actions/place-actions.ts:141-148 | An inserted row has both coordinates or neither. |
| PlaceActions.InsertResultCases | src/actions/place-actions.ts:181-198 | A unique-key violation (`23505`) is a conflict, any other store error is an internal error with its message, and a new id is a success. |
| PlaceActions.ColumnKeysDistinct | src/actions/place-actions.ts:270-282 | Distinct columns of the update have distinct property names. |
| PlaceActions.UpdatePayloadAt | src/actions/place-actions.ts:270-284 | A column of the partial update is present exactly when its property is defined, and it carries that property's value. |
| PlaceActions.PayloadOptionalColumns | src/actions/place-actions.ts:271-277 | Name, category, region and tags are written only when given; a blank name is not written. |
| PlaceActions.PayloadFixedColumns | src/actions/place-actions.ts:274-281 | Description, address, phone and `updated_at` are always written, a blank value as null. |
| PlaceActions.UpdatePayloadMatches | src/actions/place-actions.ts:240-284 | Given the image URL and coordinates the action chose, the partial update matches `UpdateMatchesFields`. |
| PlaceActions.UpdatePlace | src/actions/place-actions.ts:210-304 | The method's result and call log are those of the specification function `UpdateRun`. |
| PlaceActions.UpdateChecksFirst | src/actions/place-actions.ts:211-229 | A missing user is an internal error. A zero or NaN id is a bad request with no store call. Otherwise the first call is the select: its error is an internal error with its message, and a missing row is not-found. After the select, the action continues on the loaded row. |
| PlaceActions.UpdateGeocodesOnChange | src/actions/place-actions.ts:240-254 | The geocoder is asked right after the select exactly when the trimmed address differs from the stored one and is non-blank. Its failure is returned unchanged. |
| PlaceActions.UpdateGeocodesOnce | src/actions/place-actions.ts:240-254 | No other call is a geocode. |
| PlaceActions.UpdateKeepsCoordinatesPaired | src/actions/place-actions.ts:240-254 | Stored coordinates that are paired stay paired in the update. |
| PlaceActions.UpdateUploads | src/actions/place-actions.ts:256-268 | A non-empty file is uploaded after geocoding, into the folder of the new category or else the stored one. Its error ends the action as an internal error. |
| PlaceActions.UpdateUploadsOnce | src/actions/place-actions.ts:256-268 | No other call is an upload. |
| PlaceActions.UpdateWritesLast | src/actions/place-actions.ts:284-295 | The update is the only write and the last call, and a success always ends with it. |
| PlaceActions.UpdateWrites | src/actions/place-actions.ts:270-295 | The update targets the form's id and writes: the stored coordinates unless the address changed, the new ones or null when it did, and the stored image URL unless a new file was uploaded. Its reply decides the result. |
| PlaceActions.DeletePlace | src/actions/place-actions.ts:307-322 | A missing user escapes as an exception, with no call. A zero or NaN id is a bad request. Otherwise there is exactly one delete: its error is an internal error, and otherwise the result is `deleted: true`. |
| PickActions.PickedId | src/actions/pick-actions.ts:70-71 | A pick is made exactly when the first row exists and has a truthy id; the pick is that id. |
| PickActions.NatToStringRoundTrip | src/actions/pick-actions.ts:98 | The decimal text of an id reads back as the same number. |
| PickActions.IntToStringInjective | src/actions/pick-actions.ts:98 | Distinct ids give distinct redirects `/result/<id>`. |
| PickActions.AfterPick | src/actions/pick-actions.ts:61-99 | After the procedure call come its error (an internal error with the message), a miss (not-found), and then one fetch by the picked id. A fetch error or a missing row is an internal error; a row is a success. |
| PickActions.PickPlace | src/actions/pick-actions.ts:10-178 | Nearby mode without truthy coordinates is a bad request that calls nothing. Every other request first calls the nearby or the random procedure with the defaulted parameters. A miss in regional mode echoes region and category. |
| PickActions.PickPlaceCases | src/actions/pick-actions.ts:54-178 | Each outcome of the procedure and the fetch leads to its own result. An exception inside the `try` becomes an internal error. A success redirects to `/result/<id>` and carries the fetched row. |
| PickActions.PickByCategory | src/actions/pick-actions.ts:182-231 | The random procedure is called with an empty region, and a success carries no redirect. The result is not-found with the category echoed exactly when no truthy id comes back. |
| PickActions.PickOne | src/actions/pick-actions.ts:105-124 | The procedure returns one accepted place when one exists, and nothing otherwise. The choice among them is arbitrary. |
| PickActions.RegionalPickMatches | src/actions/pick-actions.ts:105-170 | A successful regional pick returns a stored place that passes both filters, redirected to by its own id. |
| PickActions.RegionalPickMisses | src/actions/pick-actions.ts:126-148 | A regional pick is not-found, echoing the filters, exactly when no stored place passes them. |
| PickActions.AllMeansNoFilter | src/actions/pick-actions.ts:109-121 | An empty filter, or `all` in any case, accepts every value. |
| PickActions.CategoryPickMatches | src/actions/pick-actions.ts:186-231 | A successful category pick returns a stored place of that category, ignoring case. |
| PickActions.NearbyAllAcceptsNothing | src/actions/pick-actions.ts:46-51 | As written, the nearby filter with category `all` or `''` accepts no place of a real category. |
| PickActions.NearbyAllAlwaysMisses | src/actions/pick-actions.ts:51-77 | As written, a nearby pick for `all` is always not-found. |
| PickActions.NearbyAllAcceptsWithinRadius | src/actions/pick-actions.ts:46-51 | With the intended filter, `all` and `''` accept exactly the places within the radius. |
| PickActions.NearbyPickMisses | src/actions/pick-actions.ts:46-77 | With the intended filter, a nearby pick is not-found exactly when no place within the radius passes it. |
| AdminList.TotalPages | src/components/Place/List.tsx:48 | `ceil(total / 10)`: the fewest pages of ten that hold `total` rows, and zero only for no rows. |
| AdminList.LabelPages | src/components/Place/List.tsx:256 | The label's denominator `max(1, totalPages)` is at least 1, and equals `totalPages` when there are pages. |
| AdminList.PreviousDisabledIffStays | src/components/Place/List.tsx:249-250 | Once loaded, "Previous" is disabled exactly when pressing it would leave the page unchanged. It never makes the page negative or larger. |
| AdminList.NextDisabledIffStays | src/components/Place/List.tsx:259-260 | Once loaded, "Next" is disabled exactly when pressing it would leave the page unchanged. Otherwise it advances by one. |
| AdminList.MovesStayInRange | src/components/Place/List.tsx:249-260 | Both moves keep the page within `[0, max(1, totalPages))`. |
| AdminList.NextReachesLastPage | src/components/Place/List.tsx:259 | Pressing "Next" `k` times from the first page reaches page `min(k, totalPages - 1)`. |
| AdminList.KeywordNeverReachesQuery | src/components/Place/List.tsx:21-30 | With the parameters as the view builds them, the list action reads an empty `q`, and so applies no name filter. |
| AdminList.KeywordReachesQuery | src/components/Place/List.tsx:21-30 | With the search text under `q`, the action reads the text, selections and page, and filters by name. |
| AdminList.PlaceList.QueryParams | src/components/Place/List.tsx:21-30 | The pager's request carries its search text under `keyword`, alongside its selections, page and page size of 10. The `q` the list action reads is therefore empty. |
| AdminList.PlaceList.constructor | src/components/Place/List.tsx:15-18 | The pager starts with no search text, no selections, page 0 and no rows. |
| AdminList.PlaceList.SetKeyword | src/components/Place/List.tsx:88-91 | A new search text returns to page 0 and leaves the other fields alone. |
| AdminList.PlaceList.SetCategory | src/components/Place/List.tsx:98-101 | A new category returns to page 0 and leaves the other fields alone. |
| AdminList.PlaceList.SetRegion | src/components/Place/List.tsx:112-115 | A new region returns to page 0 and leaves the other fields alone. |
| AdminList.PlaceList.Loaded | src/components/Place/List.tsx:46-47 | The total is the reply's count, or 0 when it has none. |
| AdminList.PlaceList.Previous | src/components/Place/List.tsx:249 | The page becomes `max(0, page - 1)`. The rest is unchanged, and the page stays on the label's range. |
| AdminList.PlaceList.Next | src/components/Place/List.tsx:259 | The page advances only while `page + 1 < totalPages`. The rest is unchanged, and the page stays on the label's range. |
| FilterStore.NearbyReset | src/stores/filterStore.ts:32 | `resetNearby` clears the coordinates and restores radius 2000, keeping region and category. |
| FilterStore.ResetNearbyIdempotent | src/stores/filterStore.ts:32 | Resetting twice is resetting once. |
| FilterStore.InitialIsReset | src/stores/filterStore.ts:22-26 | The initial state has no coordinates and the default radius. |
| FilterStore.FilterState.constructor | src/stores/filterStore.ts:22-26 | The store starts at region `all`, category `all`, no coordinates and radius 2000. |
| FilterStore.FilterState.SetRegion | src/stores/filterStore.ts:28 | Only the region changes. |
| FilterStore.FilterState.SetCategory | src/stores/filterStore.ts:29 | Only the category changes. |
| FilterStore.FilterState.SetLocation | src/stores/filterStore.ts:30 | Only the coordinates change. |
| FilterStore.FilterState.SetRadius | src/stores/filterStore.ts:31 | Only the radius changes. |
| FilterStore.FilterState.ResetNearby | src/stores/filterStore.ts:32 | The new state is `NearbyReset` of the old one. |
| AuthStore.SignedIn | src/stores/authStore.ts:16 | After `setAuth(u)` the user is `u`, and the flag agrees with it. |
| AuthStore.SetAuthNoneIsReset | src/stores/authStore.ts:16-17 | `setAuth(null)` has the same effect as `reset()`. |
| AuthStore.SetAuthDeterminesSession | src/stores/authStore.ts:16 | Two `setAuth` calls leave the same state exactly when they are given the same user. |
| AuthStore.AuthState.constructor | src/stores/authStore.ts:14-15 | The store starts signed out, with the flag consistent. |
| AuthStore.AuthState.SetAuth | src/stores/authStore.ts:16 | Both fields are replaced, and the flag agrees with the user. |
| AuthStore.AuthState.Reset | src/stores/authStore.ts:17 | The store is signed out whatever it held before, so `reset` is idempotent, and the flag stays consistent. |

## Left out

- **Messages.** The user-facing message texts are not modelled. A result carries only its error type and its `details`.
- **Numbers.** JavaScript numbers are modelled without floating-point rounding. Form values reach the model already converted to numbers (`Number(form.get('id'))`).
- **Oracles.** These become functions handed to the actions:
  - `geocodeByAddress` and its HTTP call;
  - the database replies;
  - the object store's `upload` and `getPublicUrl`;
  - `JSON.parse`.
  
  Only `ArraysStartWithBracket` is assumed of `JSON.parse`, and only for the tag round trip: on text with no surrounding whitespace, an array result means the text starts with `[`.
- **Upload key stamp.** `Date.now()` and `Math.random().toString(36).slice(2)` make up the key stamp. They become the parameter `stamp`, and the update's clock becomes the parameter `now`.
- **Exceptions.** An exception from a backend call other than `RpcThrew`/`FetchThrew` is not modelled; every backend reply is a value. So are `createServerSupabaseClient` failing and `requireAuth` failing for reasons other than a missing user.
- **Auth lookup.** `requireAuth`'s `supabase.auth.getUser()` (src/actions/place-actions.ts:33-40) is not a logged call. The signed-in user is an input to create, update and delete, so the call logs hold only store, geocoder and object-store calls.
- **Type casts.** These casts are not modelled:
  - the row mapping of the list action (src/actions/place-actions.ts:103-111), whose rows are returned as stored;
  - `as number` on a procedure's id, assumed to be an integer or absent.
- **Ordering.** `created_at` ordering and the `count` head query are store behaviour, seen only through the oracle replies.
- **The nearby distance filter.** `ST_DWithin` is a predicate `within` handed to the lemmas.
- PickActions.PickOne: only states that some accepted place is returned. `ORDER BY random()` is not modelled as uniform.
- **Lower-casing.** `lower()` in the stored procedure and `toLowerCase` are modelled as ASCII-only.
- **Redirect ids.** `IntToString` prints integers only; a non-integer id is outside the model.
- AdminList.PlaceList: `isLoading` is a parameter of the disabled predicates, not a field. What React Query does, including keeping the previous reply while loading and deleting rows from the list, is not modelled.
- **Calling the pick action.** How `src/components/Main/FilterPick.tsx` calls `pickPlaceAction` is not part of this model.
- **UI and presentation.** Everything else in the interface is out of scope.

## Findings

| source | as written | input that shows it | evidently intended | confidence | as-written member | corrected member |
|---|---|---|---|---|---|---|
| src/components/Place/List.tsx:21-30 | The list request sends the search text under `keyword`, but `getPlaceListAction` reads `q` (src/actions/place-actions.ts:67). | Any non-blank search text, e.g. `keyword = "cafe"`: the action sees `q = ''` and adds no name filter. | The text is sent as `q`, so the name filter applies. | medium; not executed | AdminList.KeywordNeverReachesQuery | AdminList.KeywordReachesQuery |
| src/actions/pick-actions.ts:51-58 | The nearby procedure compares `p.category = p_category` literally. The action always passes a string, `''` by default, and the filter store's default category is `all`. | `region = 'nearby'`, `category = 'all'` and truthy coordinates: no stored place (category `food`, `cafe` or `sight`) matches, so the result is always not-found. | `''` and `all` mean no category filter, as in `pick_one_random` (src/actions/pick-actions.ts:116-120). | medium (the procedure's text is the one given in the source comment); not executed | PickActions.NearbyAllAlwaysMisses | PickActions.NearbyPickMisses |
