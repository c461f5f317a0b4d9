# Map state core of CampSitesMapReact, in Dafny

CampSitesMapReact is a browser map of camp sites and other points of interest.
Its core is the in-memory map state held by `MapProvider` and the rules the UI
applies to it. This project models that core and proves properties of the model:

- **`MapContext`** (`src/contexts/MapContext.tsx`). Class `MapProvider` holds the
  point list, the loading flag, the error, the selected point and the camera
  (`MapViewState`). Its bootstrap, refresh, add, update and delete operations take
  the remote store's answer as an `Outcome` parameter (`Ok(value)` or
  `Err(thrown)`). A ghost `requests` log records which remote calls were made, in
  order. The list changes are the source's `map` and `filter` expressions, written
  as the functions `ReplaceById` and `RemoveById` and proved correct by lemmas.
  They are applied only after the store has succeeded. An `Err` from add, update
  or delete changes nothing. An `Err` from bootstrap or refresh sets the error;
  those two operations also end with `loading` false whatever the outcome.
- **`PointForm`** (`src/components/AddMapPointForm.tsx`). It covers the form
  record, the per-field edit, the amenities parser, the draft sent on submit, and
  the submit flow with its success and failure handling (class `AddMapPointForm`).
- **`JsStrings`**. These are the two JavaScript built-ins the parser uses:
  `split(',')` and `trim()`. The set of characters `trim` removes is the
  ECMAScript WhiteSpace and LineTerminator set, written out. `Trim` takes the
  character class as a parameter and `JsTrim` fixes it to that set.
- **`MapSurface`** (`src/components/MapView.tsx`). It covers marker colour and
  scale, the popup's rating stars and the style table. Class `MapView` holds
  `popupInfo`, `clickedLocation` and `currentMapStyle`, and models the selection
  effect, map clicks, marker clicks, popup closing, camera moves and the style
  switch.
- **`Types`** (`src/types/index.ts`). It holds the records (`MapPoint`,
  `UserSettings`, `MapViewState`), the `Outcome` of a remote call, and `Thrown`.
  `Thrown` says whether a failure was an `Error` instance (the form shows its
  message) or some other value (the form shows the fixed fallback text).
  Coordinates, zoom and rating are `real`s. They are only copied or compared,
  never computed on.

Behaviours of the code worth knowing:

- A map click is gated only on the Cmd/Ctrl modifier (`MapView.tsx:53-66`). There
  is no authentication check.
- Marker colours compare the type with `Campsite` and `Hiking Trail` exactly.
  The form offers only lower-case values (`campsite`, `hiking_trail`, …), so every
  point created through the form gets the default colour (`FormTypesGetDefaultColor`).
  The mapping is therefore not injective on the types the application produces.
- Deleting the selected point clears the selection but not an open popup. The
  selection effect does nothing for a null selection (`MapView.tsx:41-50`).
- A marker click opens the popup but does not change the selection. The enlarged
  marker therefore follows the provider's selection, not the popup.
- `MapView` passes `initialLocation` to the form, but the form does not read it.
  The form's initial coordinates are the provider's camera centre when the form
  mounts (`AddMapPointForm.tsx:17-18`).
- After an edit, the form stores latitude and longitude as raw input text; only
  `rating` is converted with `Number`. So the draft's coordinates are `FieldValue`s:
  `Num` before any edit, `Text` after one.
- The popup's rating block is guarded by `popupInfo.rating && (...)`
  (`MapView.tsx:209`). For a rating of 0 that expression is the number 0, which
  React renders as a stray "0" instead of the stars. Every point created through
  the form starts with rating 0. JSX rendering is not modelled; `PopupStars` only
  says that no stars are drawn.
- The bootstrap error leaves the list as it was. From the first render that is
  the empty list (`Mount`).

## Model

| member | source | states |
|---|---|---|
| `MapContext.ReplaceById` | src/contexts/MapContext.tsx:92 | the `map` keeps the length; afterwards the id occurs as often as before when the updated point carries that id, and not at all otherwise |
| `MapContext.RemoveById` | src/contexts/MapContext.tsx:105 | the `filter` never lengthens the list and leaves no entry with the id |
| `MapContext.ErrorMessage` | src/contexts/MapContext.tsx:59 | the recorded error's message is the thrown Error's own message, or the string form of any other thrown value |
| `MapContext.ViewFromSettings` | src/contexts/MapContext.tsx:45-49 | the camera takes the settings' default longitude, latitude and zoom |
| `MapContext.ReplaceByIdAt` | src/contexts/MapContext.tsx:91-93 | the `map` replacement keeps the list length, puts the updated point at every index whose entry has the id, and leaves every other entry identical at its index |
| `MapContext.ReplaceByIdAbsent` | src/contexts/MapContext.tsx:91-93 | with no entry of that id, the replacement leaves the list unchanged |
| `MapContext.RemoveByIdMembers` | src/contexts/MapContext.tsx:105 | a point is in the filtered list iff it was in the list and its id differs from the deleted id |
| `MapContext.RemoveByIdLength` | src/contexts/MapContext.tsx:105 | the filter removes exactly the entries with that id (new length = old length minus their count), and none is left |
| `MapContext.RemoveByIdConcat` | src/contexts/MapContext.tsx:105 | filtering distributes over concatenation, so survivors from an earlier part of the list come before survivors from a later part |
| `MapContext.RemoveByIdKeepsOrder` | src/contexts/MapContext.tsx:105 | two surviving entries appear in the filtered list in the same relative order |
| `MapContext.RemoveByIdAbsent` | src/contexts/MapContext.tsx:105 | with no entry of that id, the filter leaves the list unchanged |
| `MapContext.RemoveByIdIdempotent` | src/contexts/MapContext.tsx:105 | deleting the same id twice gives the same local list as deleting it once |
| `MapContext.AddThenDelete` | src/contexts/MapContext.tsx:83-87 | prepending a point whose id is new and then filtering out that id gives back the original list |
| `MapContext.MapProvider.constructor` | src/contexts/MapContext.tsx:26-36 | first render: empty list, loading, no error, no selection, camera at lon 146.8884086608887, lat -36.114858138524454, zoom 8 |
| `MapContext.MapProvider.SetViewState` | src/contexts/MapContext.tsx:32-36 | `setViewState` overwrites the camera and nothing else |
| `MapContext.MapProvider.SetSelectedPoint` | src/contexts/MapContext.tsx:29 | `setSelectedPoint` overwrites the selection and nothing else |
| `MapContext.MapProvider.LoadInitialData` | src/contexts/MapContext.tsx:38-64 | a settings success copies default longitude, latitude and zoom into the camera, and a settings failure keeps the camera; a points success replaces the list, and a points failure sets the error and keeps the list; the selection is untouched; loading is false at the end; settings are requested for the fixed user, then the points |
| `MapContext.Mount` | src/contexts/MapContext.tsx:66-68 | mount followed by bootstrap: without settings the camera is the default one; without points the error is set and the list is empty; loading is false |
| `MapContext.MapProvider.RefreshMapPoints` | src/contexts/MapContext.tsx:70-81 | success replaces the whole list and keeps an earlier error; failure sets the error and keeps the list; camera and selection are untouched (frame); loading is false at the end |
| `MapContext.MapProvider.AddMapPoint` | src/contexts/MapContext.tsx:83-87 | on success the list is `[newPoint] + old` and the store's point is returned; on failure the list is unchanged and the thrown value is passed back |
| `MapContext.MapProvider.UpdateMapPoint` | src/contexts/MapContext.tsx:89-101 | on success, same length, every entry with the id replaced by the store's point, other entries identical at their index; the selection becomes the updated point iff it had that id; on failure nothing changes and the error is passed back |
| `MapContext.MapProvider.DeleteMapPoint` | src/contexts/MapContext.tsx:103-111 | on success the list is the old one filtered by id, with no entry of that id left and membership exactly the other entries; the selection is cleared iff it had that id; on failure nothing changes |
| `JsStrings.Split` | src/components/AddMapPointForm.tsx:40 | `split` always yields at least one piece |
| `JsStrings.SplitCount` | src/components/AddMapPointForm.tsx:40 | `split(',')` yields one more piece than the text has commas |
| `JsStrings.SplitPiecesFree` | src/components/AddMapPointForm.tsx:40 | no piece of `split(',')` contains a comma |
| `JsStrings.SplitJoin` | src/components/AddMapPointForm.tsx:40 | joining the pieces with the separator restores the text, so the pieces are its segments in order, empty segments included |
| `JsStrings.TrimStartIndex` | src/components/AddMapPointForm.tsx:40 | the trim's start index: every character before it is whitespace and the one at it is not |
| `JsStrings.TrimEndIndex` | src/components/AddMapPointForm.tsx:40 | the trim's end index: every character from it on is whitespace and the one before it (past the start) is not |
| `JsStrings.TrimIsInfix` | src/components/AddMapPointForm.tsx:40 | `trim()` keeps a contiguous infix of the text, starting after the leading whitespace |
| `JsStrings.TrimRemovesSpaces` | src/components/AddMapPointForm.tsx:40 | everything `trim()` removes, before and after the infix it keeps, is whitespace |
| `JsStrings.Trim` | src/components/AddMapPointForm.tsx:40 | trimming never lengthens the text, and the result neither starts nor ends with a character of the class |
| `JsStrings.JsTrim` | src/components/AddMapPointForm.tsx:40 | `trim()` never lengthens the text, and the result neither starts nor ends with JavaScript whitespace |
| `JsStrings.IsJsWhitespace` | src/components/AddMapPointForm.tsx:40 | space, tab, line feed and carriage return are whitespace; a comma, a digit or an ASCII letter never is |
| `JsStrings.TrimIdempotent` | src/components/AddMapPointForm.tsx:40 | trimming twice is trimming once |
| `JsStrings.TrimKeepsAbsent` | src/components/AddMapPointForm.tsx:40 | trimming introduces no character that was not there |
| `PointForm.InitialForm` | src/components/AddMapPointForm.tsx:11-19 | initial record: name, description and amenities empty, type `campsite`, rating 0, latitude and longitude taken from the camera |
| `PointForm.AddMapPointForm.constructor` | src/components/AddMapPointForm.tsx:11-22 | on mount the record is the initial one for the provider's camera; not submitting; no error |
| `PointForm.FormDataExtensional` | src/components/AddMapPointForm.tsx:11-19 | the seven fields determine the form record completely |
| `PointForm.UpdateField` | src/components/AddMapPointForm.tsx:24-30 | the field named by the input takes the numeric conversion (for `rating`) or the raw text (for any other field, the coordinates included); every other field is unchanged |
| `PointForm.UpdateFieldSameText` | src/components/AddMapPointForm.tsx:26-29 | reporting the text a field already holds leaves the record unchanged |
| `PointForm.AddMapPointForm.HandleChange` | src/components/AddMapPointForm.tsx:24-30 | `handleChange` replaces the record by its one-field update |
| `PointForm.ParseAmenities` | src/components/AddMapPointForm.tsx:39-41 | the list is empty exactly when the text is, and otherwise has one entry more than the text has commas |
| `PointForm.ParseAmenitiesSpec` | src/components/AddMapPointForm.tsx:39-41 | empty text gives an empty list; otherwise the list has commas + 1 entries, entry i is the trimmed i-th segment (empty segments give `''`), the segments reassemble the text, and no entry contains a comma |
| `PointForm.Draft` | src/components/AddMapPointForm.tsx:43-51 | the draft copies name, description, type, rating, latitude and longitude verbatim and carries the parsed amenities |
| `PointForm.SubmitErrorText` | src/components/AddMapPointForm.tsx:55 | a thrown Error shows its message; any other value shows `Failed to add map point` |
| `PointForm.AddMapPointForm.HandleSubmit` | src/components/AddMapPointForm.tsx:32-60 | the draft of the current record is sent through `addMapPoint`; `onClose` is called iff the create succeeds; the error is clear after a success and holds the failure text otherwise; the provider list grows only on success; submitting is false at the end; the record is unchanged |
| `MapSurface.MarkerColor` | src/components/MapView.tsx:173 | exact, case-sensitive: `#FF5733` iff the type is `Campsite`, `#33FF57` iff it is `Hiking Trail`, `#3357FF` otherwise |
| `MapSurface.FormTypesGetDefaultColor` | src/components/MapView.tsx:173 | each of the six type values the form offers gets the default colour `#3357FF` |
| `MapSurface.Markers` | src/components/MapView.tsx:168-183 | one marker per point, in order, at the point's coordinates and with its type's colour; scale 1.2 exactly for the markers whose id is the selected id and 0.8 for all others; with no selection all are 0.8 |
| `MapSurface.PopupStars` | src/components/MapView.tsx:209-214 | the rating block is drawn iff the rating is present and non-zero; it then has five stars, star i filled iff i < rating |
| `MapSurface.StarRow` | src/components/MapView.tsx:213-214 | five stars, star i filled exactly when i is below the rating; none for a rating at or below 0, all five for a rating above 4 |
| `MapSurface.StarRowPrefix` | src/components/MapView.tsx:214 | filled stars form a prefix of the row |
| `MapSurface.FilledStarsBounds` | src/components/MapView.tsx:213-214 | between 0 and 5 stars are filled |
| `MapSurface.FilledStarsMonotone` | src/components/MapView.tsx:213-214 | a higher rating fills at least as many stars |
| `MapSurface.FilledStarsExact` | src/components/MapView.tsx:213-214 | a rating in (k-1, k] fills k stars; none fill at or below 0; all five fill above 4 |
| `MapSurface.StyleUrl` | src/components/MapView.tsx:13-19 | every entry of `MAP_STYLES` is one of the five style URLs, each a `mapbox://styles/mapbox/` URL |
| `MapSurface.StyleUrlsExact` | src/components/MapView.tsx:13-21 | the style table maps the five names one-to-one onto the five style URLs |
| `MapSurface.MapView.constructor` | src/components/MapView.tsx:34-37 | first render: no popup, no clicked location, the outdoors style |
| `MapSurface.FocusOn` | src/components/MapView.tsx:43-47 | the focus camera is centred on the point's longitude and latitude at zoom 12 |
| `MapSurface.MapView.SelectionEffect` | src/components/MapView.tsx:41-50 | with a selected point p, the camera becomes p's longitude and latitude at zoom 12 and the popup shows p; with no selection neither changes |
| `MapSurface.MapView.Select` | src/components/MapView.tsx:41-50 | after the selection changes to a point p, the camera focuses on p and the popup shows p; an unchanged or null selection leaves both as they were |
| `MapSurface.MapView.HandleMapClick` | src/components/MapView.tsx:53-66 | the clicked (lat, lng) is stored iff Cmd or Ctrl is held; otherwise no state changes |
| `MapSurface.MapView.MarkerClick` | src/components/MapView.tsx:176-181 | a marker click opens the popup on that point |
| `MapSurface.MapView.ClosePopup` | src/components/MapView.tsx:190 | closing the popup sets it to none |
| `MapSurface.MapView.OnMove` | src/components/MapView.tsx:153 | a reported move overwrites the provider's camera |
| `MapSurface.MapView.ChangeMapStyle` | src/components/MapView.tsx:81-83 | the style becomes the chosen entry of the table, so it always stays one of the five URLs (`Valid`) |

## Left out

- `src/services/mapPointsService.ts` and `src/services/settingsService.ts` are not part of this model. Each store call is an `Outcome` parameter. That includes the settings fallbacks inside `getUserSettings`: creating the row on `PGRST116`, and any default record. Whatever the service returns is one more outcome.
- The store's own semantics are not modelled: the ordering by `created_at`, what an update patch does to a record, and whether deleting a missing id fails. The context takes whatever the store returns. So "the update changes only the patched fields" and "list() is newest first" are not stated.
- Authentication (`src/contexts/AuthContext.tsx`), login prompts and toasts are not part of this model. The shown code has no auth gate on map clicks.
- Mapbox widget construction, controls, the `flyTo` animation on marker click (`MapView.tsx:69-78`), the Preline modal trigger after a map click (`MapView.tsx:61-64`), JSX layout and CSS are not modelled. They are foreign calls or rendering.
- Overlapping asynchronous requests and stale closures are not modelled: each operation is one atomic step applied to the current state. The intermediate states inside a step (for example loading being true while a fetch is in flight, or the form's error cleared before the await) are not observable in the model.
- `Number()` parsing is a `toNumber` parameter. JavaScript numbers are `real`s, so NaN and the way a NaN rating counts as falsy are not modelled.
- `console` logging is left out.
- `MapSurface.MapView.Select`: React re-runs the selection effect when the new selection is a different object. The model re-runs it when the new selection is a different value, so an equal but freshly fetched object does not retarget the camera in the model.
- `MapSurface.MapView.ChangeMapStyle`: the style `<select>` (`MapView.tsx:99`) stores the raw value of the chosen option. It is modelled by this one method, because its options are exactly the five table URLs.
- `showAddForm` (`MapView.tsx:35`) is never set by the component and is left out. So is `getMapPointById`, which the core never calls.
