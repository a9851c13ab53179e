# Logistics tracking core, modelled in Dafny

This project models the logic of a shipment-tracking web application. The
application is a Next.js front end and API over a Supabase `shipments` table
and a `messages` table. The modelled parts are:

- the server routes that create a shipment, move it along its route, and
  edit its cargo list (`products`);
- the admin dashboard's and the creation form's client-side editing of
  cargo lists, and the requests they send;
- the tracking view: the progress estimate, the arrival time, the status
  badge and the polling gate;
- the map marker's status state machine, its waypoint trail and the
  ease-out animation;
- the support chat: the visitor's id, the admin's conversation list,
  unread counting, the send guards and row payloads, and realtime updates.

Wall-clock time and `Math.random` are parameters. Every database read is a
parameter or a lookup in `Store.ShipmentTable`. Every write is an update of
that table's `rows`, or an entry appended to a request or insert log
(`outbox`, `requests`, `inserts`, `readMarks`). Untyped JSON is
`JsValues.Value`, with JavaScript truthiness, `||`, `??`, property keys and
property reads (own properties, `length` and inherited method names) written
out. Numbers are `real`. Strings are `seq<char>`, and text helpers
(upper-casing, trimming, `substring`/`substr`, decimal rendering,
`parseFloat`/`parseInt`) live in `JsText`.

Modules follow the source files:

| module | source |
|---|---|
| `Simulation` | src/app/api/shipments/simulate-movement/route.js |
| `Creation` | src/app/api/shipments/route.js (POST) |
| `ProductRoutes` | the add-product, update-product and remove-product routes |
| `Cargo` | shared list operations (splice, filter by index, field edits) |
| `Dashboard` | src/app/admin/dashboard/page.js |
| `AdminForm` | src/components/AdminForm.jsx |
| `ShipmentDetails` | src/components/ShipmentDetails.js |
| `MapLeaflet` | src/components/MapLeaflet.js |
| `ChatWidget` | src/components/ChatWidget.jsx |
| `Interpolation`, `JsValues`, `JsText`, `Store`, `Wrappers` | shared foundations |

Behaviour of the code worth noting, which the model follows:

- The movement step's progress is capped at 1 but not floored at 0
  (`Simulation.ProgressNotFloored`).
- The simulate route looks the code up exactly as given. The product
  routes upper-case it first.
- The tracking view posts its movement step to `/api/simulate-movement`.
  The route lives under `/api/shipments/simulate-movement`
  (`ShipmentDetails.SimulatePath`).

## Model

| member | source | states |
|---|---|---|
| Simulation.ElapsedHours | src/app/api/shipments/simulate-movement/route.js:29-32 | Milliseconds since creation over 3.6e6; its use is stated by ProgressCapped and ProgressEndpoints. |
| Simulation.Progress | src/app/api/shipments/simulate-movement/route.js:33-36 | min(elapsed hours / estimated hours, 1); stated by ProgressCapped, ProgressEndpoints, ProgressNotFloored and ProgressMonotone. |
| Simulation.Simulate | src/app/api/shipments/simulate-movement/route.js:15-87 | The route's answer for the found row; stated by NotInTransitEchoes, MissingCoordinatesRefused, ArrivalSnapsToDestination, EnRouteKeepsStatus and StepIdempotent. |
| Simulation.EstimatedHours | src/app/api/shipments/simulate-movement/route.js:33 | A truthy estimate is used as is; a NULL or zero estimate counts as 1 hour; the result is never 0. |
| Simulation.Apply | src/app/api/shipments/simulate-movement/route.js:69-72 | Writing an update sets position, progress and `updated_at`, sets status only when the update carries one, and leaves every other column as it was. |
| Simulation.SimulateMovement | src/app/api/shipments/simulate-movement/route.js:4-87 | The route's answer is the step function of the row found under the exact code; only a moved shipment's row is rewritten (with `Apply`), and no other row or answer writes anything. |
| Simulation.ProgressCapped | src/app/api/shipments/simulate-movement/route.js:29-36 | Progress never exceeds 1; below 1 it is exactly elapsed hours over estimated hours. |
| Simulation.MissingEstimateIsOneHour | src/app/api/shipments/simulate-movement/route.js:33 | A missing or zero estimate gives the same progress as a one-hour estimate. |
| Simulation.ProgressEndpoints | src/app/api/shipments/simulate-movement/route.js:29-36 | Progress is 0 at creation time and 1 once the estimated hours have passed. |
| Simulation.ProgressNotFloored | src/app/api/shipments/simulate-movement/route.js:29-36 | A clock one hour before creation gives progress -1: there is no lower clamp. |
| Simulation.ProgressMonotone | src/app/api/shipments/simulate-movement/route.js:29-36 | For a positive estimate, progress never decreases as the clock advances. |
| Simulation.NotInTransitEchoes | src/app/api/shipments/simulate-movement/route.js:20-26 | The answer is the not-in-transit echo exactly when the stored status is not 'In Transit', and it carries the stored status and progress. |
| Simulation.MissingCoordinatesRefused | src/app/api/shipments/simulate-movement/route.js:44-46 | An in-transit shipment gets 'Missing coordinates' exactly when an origin or destination coordinate is NULL or 0. |
| Simulation.ArrivalSnapsToDestination | src/app/api/shipments/simulate-movement/route.js:61-66 | At progress 1 the update writes 'Delivered', progress exactly 1 and exactly the destination, and reports 'Delivered'. |
| Simulation.EnRouteKeepsStatus | src/app/api/shipments/simulate-movement/route.js:49-58 | Every move stamps `updated_at` with the clock; below progress 1 no status is written, 'In Transit' is reported, and the position is the per-axis interpolation. |
| Simulation.StepIdempotent | src/app/api/shipments/simulate-movement/route.js:53-86 | Repeating the step at the same instant on the written row writes the same update again (en route), or echoes the delivered state (after arrival). |
| Simulation.ScenarioHalfwayAndArrived | src/app/api/shipments/simulate-movement/route.js:29-66 | A ten-hour trip from (10,10) to (20,20) is at (15,15) and progress 0.5 after five hours, and delivered at (20,20) after eleven. |
| Interpolation.Lerp | src/app/api/shipments/simulate-movement/route.js:49-50 | `from + (to - from) * p`; stated by LerpEndpoints, LerpBetween and LerpMonotone. |
| Interpolation.LerpEndpoints | src/app/api/shipments/simulate-movement/route.js:49-50 | Interpolation at 0 gives the origin and at 1 the destination. |
| Interpolation.LerpBetween | src/app/api/shipments/simulate-movement/route.js:49-50 | For a fraction in [0,1] the interpolated coordinate lies between origin and destination. |
| Interpolation.LerpMonotone | src/app/api/shipments/simulate-movement/route.js:49-50 | A larger fraction moves the coordinate further towards the destination. |
| Creation.CreateShipment | src/app/api/shipments/route.js:5-101 | A failure is the 500 'Failed to create shipment'; a success carries the drawn tracking code in both the record and the response. |
| Creation.CreateFailsExactly | src/app/api/shipments/route.js:7-22 | The route fails exactly on a null body or on a null product line. |
| Creation.NormalizeProduct | src/app/api/shipments/route.js:13-21 | A cargo line has exactly the seven defaulted keys. |
| Creation.ProductDefaults | src/app/api/shipments/route.js:13-21 | `piece_type` and `description` become '' only when falsy; `qty` becomes 1, and the measures become 0, only when null or undefined. |
| Creation.NormalizeProducts | src/app/api/shipments/route.js:12-22 | A non-array becomes the empty list; an array of non-null lines is mapped one to one in order; a null line makes creation fail. |
| Creation.MapProducts | src/app/api/shipments/route.js:13-21 | The mapping fails exactly when some line is null or undefined, and otherwise keeps length and order. |
| Creation.ParsedCoordinate | src/app/api/shipments/route.js:43-52 | A coordinate is stored as a number exactly when it is truthy and parses; that number is `parseFloat` of it. Otherwise it is NULL, an unparsable one being NaN, which JSON writes as null. |
| Creation.ParsedHours | src/app/api/shipments/route.js:55 | An estimate is stored as a number exactly when it is truthy and `parseInt(…, 10)` reads an integer, which is the number stored; otherwise it is NULL (NaN is written as null). |
| Creation.TrackingCode | src/app/api/shipments/route.js:9 | `SHP` and the upper-cased base-36 digits 2 to 8 of the draw; stated by TrackingCodeFormat. |
| Creation.TrackingCodeFormat | src/app/api/shipments/route.js:9 | The code is 'SHP' followed by at most six upper-case letters or digits. |
| Creation.CarrierNumber | src/app/api/shipments/route.js:63 | The default carrier number lies in [100000000000, 999999999999]. |
| Creation.CarrierRef | src/app/api/shipments/route.js:63 | `LOG` and the drawn carrier number; stated by CarrierRefFormat. |
| Creation.CarrierRefFormat | src/app/api/shipments/route.js:63 | The default carrier reference is 'LOG' followed by exactly twelve decimal digits whose value is the carrier number. |
| Creation.NewRecordDefaults | src/app/api/shipments/route.js:55-71 | A new record has progress 0, the given status or 'In Transit', the documented transaction defaults, the generated code, the generated carrier reference when none is given, and the clock as both times. |
| Creation.CargoListShape | src/app/api/shipments/route.js:12-22 | Without an array `products` the stored list is empty; with an array of non-null lines each stored line is that line normalised. |
| Creation.ResponseEchoesCoordinates | src/app/api/shipments/route.js:88-96 | The response carries the record's code and exactly its origin, current and destination coordinates; a falsy coordinate is NULL and a truthy number is kept. |
| JsText.ToUpper | src/app/api/shipments/add-product/route.js:12 | Same length, and each ASCII lower-case letter becomes its upper-case letter while every other character is kept. |
| JsText.ToUpperIdempotent | src/app/api/shipments/add-product/route.js:12 | Upper-casing an already upper-cased code changes nothing. |
| JsText.Trim | src/app/admin/dashboard/page.js:313 | Trimming removes exactly the leading and trailing white space. |
| JsText.DecimalRoundTrip | src/app/api/shipments/route.js:63 | Reading back the decimal rendering of a number gives that number. |
| JsText.ParseFloatOfDecimal | src/components/MapLeaflet.js:33-36 | `parseFloat` of a rendered whole number gives that number. |
| JsText.ParseIntOfDecimal | src/app/api/shipments/route.js:55 | `parseInt` of a rendered whole number gives that number. |
| JsValues.Or | src/app/api/shipments/route.js:27-40 | `a \|\| b` is `a` when truthy, otherwise `b`. |
| JsValues.Coalesce | src/app/api/shipments/route.js:16-20 | `a ?? b` is `a` unless null or undefined, otherwise `b`. |
| JsValues.ParseFloat | src/components/MapLeaflet.js:33-36 | A number is itself, a string is parsed as a decimal prefix, a list is parsed through its string, and anything else is NaN. |
| JsValues.ParseInt | src/app/api/shipments/route.js:55 | `parseInt` of a number truncates it when its JS spelling is plain decimal, and reads only the first significant digit, with its sign, when the spelling has an exponent; a string is parsed as a decimal prefix; a list is parsed through its string (`[5]` gives 5); anything else is NaN. |
| JsValues.ExponentSpelling | src/app/api/shipments/route.js:55 | `parseInt(1e21)` and `parseInt(1e-7)` are both 1. |
| JsValues.SingletonListParses | src/app/api/shipments/route.js:55 | `parseInt([n], 10)` and `parseFloat([n])` give `n` for a whole number `n`. |
| JsValues.ArrayIndex | src/app/api/shipments/update-product/route.js:20 | A key names position `i` of a list exactly when it is the decimal spelling of `i` and `i` is below the length. |
| JsValues.PropertyKey | src/app/api/shipments/update-product/route.js:20-22 | The key `o[v]` uses is the string itself for a string, and the plain decimal for a whole number below 10^21. |
| JsValues.ReadKey | src/app/api/shipments/update-product/route.js:20 | A position key reads that element of a list (that character of a string); an own key reads that field of an object; an inherited read only happens on a method name. |
| JsValues.IndexFields | src/app/admin/dashboard/page.js:117 | The index properties of a list have exactly the position keys, each holding its element. |
| JsValues.FindIndex | src/components/AdminForm.jsx:57 | The first position satisfying the predicate, or none when no element does. |
| Store.ShipmentTable.Find | src/app/api/shipments/add-product/route.js:9-13 | The row is found exactly when the code is a key, and it is the stored row. |
| ProductRoutes.StoredList | src/app/api/shipments/add-product/route.js:16 | `products \|\| []`: a falsy column is the empty list, an array is its items, any other truthy value is an internal error. |
| ProductRoutes.SlotOf | src/app/api/shipments/update-product/route.js:20 | An index names position `i` exactly when its property key is the decimal of `i` and `i` is in the list. |
| ProductRoutes.SetOn | src/app/api/shipments/update-product/route.js:22 | Setting a field of an object element adds or replaces that field. Setting a position of a list element replaces it, or pads with nulls up to it. Another key on a list leaves it as it is, and a primitive throws. |
| ProductRoutes.UpdatedProducts | src/app/api/shipments/update-product/route.js:19-22 | The element found at a list position or under an object key is updated in place, and the container is written back with it. An inherited method read leaves the value as it was; an element that throws gives no value. |
| ProductRoutes.RemovedProducts | src/app/api/shipments/remove-product/route.js:16-19 | On a list, the named position is spliced out, or the first line when the index names `length` or a method (NaN starts at 0). Anything but a list has no `splice` and throws. |
| ProductRoutes.AddProduct | src/app/api/shipments/add-product/route.js:4-30 | A missing code is a 400; otherwise the upper-cased code's list gets exactly the blank line appended, `updated_at` is the clock, and every other row and column is unchanged; a failure writes nothing. |
| ProductRoutes.UpdateProduct | src/app/api/shipments/update-product/route.js:4-35 | 400 exactly when the code or the field is falsy or the index is undefined (index 0 is accepted). 'Out of bounds' exactly when `products[index]` on the stored value (or `[]`) reads nothing truthy, whatever that value is. Success exactly when the assignment does not throw, and the row then holds `UpdatedProducts` and the clock. Every other outcome is the 500, and a failure writes nothing. |
| ProductRoutes.RemoveProduct | src/app/api/shipments/remove-product/route.js:4-32 | 400 exactly when the code is falsy or the index undefined. 'Out of bounds' exactly when `products[index]` reads nothing truthy. Success exactly when the index passes and the stored value is a list, and the row then holds `RemovedProducts`. Every other outcome is the 500, and a failure writes nothing. |
| ProductRoutes.WithProducts | src/app/api/shipments/add-product/route.js:19-22 | A product write changes the list and `updated_at` and nothing else in the row. |
| JsText.CanonicalDecimal | src/app/api/shipments/update-product/route.js:20 | A digit string without a leading zero is the decimal rendering of its value. |
| ProductRoutes.EmptyListReadsOnlyMethods | src/app/api/shipments/remove-product/route.js:16-17 | With a NULL stored list only an index naming an array method passes the bounds check. |
| ProductRoutes.IndexKeyCoercion | src/app/api/shipments/update-product/route.js:20 | The number 2, the string "2" and the list [2] all name position 2. |
| ProductRoutes.ObjectLineUpdate | src/app/api/shipments/update-product/route.js:20-22 | On a list whose indexed line is an object, the update is `SetFieldAt` of that line: only its one field changes. |
| ProductRoutes.ObjectListUpdate | src/app/api/shipments/update-product/route.js:19-22 | A list stored as an object with a key such as "0" is updated under that key. |
| ProductRoutes.LineRemoval | src/app/api/shipments/remove-product/route.js:17-19 | A truthy line at the indexed position is removed and nothing else changes (`RemoveAt`). |
| ProductRoutes.NamedIndexRemovesFirstLine | src/app/api/shipments/remove-product/route.js:17-19 | An index "length" or an array method name passes the check on a non-empty list, and the splice removes the first line. |
| ProductRoutes.StringListPastEnd | src/app/api/shipments/update-product/route.js:19-20 | A list stored as a string is out of bounds for a numeric index at or past its length. |
| ProductRoutes.StringListUnchanged | src/app/api/shipments/update-product/route.js:19-22 | A list stored as a string is never changed by an update, and its removal always throws. |
| ProductRoutes.DigitKeyIsNoStringName | src/app/api/shipments/update-product/route.js:20 | Neither `length` nor any inherited string method name starts with a digit. |
| ProductRoutes.IndexZeroAccepted | src/app/api/shipments/update-product/route.js:7-9 | Index 0, as a number or as "0", names the first product of a non-empty list. |
| ProductRoutes.OutOfRangeIndexHasNoSlot | src/app/api/shipments/update-product/route.js:20 | A negative, too large or fractional numeric index names no slot. |
| Cargo.RemoveAt | src/app/api/shipments/remove-product/route.js:19 | The spliced list is one shorter, keeps the prefix, shifts the suffix down by one, and is the old list minus that element as a multiset. |
| Cargo.WithoutIndexIsRemoveAt | src/app/admin/dashboard/page.js:134 | Filtering out an index of the list equals splicing it; filtering out any other index changes nothing. |
| Cargo.SpreadFields | src/app/admin/dashboard/page.js:117 | A spread copies an object's own fields and nothing from null, undefined, booleans or numbers (lists and strings: the two rows below). |
| Cargo.SpreadOfList | src/app/admin/dashboard/page.js:117 | `{...list}` has exactly the keys "0" to "n-1", each holding that element. |
| Cargo.SpreadOfString | src/app/admin/dashboard/page.js:117 | `{..."ab"}` is `{"0": "a", "1": "b"}`: one key per character. |
| Cargo.SetFieldAt | src/app/api/shipments/update-product/route.js:22 | Assigning a field keeps the length and every other element, adds the field, and keeps the element's other fields. |
| Cargo.SetFieldIdempotent | src/app/api/shipments/update-product/route.js:22 | Applying the same field update twice gives the same list as applying it once. |
| Cargo.SpreadSetFieldAt | src/app/admin/dashboard/page.js:116-117 | Editing by spread keeps the length and every other element; the edited one holds the old own fields plus the new field. |
| Cargo.SpreadEditAgreesWithInPlaceEdit | src/app/admin/dashboard/page.js:116-117 | On an object element, the spread edit equals the in-place field assignment. |
| Dashboard.Endpoint | src/app/admin/dashboard/page.js:88 | `admin_comment` goes to `/api/tracking/{code}`, every other field to `/api/shipments/{code}`. |
| Dashboard.NormalizedShipment | src/app/admin/dashboard/page.js:38-41 | A loaded shipment keeps every field, and its `products` becomes `[]` unless it is an array. |
| Dashboard.NormalizeLoaded | src/app/admin/dashboard/page.js:38-41 | Loading normalises every shipment, one to one, so each has an array of products. |
| Dashboard.NormalizeLoadedIdempotent | src/app/admin/dashboard/page.js:38-41 | Normalising twice is the same as normalising once. |
| Dashboard.ShipmentIndex | src/app/admin/dashboard/page.js:114 | `find` by code: the first shipment with that code, or none when no shipment has it. |
| Dashboard.AdminDashboard.LoadShipments | src/app/admin/dashboard/page.js:33-48 | The shipment list becomes the normalised data, and nothing else changes. |
| Dashboard.AdminDashboard.UpdateShipmentField | src/app/admin/dashboard/page.js:83-110 | Exactly one PATCH of `{field: value}` to the routed endpoint is sent. |
| Dashboard.AdminDashboard.HandleProductChange | src/app/admin/dashboard/page.js:113-119 | An unknown code sends nothing; otherwise one PATCH of the list with that line's field set by spread. |
| Dashboard.AdminDashboard.AddProduct | src/app/admin/dashboard/page.js:121-129 | An unknown code sends nothing; otherwise one PATCH of the list with the seven-field blank line appended. |
| Dashboard.AdminDashboard.RemoveProduct | src/app/admin/dashboard/page.js:131-136 | An unknown code sends nothing; otherwise one PATCH of the list without that position. |
| Dashboard.RemoveOutOfRangeKeepsList | src/app/admin/dashboard/page.js:134 | Removing an out-of-range index sends the list unchanged. |
| Dashboard.AdminDashboard.SetCommentInput | src/app/admin/dashboard/page.js:302-307 | Typing sets that shipment's comment draft and nothing else. |
| Dashboard.AdminDashboard.SaveComment | src/app/admin/dashboard/page.js:312-316 | A missing or blank draft sends nothing; otherwise the trimmed comment is sent as `admin_comment`. |
| Dashboard.AdminDashboard.UpdateLocation | src/app/admin/dashboard/page.js:421-430 | Two PATCHes, of the parsed latitude and then the longitude, when both parse; otherwise the alert 'Enter valid coordinates' and nothing sent. |
| AdminForm.InitialForm | src/components/AdminForm.jsx:7-25 | The form has exactly the documented fields, empty except the transaction defaults and the generated carrier reference. |
| AdminForm.CityCoords | src/components/AdminForm.jsx:56-59 | The first city with that name gives its coordinates; no match gives `{lat: null, lng: null}`. |
| AdminForm.Payload | src/components/AdminForm.jsx:64-74 | The payload holds every form field, the products, and the coordinates of the chosen origin and destination cities. |
| AdminForm.CreationForm.constructor | src/components/AdminForm.jsx:7-29 | The form starts with its defaults and one blank product line. |
| AdminForm.CreationForm.HandleChange | src/components/AdminForm.jsx:35-37 | Sets exactly one form field. |
| AdminForm.CreationForm.HandleProductChange | src/components/AdminForm.jsx:39-43 | Sets one field of one product line and keeps the others and the length. |
| AdminForm.CreationForm.AddProduct | src/components/AdminForm.jsx:45-50 | Appends exactly one seven-field blank line. |
| AdminForm.CreationForm.RemoveProduct | src/components/AdminForm.jsx:52-54 | Removes exactly the position (when it is one), and keeps at least one line because the control is offered only for two or more. |
| AdminForm.CreationForm.HandleSubmit | src/components/AdminForm.jsx:61-110 | Posts the payload of the current form; resets form and products only on success; on failure alerts 'Failed to create shipment' and keeps the form. |
| AdminForm.FormCarrierRefFormat | src/components/AdminForm.jsx:31-33 | The form's carrier reference is 'LOG' followed by twelve digits. |
| AdminForm.SubmittedPayloadIsAccepted | src/components/AdminForm.jsx:64-74 | The creation route accepts a submitted payload whose lines are objects, and stores one line per product. |
| AdminForm.GivenCarrierRefKept | src/app/api/shipments/route.js:63 | A truthy carrier reference in the body is stored as given. |
| AdminForm.SubmittedStatus | src/components/AdminForm.jsx:64-74 | A shipment created from the form is 'In Transit'. |
| AdminForm.SubmittedOriginCoordinates | src/components/AdminForm.jsx:64-74 | A shipment created from the form stores the chosen origin city's coordinates, or NULL when that city is unknown. |
| ShipmentDetails.Fmt | src/components/ShipmentDetails.js:53 | Null, undefined and '' show as '—'; every other value is shown unchanged. |
| ShipmentDetails.Clamp01 | src/components/ShipmentDetails.js:67 | The clamp lies in [0,1] and leaves values inside it unchanged. |
| ShipmentDetails.CalculatedProgress | src/components/ShipmentDetails.js:55-68 | Without all coordinates the stored progress (or 0) is shown; otherwise a value in [0,1], and 0 when the total distance is not positive. |
| ShipmentDetails.AtDestinationIsComplete | src/components/ShipmentDetails.js:55-68 | A position at least as far from the origin as the destination shows progress 1. |
| ShipmentDetails.NoShipmentNoProgress | src/components/ShipmentDetails.js:59-61 | Without a shipment the estimate is 0. |
| ShipmentDetails.EtaOf | src/components/ShipmentDetails.js:70-78 | Without a creation time or hours the arrival is unavailable; otherwise it is creation plus hours times 3 600 000 ms. |
| ShipmentDetails.EtaAfterStart | src/components/ShipmentDetails.js:70-78 | A positive number of hours puts the arrival after the start. |
| ShipmentDetails.DisplayStatus | src/components/ShipmentDetails.js:153 | 'On Hold' shows as 'Stopped'; every other status passes through. |
| ShipmentDetails.Round | src/components/ShipmentDetails.js:154 | `Math.round` gives the nearest integer, halves rounded up. |
| ShipmentDetails.ProgressPct | src/components/ShipmentDetails.js:154 | The percentage is at most 100, not negative for non-negative progress, and exactly 100 from progress 1 on. |
| ShipmentDetails.ProgressPctMonotone | src/components/ShipmentDetails.js:154 | Higher progress never shows a lower percentage. |
| ShipmentDetails.GetStatusConfig | src/components/ShipmentDetails.js:156-163 | The badge classes of the status's tone; stated by StatusTone and UnknownStatusIsGray. |
| ShipmentDetails.StatusTone | src/components/ShipmentDetails.js:156-163 | Each known status has its own colour, in both directions; every other status is grey. |
| ShipmentDetails.UnknownStatusIsGray | src/components/ShipmentDetails.js:163 | A status outside the four known ones gets the grey badge. |
| ShipmentDetails.StopsMovement | src/components/ShipmentDetails.js:101 | On Hold, Cancelled and Delivered; its use is stated by Tracker.Receive. |
| ShipmentDetails.Tracker.constructor | src/components/ShipmentDetails.js:39-51 | The view starts from the rendered shipment and its current position, polling, unmounted. |
| ShipmentDetails.Tracker.FetchRequests | src/components/ShipmentDetails.js:84-95 | One fetch posts the movement step first only for an 'In Transit' shipment, and always ends with the tracking read of its code. |
| ShipmentDetails.Tracker.Start | src/components/ShipmentDetails.js:80-113 | Without a code nothing happens; otherwise the view is mounted and issues one fetch. |
| ShipmentDetails.Tracker.Tick | src/components/ShipmentDetails.js:115-117 | A tick, which only happens while the view is mounted, fetches again only while polling. |
| ShipmentDetails.Tracker.Stop | src/components/ShipmentDetails.js:119-123 | Cleanup marks the view unmounted and changes nothing else. |
| ShipmentDetails.Tracker.Receive | src/components/ShipmentDetails.js:96-109 | A response after unmount is ignored; otherwise it replaces the shipment; a moving status updates the location, and 'On Hold', 'Cancelled' and 'Delivered' stop polling and keep the location. |
| MapLeaflet.SafeParseFloat | src/components/MapLeaflet.js:33-36 | A number is itself, a string or a list is parsed (through its string) with NaN as null, and anything else is null. |
| MapLeaflet.EaseOut | src/components/MapLeaflet.js:57 | `1 - (1 - t)^2`; stated by EaseOutEndpoints, EaseOutBounded, EaseOutMonotone and EaseOutAhead. |
| MapLeaflet.EaseOutEndpoints | src/components/MapLeaflet.js:57 | The easing is 0 at 0 and 1 at 1. |
| MapLeaflet.EaseOutBounded | src/components/MapLeaflet.js:57 | On [0,1] the easing stays in [0,1]. |
| MapLeaflet.EaseOutMonotone | src/components/MapLeaflet.js:57 | On [0,1] the easing never decreases. |
| MapLeaflet.EaseOutAhead | src/components/MapLeaflet.js:57 | On [0,1] the eased curve is never behind the straight one. |
| MapLeaflet.AnimationFrame | src/components/MapLeaflet.js:140-163 | The raw fraction is at most 1 and is 1 once the duration has passed; another frame is requested exactly while it is below 1; the marker is drawn at the eased interpolation. |
| MapLeaflet.AnimationEndsOnTarget | src/components/MapLeaflet.js:145-159 | After the duration the marker sits exactly on the target and no further frame is requested. |
| MapLeaflet.AnimationStaysBetween | src/components/MapLeaflet.js:145-149 | During an animation the marker stays inside the box spanned by start and target. |
| MapLeaflet.Offer | src/components/MapLeaflet.js:215-221 | A fix is appended exactly when the trail is empty or it differs from the last point by more than 1e-6 on an axis; afterwards the trail is not empty and ends within 1e-6 of the fix. |
| MapLeaflet.OfferIdempotent | src/components/MapLeaflet.js:255-259 | Offering the same fix twice adds it at most once. |
| MapLeaflet.OfferKeepsSpread | src/components/MapLeaflet.js:215-221 | Offers never leave two neighbouring waypoints within 1e-6 of each other. |
| MapLeaflet.OfferExtends | src/components/MapLeaflet.js:255-259 | The trail only grows: the old waypoints stay as a prefix. |
| MapLeaflet.RouteOf | src/components/MapLeaflet.js:223-224 | The route is the origin followed by every waypoint, in order. |
| MapLeaflet.AnimatedRoute | src/components/MapLeaflet.js:152 | While animating, the route is the origin, the waypoints, then the moving point. |
| MapLeaflet.MarkerTrail.constructor | src/components/MapLeaflet.js:38-47 | The marker starts with an empty trail and the first status remembered. |
| MapLeaflet.MarkerTrail.LegTo | src/components/MapLeaflet.js:226-234 | The dashed leg is drawn exactly when both destination coordinates are truthy. |
| MapLeaflet.MarkerTrail.OnUpdate | src/components/MapLeaflet.js:166-268 | Nothing without map, marker or position; 'just stopped' (from 'In Transit' to not moving) appends the fix unconditionally, animates for 1200 ms and queues a freeze behind any still pending; stopped places the marker, offers the fix and draws the dashed leg; moving clears the leg, offers the fix and animates for 1800 ms; every branch remembers the status. |
| MapLeaflet.MarkerTrail.RunFreeze | src/components/MapLeaflet.js:187-204 | The oldest scheduled freeze leaves the queue; it stops the animation, places the marker on the captured fix, redraws the route from the captured origin and the dashed leg to the captured destination, and keeps the trail. |
| ChatWidget.LocalStorage.constructor | src/components/ChatWidget.jsx:7 | The browser storage starts with the given items. |
| ChatWidget.NewUserId | src/components/ChatWidget.jsx:9 | `user_`, up to nine base-36 digits of the draw, then the clock; stated by NewUserIdFormat. |
| ChatWidget.NewUserIdFormat | src/components/ChatWidget.jsx:9 | A fresh id is 'user_', up to nine base-36 digits of the draw, then the clock in decimal. |
| ChatWidget.GetUserId | src/components/ChatWidget.jsx:6-13 | A stored non-empty id is returned and nothing is written; otherwise a fresh id is stored and returned, so later calls return it. |
| ChatWidget.CountUnread | src/components/ChatWidget.jsx:76-77 | A user's unread count is bounded by the number of messages. |
| ChatWidget.AdminUnread | src/components/ChatWidget.jsx:136-141 | The admin badge counts unread customer messages, at most the number of messages. |
| ChatWidget.AdminUnreadOfOneUser | src/components/ChatWidget.jsx:136-141 | Within one user's conversation the admin badge equals that user's unread count in the conversation list. |
| ChatWidget.CustomerMessages | src/components/ChatWidget.jsx:186 | No customer messages exactly when every message is the admin's. |
| ChatWidget.LastMessage | src/components/ChatWidget.jsx:81 | The preview is the sticker, else the text, else '📎 Attachment'. |
| ChatWidget.FirstOf | src/components/ChatWidget.jsx:75 | The position of a user's first message, every earlier one being another user's; none when the user has none. |
| ChatWidget.UserIdsAppend | src/components/ChatWidget.jsx:78 | Adding an entry adds exactly its user to the users seen. |
| ChatWidget.FirstAppearance | src/components/ChatWidget.jsx:75 | A message whose sender is not among the senders of all earlier messages is its sender's first one. |
| ChatWidget.BuiltStep | src/components/ChatWidget.jsx:74-86 | One step of the grouping loop keeps the grouping invariant, adding an entry exactly for a new sender. |
| ChatWidget.Summaries | src/components/ChatWidget.jsx:60-92 | One entry per distinct sender, every sender covered, each entry built from that sender's first (newest) message with its unread count, in first-appearance order; messages with a null user id group as one more sender. |
| ChatWidget.TrimmedOrNull | src/components/ChatWidget.jsx:215 | `s.trim() \|\| null`: none exactly for a blank string, otherwise the trimmed string. |
| ChatWidget.TextMessage | src/components/ChatWidget.jsx:213-222 | The row carries the trimmed text or null; admin rows are 'Support Team' with no email; customer rows have the trimmed name and the email or null; unread. |
| ChatWidget.StickerMessage | src/components/ChatWidget.jsx:256-265 | A sticker row has no text or file, the sticker, the same sender rules, and is unread. |
| ChatWidget.UploadPath | src/components/ChatWidget.jsx:195 | The path starts with the user's folder (`null` without a user) and a slash, and ends with the file name. |
| ChatWidget.ChatSession.NeedsName | src/components/ChatWidget.jsx:185 | A customer with a blank name and no customer message yet; its use is stated by SendMessage and SendSticker. |
| ChatWidget.TextSend | src/components/ChatWidget.jsx:182-222 | Ignored exactly when the text is blank and no file is pending; the name prompt exactly when a customer has no name and no earlier message; upload failure stops the send; otherwise the row holds the text and the uploaded file's path. |
| ChatWidget.ReplaceById | src/components/ChatWidget.jsx:118-121 | An update replaces exactly the messages with the same id and keeps the length and every other message. |
| ChatWidget.ReplaceByIdIdempotent | src/components/ChatWidget.jsx:118-121 | Replaying an update changes nothing further. |
| ChatWidget.ReplaceUnknownId | src/components/ChatWidget.jsx:118-121 | An update for an id the list does not hold leaves it unchanged. |
| ChatWidget.UnreadIds | src/components/ChatWidget.jsx:298-300 | The messages marked read on opening are as many as the admin badge counts. |
| ChatWidget.ChatSession.constructor | src/components/ChatWidget.jsx:27-43 | The session starts closed, with no messages, no unread, and an empty composer. |
| ChatWidget.ChatSession.RestoreSender | src/components/ChatWidget.jsx:100-105 | A customer's remembered non-empty name and email fill the sender fields; the admin's are kept. |
| ChatWidget.Remembered | src/components/ChatWidget.jsx:239-244 | A customer's non-blank trimmed name is stored, and then the trimmed email if that is not blank; otherwise, and for the admin, the storage is unchanged. |
| ChatWidget.ChatSession.RememberSender | src/components/ChatWidget.jsx:239-244 | After a customer's send the trimmed name, and the trimmed email if any, are stored. |
| ChatWidget.ChatSession.ClearComposer | src/components/ChatWidget.jsx:233-243 | After a sent message the text and the pending file are cleared and the sender is remembered. |
| ChatWidget.ChatSession.SendMessage | src/components/ChatWidget.jsx:182-248 | Follows `TextSend`: an attempt inserts exactly its row; a success clears the composer, raises no alert and stores the sender (`Remembered`); a failed insert alerts and leaves the composer and the storage as they were; the name prompt and a failed upload alert and insert nothing; the ignored send changes nothing. |
| ChatWidget.ChatSession.SendSticker | src/components/ChatWidget.jsx:250-287 | A customer who still needs a name is prompted and nothing is inserted; otherwise exactly the sticker row is inserted. A failed insert alerts and keeps the storage; a success raises no alert and stores the sender (`Remembered`). |
| ChatWidget.ChatSession.OnInsert | src/components/ChatWidget.jsx:113-117 | A realtime insert appends the message; the badge grows by one exactly when the panel is closed and the message is from the other side; every other field, the composer and the sender fields included, is kept. |
| ChatWidget.ChatSession.OnUpdate | src/components/ChatWidget.jsx:118-121 | A realtime update replaces the messages with its id; every other field, the composer and the sender fields included, is kept. |
| ChatWidget.ChatSession.RecountUnread | src/components/ChatWidget.jsx:136-141 | For the admin the badge becomes the number of unread customer messages; nothing else changes. |
| ChatWidget.ChatSession.HandleOpen | src/components/ChatWidget.jsx:289-304 | Opening clears the badge; an admin with a conversation selected marks exactly its unread customer messages read; the messages, composer and sender fields are kept. |

## Left out

- Database, realtime channel, file storage and HTTP plumbing are not modelled. Found rows, upload and insert errors, and fetch success are parameters, and writes are logs.
- `new Date()`, `Date.now()` and `Math.random` are parameters. A route that reads the clock twice is modelled with one instant.
- The great-circle distance of the tracking view is a parameter: its trigonometry over floats is not modelled.
- `toFixed`, `toLocaleString` and ISO date strings are display-only and not modelled. Times are milliseconds as `real`.
- Leaflet drawing, `requestAnimationFrame`, `setTimeout`/`setInterval` timing, `flyTo`, `fitBounds` and waypoint markers are not modelled. Each freeze scheduled for 1250 ms later is queued, and `RunFreeze` carries out the oldest.
- The route's `filter(Boolean)` on the route points is not modelled: every point is an array and so always truthy.
- React effect scheduling, re-subscription of the realtime channel, and the order in which state setters take effect are not modelled.
- The tracking endpoint `/api/tracking/{code}` is not part of this model. It is the target of the tracking read and of comment updates.
- src/lib/cities is not part of this model. Its city list is a parameter of `AdminForm.CreationForm`.
- The GET handler of src/app/api/shipments/route.js and the other routes are not modelled.
- `JsText.ToUpper`: upper-cases ASCII letters only. Other Unicode case mappings are not modelled.
- `JsText.ParseFloatString`: does not read 'Infinity'.
- `JsValues.ParseFloat` and `JsValues.ParseInt`: a list holding a number with a fractional part, or of magnitude 10^21 or more, has no string in the model (see `JsValues.PropertyKey`) and so parses as NaN, where JS would parse its spelling.
- `Creation.CreateShipment`: field values that are not strings or numbers are carried through unchanged. A JSON body that is not an object behaves as one without fields.
- `JsValues.PropertyKey`: a number with a fractional part, or of magnitude 10^21 or more, has no key in the model. As an index it reads nothing, where an object field literally named like "0.5" would be found. As a field set on an object or list element, `ProductRoutes.UpdateProduct` answers it with a 500, where JS would set a property of that name.
- `JsValues.ReadKey`: the inherited names are those of ECMAScript 2024. Getters and symbol keys are not modelled.
- `ProductRoutes.SetOn`: setting `length` of a list element from anything but a whole number is modelled as a throw, where JS would convert a numeric string or a boolean. `__proto__` as a field name would replace the element's prototype; the model stores it as a field.
- `ProductRoutes.UpdatedProducts`: setting a read-only property (`length`, `name`, a constructor's `prototype`) of an inherited method would throw in strict mode. The model lets it pass and writes the value back unchanged.
- `Cargo.SpreadFields`: a string spreads one key per character. JS uses UTF-16 code units, so a character outside the Basic Multilingual Plane would give two keys.
- `ProductRoutes.AddProduct`: a stored `products` that is truthy but not an array is modelled as an internal error (500), where `push` would throw.
- `Dashboard.AdminDashboard.LoadShipments`: the loaded data is a list of objects. A response that is not a list, or a null element, makes `data.map` or `s.products` throw; the source then logs the error and keeps the old list, which the model does not represent.
- `Dashboard.AdminDashboard.HandleProductChange`: requires the index to be a position of the shipment's list, because the rendered rows only offer those. JS would write past the end.
- `AdminForm.CreationForm.HandleProductChange`: the shallow copy in the source shares the line objects with the previous state, so the old state's line is changed too. Aliasing between successive states is not modelled.
- `AdminForm.CreationForm.RemoveProduct`: requires at least two lines, because the Remove control is rendered only then.
- `ShipmentDetails.GetStatusConfig`: a status named like an `Object.prototype` property is treated as unknown.
- `ShipmentDetails.EtaOf`: a truthy `estimated_hours` that is not a number gives an invalid arrival date. JS would coerce a numeric string such as "5" and compute a real date.
- `ChatWidget.ChatSession.SendMessage`: the catch paths that alert only 'Failed to upload file' or 'Failed to send message' when the storage or database call itself throws are not modelled.
- `ChatWidget.ChatSession.SendSticker`: the catch path that alerts only 'Failed to send sticker' is not modelled.
- `ChatWidget.ChatSession.HandleOpen`: an admin without a selected conversation reloads the conversation list and shows it. That is `ChatWidget.Summaries` over the fetched messages, and the list's visibility is not modelled.
- File previews, sticker menus, scrolling, file-size formatting and toasts are display-only and not modelled.
