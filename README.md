# Placed-sensor registry and setup screens, modelled in Dafny

This project models the persistence core of a personal safety-aid app. The app tracks
physical sensors the user has placed and the user's body dimensions.

- `Registry` (src/storage/registry.ts) keeps the ordered list of placed sensors under the
  key `placed_sensors_v1`. Loading fails open: missing, unparsable or non-array data reads
  as the empty list. Every mutation reads the list, transforms it and writes it back whole:
  add prepends, update replaces by id, remove filters by id.
- `UserSetup` (app/user_setup.tsx) holds the centimetre / feet-and-inches conversions and
  the save rule for the dimension profile. Both lengths must be positive and the belt
  must be below the height. The belt-to-head length is derived, and the calibration value
  is carried over from the previous profile.
- `SensorList` (app/sensor_list.tsx) is the screen that trims and validates names, adds,
  renames and deletes sensors, and generates ids.
- `JsText` is ECMAScript `String.prototype.trim`. `Domain` holds the records of
  src/domain/types.ts. `Wrappers` holds `Option` and `Result`.

The persisted slot is a datatype: `Absent | Unparsable | NotAnArray | Stored(list)`. The
stores and screens are classes whose fields are the state the source updates. Lengths
are Dafny `real`s.

Notes on the code:
- the profile record has no shoulder-to-fingertip length;
- `addSensor` takes a ready-made sensor and neither validates it nor makes its id;
- the add dialog saves the screen's own list with `saveSensors`; it does not call `addSensor`;
- ids are never re-checked for uniqueness (`SensorList.AddKeepsDuplicateId`);
- the profile is validated by the screen, not by a store;
- `updateSensor` replaces the whole entry carrying the id, not only its name.

## Model

| member | source | states |
|---|---|---|
| `Registry.SensorStore.Load` | src/storage/registry.ts:8-20 | returns the stored list when there is one; missing, unparsable or non-array data give the empty list and never an error |
| `Registry.SensorStore.Save` | src/storage/registry.ts:23-25 | the slot holds exactly the saved list afterwards, so a following load returns it |
| `Registry.SensorStore.Add` | src/storage/registry.ts:28-36 | result is one longer, its first entry is the new sensor, the old list follows in order, and the result is what is persisted |
| `Registry.SensorStore.Update` | src/storage/registry.ts:39-46 | same length; each entry with the updated id becomes the update and every other entry is unchanged; an unknown id leaves the list unchanged; the result is what is persisted |
| `Registry.SensorStore.Remove` | src/storage/registry.ts:48-55 | no entry with the id remains; survivors keep their order; exactly the entries with that id are dropped; an unknown id is a no-op; the result is what is persisted |
| `Registry.ReplaceById` | src/storage/registry.ts:43 | the mapped list has the length of the input |
| `Registry.RemoveById` | src/storage/registry.ts:52 | the filtered list is no longer than the input and holds only input entries whose id differs |
| `Registry.ReplaceByIdAt` | src/storage/registry.ts:42-43 | at every position, the entry is the update if the old entry's id matched, and the old entry otherwise |
| `Registry.ReplaceByIdUnknown` | src/storage/registry.ts:43 | updating an id absent from the list returns the list unchanged |
| `Registry.ReplaceByIdKeepsIds` | src/storage/registry.ts:42-43 | every position keeps its id, so distinct ids stay distinct |
| `Registry.RemoveByIdMembers` | src/storage/registry.ts:51-52 | an entry survives removal if and only if it was in the list and its id differs |
| `Registry.RemoveByIdNoneLeft` | src/storage/registry.ts:52 | no entry of the result carries the removed id |
| `Registry.RemoveByIdUnknown` | src/storage/registry.ts:52 | removing an id absent from the list returns the list unchanged |
| `Registry.RemoveByIdConcat` | src/storage/registry.ts:52 | removal from a concatenation is the concatenation of the removals, so nothing is reordered |
| `Registry.RemoveByIdOrdered` | src/storage/registry.ts:51-52 | the result is a subsequence of the input: survivors keep their relative order |
| `Registry.RemoveByIdCount` | src/storage/registry.ts:52 | the result is shorter by exactly the number of entries carrying the id |
| `Registry.RemoveByIdKeepsUnique` | src/storage/registry.ts:52 | removal keeps distinct ids distinct |
| `Registry.PrependUnique` | src/storage/registry.ts:32 | prepending keeps ids distinct if and only if they were distinct and the new id was unused |
| `JsText.TrimStart` | app/sensor_list.tsx:43 | the result is a suffix of the input that does not start with whitespace, and only whitespace was dropped |
| `JsText.TrimEnd` | app/sensor_list.tsx:43 | the result is a prefix of the input that does not end with whitespace, and only whitespace was dropped |
| `JsText.Trim` | app/sensor_list.tsx:43 | the result is an infix of the input with only whitespace around it, and it neither starts nor ends with whitespace |
| `JsText.TrimEmptyIffBlank` | app/sensor_list.tsx:43-44 | a name trims to empty if and only if it is whitespace only |
| `JsText.TrimKeepsTrimmed` | app/sensor_list.tsx:43 | a name with no whitespace at either end is left as it is |
| `JsText.TrimIdempotent` | app/sensor_list.tsx:43 | trimming twice equals trimming once |
| `SensorList.Base36Text` | app/sensor_list.tsx:10 | one base-36 character per digit value |
| `SensorList.MakeId` | app/sensor_list.tsx:9-11 | the id has at most 8 characters, all from the base-36 alphabet; it has 8 when the draw has at least 8 digits |
| `SensorList.AddKeepsDuplicateId` | app/sensor_list.tsx:46-51 | prepending a sensor whose id is already in use yields a list with a repeated id |
| `SensorList.Slice` | app/sensor_list.tsx:10 | `slice(start, end)` is the infix between the bounds, clamped to the string's end, and empty when the start is at or past the end or the bounds are reversed |
| `SensorList.SensorListScreen.constructor` | app/sensor_list.tsx:17-25 | the screen starts with an empty list, both dialogs closed, an empty name field and no sensor being edited |
| `SensorList.SensorListScreen.Mount` | app/sensor_list.tsx:28-33 | the displayed list becomes what the store loads |
| `SensorList.SensorListScreen.OpenAdd` | app/sensor_list.tsx:36-39 | the name field is cleared and the add dialog is open |
| `SensorList.SensorListScreen.ConfirmAdd` | app/sensor_list.tsx:42-55 | a blank name changes nothing; otherwise the new sensor carries the trimmed name and a generated id, comes first, the prior list follows in order, the whole list is saved and the dialog closes |
| `SensorList.SensorListScreen.OpenEdit` | app/sensor_list.tsx:58-62 | the edited sensor is remembered, its name prefilled and the edit dialog opened |
| `SensorList.SensorListScreen.ConfirmEdit` | app/sensor_list.tsx:65-77 | a blank name or no edited sensor changes nothing; otherwise the store replaces the entry with that id by a copy with the trimmed name, the list it returns is shown, every position keeps its id, and the dialog closes |
| `SensorList.SensorListScreen.ConfirmDelete` | app/sensor_list.tsx:79-95 | the store removes the sensor's id; the returned list is shown, no longer holds that id and keeps the survivors' order |
| `UserSetup.JsRound` | app/user_setup.tsx:12 | `Math.round` gives the integer n with x - 0.5 < n <= x + 0.5 |
| `UserSetup.JsTrunc` | app/user_setup.tsx:12 | the integer part, towards zero |
| `UserSetup.JsRem` | app/user_setup.tsx:12 | `%` is the remainder of truncating division; for a non-negative dividend it lies in [0, divisor) |
| `UserSetup.CmToFeetInches` | app/user_setup.tsx:9-14 | for non-negative cm: feet is the number of whole feet in the length (floor of inches / 12, so >= 0), inches lies in 0..12, and 12 feet + inches is within half an inch of the length; together these fix both values |
| `UserSetup.FeetInchesToCm` | app/user_setup.tsx:16-18 | the result divided by 2.54 is exactly 12 feet + inches, and it is positive exactly when that sum is |
| `UserSetup.FeetInchesRoundTrip` | app/user_setup.tsx:9-18 | whole feet and whole inches below 12 convert to cm and back unchanged |
| `UserSetup.InchesReachTwelveBelowEachFoot` | app/user_setup.tsx:11-13 | every length within half an inch below a whole foot shows as 12 inches, not carried into the feet |
| `UserSetup.InchesTwelveAt3033` | app/user_setup.tsx:9-13 | 30.33 cm shows as 0 feet 12 inches |
| `UserSetup.CheckedProfile` | app/user_setup.tsx:96-111 | a save is accepted if and only if 0 < belt < height; the non-positive alert comes before the belt alert; an accepted profile keeps both lengths, has belt-to-head = height - belt > 0, and carries the previous calibration value (absent without a previous profile) |
| `UserSetup.UnparsableEntryRejected` | app/user_setup.tsx:85-99 | a length whose text fields all fail to parse reads as 0, and the save is rejected as not positive |
| `UserSetup.OrZero` | app/user_setup.tsx:85-91 | a field read as `parseFloat(text)`, with 0 in place of a falsy result, is 0 exactly when the field does not parse or parses to 0, and otherwise is the parsed number |
| `UserSetup.EnteredHeightCm` | app/user_setup.tsx:84-94 | in metric the height is the metric field (0 if unparsable); otherwise it is the length whose inch count is 12 feet + inches of the imperial fields |
| `UserSetup.EnteredBeltCm` | app/user_setup.tsx:84-94 | the same for the ground-to-belt length |
| `UserSetup.Prefilled` | app/user_setup.tsx:48-61 | the edit prefill sets only the chosen unit's fields and keeps the other unit's fields |
| `UserSetup.PrefillRoundsLengths` | app/user_setup.tsx:48-61 | saving the prefilled form unchanged reads back each length within the prefill's rounding: half a centimetre in metric, half an inch in feet and inches |
| `UserSetup.MetricPrefillOf1754` | app/user_setup.tsx:51 | a stored height of 175.4 cm reads back from the metric prefill as 175 cm |
| `UserSetup.UserSetupScreen.constructor` | app/user_setup.tsx:22-34 | the screen starts with no profile, out of edit mode, in imperial units, with every field empty |
| `UserSetup.UserSetupScreen.Mount` | app/user_setup.tsx:37-45 | the screen shows the stored profile and enters edit mode when there is none |
| `UserSetup.UserSetupScreen.StartEdit` | app/user_setup.tsx:48-63 | with a profile shown, the form holds its prefill; without one the fields are kept; either way edit mode is entered |
| `UserSetup.UserSetupScreen.CancelEdit` | app/user_setup.tsx:66-77 | edit mode is left only when a profile is shown, and every field is cleared |
| `UserSetup.UserSetupScreen.SaveDimensions` | app/user_setup.tsx:80-116 | a rejected save raises its alert and leaves storage, the shown profile and edit mode untouched; an accepted one stores and shows the checked profile and leaves edit mode; storage only ever receives a consistent profile |

## Left out

- Rendering, styling, modals, navigation and the plumbing of React state (app/index.tsx, app/_layout.tsx and the JSX of both screens) carry no behaviour and are not modelled. Typing into a text field is not an operation here; the field is assigned directly.
- The key-value engine and JSON text are abstracted into the `Slot` datatype. The entries of a parsed array are taken to be sensors; the source casts them without checking their shape.
- A failing storage read or write is not modelled. In the source, a rejected promise propagates to the caller.
- Concurrent, interleaved read-modify-write calls are not modelled. Each operation runs to completion before the next.
- `Math.random` is not modelled: `makeId` receives the base-36 digits of the random draw as a parameter.
- IEEE floating point is idealised as exact reals. For example, 2.54 and the divisions are exact in the model, so the round-trip lemma holds for reals and not for binary doubles.
- `parseFloat` text parsing is not modelled. Each field is given as the number it parses to, or as absent where the parse yields NaN. Infinity is not modelled.
- `loadUserDimensions` and `saveUserDimensions` are not part of this model: src/storage/registry.ts does not define them. The profile record is an abstract `ProfileSlot` holding an optional profile.
- `formatValue` only formats a length for display, and `handleConfigure` only shows a placeholder alert about calibration. Neither is modelled.
- The Cancel answer of the delete alert does nothing and is not modelled.
