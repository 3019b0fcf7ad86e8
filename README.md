# ParkSpot navigation and history view-models in Dafny

This project models the logic behind two screens of the ParkSpot Android app.

- **Navigation.** `NavigationViewModel` holds the state the screen renders. That is a loading flag, the distance and bearing to the parked car, the compass heading, the location accuracy, a photo flag and an optional error. It also holds the parking spot's location as the target. Each event changes it in a fixed way: the outcome of looking up the spot, a location sample, a compass sample, a stream error, dismissing the error, stopping. The model is the class `Navigation.NavigationViewModel`. It has one method per event, and each method's contract lists every field it changes and says the rest are kept. The class invariant is that, over exact reals, the state always shows a non-negative distance and a bearing in [0, 360). It holds because the bearing normalisation `(b + 360) % 360` maps every angle from -360 on, and so every `atan2` angle in [-180, 180], into [0, 360).
- **Navigation screen helpers.** These are pure functions in module `NavigationScreen`. They cover the distance headline and its unit caption, the cardinal letter for a heading (including the heading values for which the source's array lookup throws), the accuracy grade and its colour, and the arrow rotation.
- **History.** `HistoryViewModel` shows the stored parking sessions newest first. It asks the repository to delete one session or all of them. The model is the class `History.HistoryViewModel`. The sort is an insertion sort on sequences. It is proved to be a permutation of its input, ordered by start time from newest to oldest, and stable for equal start times, as Kotlin's `sortedByDescending` is. The class invariant is that the list on screen is newest first. "Clear all" is a loop that issues one delete per session of the current list, in list order, stopping after the first delete that throws.

The app's collaborators are outside the model: the parking repository, the location and compass sources, and coroutine jobs. Navigation logs every call it makes into them, in order, in `sourceCalls`. History logs only its delete calls, in order, in `deleteCalls`; the session subscription it opens when it is created is not recorded. Each answer those collaborators give is an argument of the method that reacts to it, and that includes failures. The Haversine distance and the `atan2` bearing are passed to the navigation view-model's constructor as function values. The model assumes only their ranges: a distance is never negative, and `atan2` in degrees lies in [-180, 180].

Numbers are exact `real`s and unbounded `int`s. Module `Numerics` writes out the JVM operations the view-models and screens rely on:
- `%` on doubles, whose result takes the sign of the dividend (the model only ever divides by 360);
- `%` on `Int`, which truncates (the model only ever divides by 8);
- `Float.toInt()`, which truncates toward zero and saturates at the `Int` range;
- `Float.roundToInt()`, which rounds ties up and saturates at the `Int` range.

Three behaviours of the code worth knowing:
- `startNavigation` cancels only the job that looks up the spot. The location and compass collectors run in the view-model's own scope, so they keep running. The target does not change until the new spot is found, so a sample that arrives in between is still measured against the old target (`StartNavigation` keeps `targetLocation`).
- `stopNavigation` asks both sensors to stop. It does not clear the target or the state.
- A spot lookup that emits more than once starts one more pair of location and compass collectors on each emission. `OnParkingSpotFound` records the two start calls each time it runs.

## Model

| member | source | states |
|---|---|---|
| `Navigation.NormalizeBearing` | app/src/main/java/com/parkspot/app/presentation/navigation/NavigationViewModel.kt:179 | `(b + 360) % 360` with the JVM double remainder lies in [0, 360) for every angle from -360 on, and in (-360, 0] below that |
| `Navigation.NormalizeBearingRange` | app/src/main/java/com/parkspot/app/presentation/navigation/NavigationViewModel.kt:178-179 | for every angle in [-360, 360), which contains the `atan2` range [-180, 180], the result lies in [0, 360); negative angles become `b + 360` and the others are kept |
| `Navigation.NormalizeBearingNeedsRange` | app/src/main/java/com/parkspot/app/presentation/navigation/NavigationViewModel.kt:179 | an angle in (-720, -360) normalises to the negative `b + 360`, not into [0, 360), because the JVM remainder keeps the dividend's sign |
| `Navigation.CalculateBearing` | app/src/main/java/com/parkspot/app/presentation/navigation/NavigationViewModel.kt:164-182 | the bearing is a compass angle in [0, 360): the raw `atan2` angle if it is non-negative, otherwise that angle plus 360 |
| `Navigation.NavigationViewModel.constructor` | app/src/main/java/com/parkspot/app/presentation/navigation/NavigationViewModel.kt:16-37 | starts loading, with zero distance, bearing, heading and accuracy, no photo, no error, no target, no job and no calls made |
| `Navigation.NavigationViewModel.StartNavigation` | app/src/main/java/com/parkspot/app/presentation/navigation/NavigationViewModel.kt:39-44 | cancels the previous job only if one exists, launches a job for this spot id and asks the repository for the spot; the state and the target are unchanged |
| `Navigation.NavigationViewModel.OnParkingSpotFound` | app/src/main/java/com/parkspot/app/presentation/navigation/NavigationViewModel.kt:45-57 | the spot's location becomes the target, loading ends, `hasPhoto` is true exactly when the spot has a photo URI, location and then compass updates are started; distance, bearing, heading, accuracy and error are untouched |
| `Navigation.NavigationViewModel.OnParkingSpotMissing` | app/src/main/java/com/parkspot/app/presentation/navigation/NavigationViewModel.kt:58-63 | loading ends with the error "Parking spot not found"; the target is unchanged and no updates start |
| `Navigation.NavigationViewModel.OnLoadFailed` | app/src/main/java/com/parkspot/app/presentation/navigation/NavigationViewModel.kt:65-69 | loading ends with the error "Failed to load navigation: " followed by the exception message; nothing else changes |
| `Navigation.NavigationViewModel.OnLocationUpdate` | app/src/main/java/com/parkspot/app/presentation/navigation/NavigationViewModel.kt:82-106 | without a target the state is unchanged; with one, only distance, bearing and accuracy change, computed from this sample and the target; loading, photo, heading and error are kept, and the bearing stays in [0, 360) |
| `Navigation.NavigationViewModel.OnLocationError` | app/src/main/java/com/parkspot/app/presentation/navigation/NavigationViewModel.kt:77-81 | only the error changes, to "Location error: " followed by the message; the last distance, bearing and heading persist |
| `Navigation.NavigationViewModel.OnCompassHeading` | app/src/main/java/com/parkspot/app/presentation/navigation/NavigationViewModel.kt:118-122 | only the compass heading changes, whether or not a target is set |
| `Navigation.NavigationViewModel.OnCompassError` | app/src/main/java/com/parkspot/app/presentation/navigation/NavigationViewModel.kt:113-117 | only the error changes, to "Compass error: " followed by the message |
| `Navigation.NavigationViewModel.StopNavigation` | app/src/main/java/com/parkspot/app/presentation/navigation/NavigationViewModel.kt:126-130 | cancels the job only if one exists and always asks the location source and then the compass source to stop; target and state are kept, so repeated calls are harmless |
| `Navigation.NavigationViewModel.ClearError` | app/src/main/java/com/parkspot/app/presentation/navigation/NavigationViewModel.kt:132-134 | the error becomes absent and nothing else changes |
| `Navigation.NavigationViewModel.OnCleared` | app/src/main/java/com/parkspot/app/presentation/navigation/NavigationViewModel.kt:184-187 | clearing the view-model stops navigation once more, with the same effect as a stop, even when the screen already stopped it |
| `NavigationScreen.FormatDistance` | app/src/main/java/com/parkspot/app/presentation/navigation/NavigationScreen.kt:279-285 | the metres form is used exactly when the distance is below 1000; it is within half a metre of the distance and lies in [0, 1000] for distances in [0, 1000); otherwise the kilometre figure is within half a tenth of `meters / 1000` and at least 1.0 |
| `NavigationScreen.DistanceUnitLabel` | app/src/main/java/com/parkspot/app/presentation/navigation/NavigationScreen.kt:87 | the caption reads "meters away" exactly when the headline uses metres and "kilometers away" exactly when it uses kilometres |
| `NavigationScreen.JustUnderAKilometreShowsThousandMetres` | app/src/main/java/com/parkspot/app/presentation/navigation/NavigationScreen.kt:279-281 | the threshold applies to the unrounded distance, so 999.5 m is shown as "1000" with the caption "meters away" |
| `NavigationScreen.CardinalIndex` | app/src/main/java/com/parkspot/app/presentation/navigation/NavigationScreen.kt:289 | `trunc((h + 22.5) / 45) % 8`, with `Int` truncation and the truncating remainder, always lies in (-8, 8) |
| `NavigationScreen.CardinalDirection` | app/src/main/java/com/parkspot/app/presentation/navigation/NavigationScreen.kt:287-291 | a returned direction is one of the eight letters; there is none exactly where the index is negative and the source's array lookup throws, which can only happen at headings of -67.5 or below |
| `NavigationScreen.CardinalDirectionDefinedOnCompassRange` | app/src/main/java/com/parkspot/app/presentation/navigation/NavigationScreen.kt:287-290 | for every heading in [0, 360) the index lies in [0, 8), so the array access is safe |
| `NavigationScreen.CardinalSector` | app/src/main/java/com/parkspot/app/presentation/navigation/NavigationScreen.kt:288-290 | every heading in the 45-degree sector centred on k·45, including [-22.5, 0) for north, is named `directions[k]` |
| `NavigationScreen.NorthWrapsAround` | app/src/main/java/com/parkspot/app/presentation/navigation/NavigationScreen.kt:288-290 | headings in [0, 22.5) and in [337.5, 360) both read "N" |
| `NavigationScreen.NegativeHeadings` | app/src/main/java/com/parkspot/app/presentation/navigation/NavigationScreen.kt:289-290 | headings in (-67.5, 0) read "N"; for headings in (-382.5, -67.5] the index is negative and the lookup fails |
| `NavigationScreen.AccuracyLevelOf` | app/src/main/java/com/parkspot/app/presentation/navigation/NavigationScreen.kt:193-198 | the grade is Excellent below 10, Good in [10, 30), Fair in [30, 50) and Poor from 50, each exactly; every boundary goes to the worse grade |
| `NavigationScreen.AccuracyColour` | app/src/main/java/com/parkspot/app/presentation/navigation/NavigationScreen.kt:193-205 | the colour classification uses the same thresholds as the grade, so the colour is always the one that belongs to the grade |
| `NavigationScreen.AccuracyLevelMonotone` | app/src/main/java/com/parkspot/app/presentation/navigation/NavigationScreen.kt:193-198 | a larger accuracy radius never yields a better grade |
| `NavigationScreen.ArrowRotation` | app/src/main/java/com/parkspot/app/presentation/navigation/NavigationScreen.kt:112 | with bearing and heading in [0, 360), the unwrapped rotation `bearing - heading` lies in (-360, 360) |
| `NavigationScreen.ArrowRotationNotShortestTurn` | app/src/main/java/com/parkspot/app/presentation/navigation/NavigationScreen.kt:112 | the rotation is not wrapped to the shorter turn: bearing 350 with heading 10 gives 340 |
| `History.HistoryViewModel.constructor` | app/src/main/java/com/parkspot/app/presentation/history/HistoryViewModel.kt:12-23 | the initial list is empty, loading is on, there is no error and nothing has been deleted; the newest-first invariant holds |
| `History.SessionIds` | app/src/main/java/com/parkspot/app/presentation/history/HistoryViewModel.kt:73-74 | the ids handed to the delete calls: one per session, at the same position as the session |
| `History.InsertByStartTime` | app/src/main/java/com/parkspot/app/presentation/history/HistoryViewModel.kt:42-44 | one insertion step of the sort: the result holds the sessions of the list plus the inserted one, nothing else |
| `History.SortedByStartTimeDescending` | app/src/main/java/com/parkspot/app/presentation/history/HistoryViewModel.kt:42-44 | the sorted list is a permutation of the emitted one |
| `History.SortIsNewestFirst` | app/src/main/java/com/parkspot/app/presentation/history/HistoryViewModel.kt:42-44 | the sorted list has non-increasing start times |
| `History.SortIsStable` | app/src/main/java/com/parkspot/app/presentation/history/HistoryViewModel.kt:42-44 | sessions with the same start time keep their emitted order |
| `History.HistoryViewModel.OnSessionsEmitted` | app/src/main/java/com/parkspot/app/presentation/history/HistoryViewModel.kt:40-48 | after each emission the list is a permutation of the emitted list, newest first and stable; loading is off and the error is cleared |
| `History.HistoryViewModel.OnLoadFailed` | app/src/main/java/com/parkspot/app/presentation/history/HistoryViewModel.kt:34-54 | a load failure turns loading off and sets the error to "Failed to load history: " followed by the message; the list is kept |
| `History.HistoryViewModel.DeleteSession` | app/src/main/java/com/parkspot/app/presentation/history/HistoryViewModel.kt:58-68 | exactly one delete call for the id; if it throws, only the error changes, to "Failed to delete session: " followed by the message |
| `History.HistoryViewModel.ClearAllHistory` | app/src/main/java/com/parkspot/app/presentation/history/HistoryViewModel.kt:70-82 | the delete calls are the ids of the current list, in list order, each once, up to and including a call that throws; a failure only sets the error to "Failed to clear history: " followed by the message; the list is not modified |
| `History.HistoryViewModel.ClearError` | app/src/main/java/com/parkspot/app/presentation/history/HistoryViewModel.kt:84-86 | the error becomes absent and nothing else changes |
| `Numerics.FloatRem360` | app/src/main/java/com/parkspot/app/presentation/navigation/NavigationViewModel.kt:179 | the JVM double `% 360` differs from the dividend by a whole multiple of 360; it lies in [0, 360) for a non-negative dividend and in (-360, 0] for a non-positive one, keeps a dividend in [0, 360) and subtracts 360 from one in [360, 720) |
| `Numerics.IntRem8` | app/src/main/java/com/parkspot/app/presentation/navigation/NavigationScreen.kt:289 | the JVM `Int` remainder by 8 is congruent to the dividend modulo 8, lies in [0, 8) for a non-negative dividend and in (-8, 0] for a negative one |
| `Numerics.FloatToInt` | app/src/main/java/com/parkspot/app/presentation/navigation/NavigationScreen.kt:289 | `Float.toInt()` saturates to `Int.MAX_VALUE` / `Int.MIN_VALUE` at and beyond the `Int` range and, inside it, is the integer next to the value on the side of zero |
| `Numerics.RoundToInt` | app/src/main/java/com/parkspot/app/presentation/navigation/NavigationScreen.kt:281 | `roundToInt()` saturates to `Int.MAX_VALUE` from `Int.MAX_VALUE` up and to `Int.MIN_VALUE` below `Int.MIN_VALUE`; inside the range it is within half of the value, ties going up |

## Left out

- Trigonometry: the sines, cosines, square roots and `atan2` of the Haversine distance and of the initial bearing (NavigationViewModel.kt:140-177) are function values. The model assumes only that a distance is non-negative and that `atan2` in degrees lies in [-180, 180].
- Floating point: values are exact reals. The model does not capture the `Float`/`Double` rounding of `toFloat()`, `toRadians`/`toDegrees`, NaN or infinities. In particular, `toFloat()` of a bearing just below 360 can round to 360.0f, which the exact-real invariant does not see.
- `NavigationScreen.FormatDistance`: gives the numbers the formatter prints, not the strings. The kilometre figure assumes `%.1f` rounds half up on the exact value. The model does not capture binary floating-point representation or the locale's decimal separator.
- The accuracy badge text `"<grade> (±<n>m)"` and the `"<n>°"` heading text are rendering only. Their grades and rounding are modelled through `AccuracyLevelOf` and `RoundToInt`.
- Navigation.NavigationViewModel.StartNavigation, Navigation.NavigationViewModel.StopNavigation: the model does not capture that cancelling a spot lookup that is still collecting raises a cancellation exception inside the job. That exception is caught by the job's own `catch (e: Exception)` (NavigationViewModel.kt:65-69), so a stop or a restart can end loading and set the error "Failed to load navigation: " followed by the cancellation message. A later `OnParkingSpotFound` does not clear that error. Whether it happens depends on the repository's flow, which is not part of this model. The model admits the sequence only as an `OnLoadFailed` event after the cancel.
- Coroutines and flows: `viewModelScope.launch`, `Job.cancel`, `collect`, `catch`, and the interleaving of the location and compass streams are not modelled. Each reaction is one atomic method call. A cancelled job is recorded but nothing stops its events from being delivered.
- The repository and the location and compass sources are not part of this model. Their answers and failures are method arguments. Each navigation call to them and each history delete call is a logged event; the history view-model's subscription to the session list (HistoryViewModel.kt:26-33) is not logged. Their own behaviour, such as a re-emission after a delete, is not modelled.
- An exception message that is `null` prints as "null" in the source. The model takes the message as a string.
- Compose UI: layout, theming, the snackbar, the loading overlay, the compass rose and the arrow's drawing and animation are not modelled. The settings screen and its view-model, and the history screen's date grouping, are not part of this model.
- `ParkingSession`, `ParkingSpot` and `Location` carry only the fields the view-models read. `startTime` is an integer timestamp that keeps the order of the source's date-times.
