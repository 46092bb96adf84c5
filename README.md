# MicroNav core, modelled in Dafny

MicroNav runs on a Raspberry Pi in a car. It reads an L76K GPS module, follows a
turn-by-turn route it receives over MQTT, watches the Wi-Fi connection, and
ships a speed-camera data cleaner. This project models the four parts that hold
real logic, and proves properties of each:

- **`Gps`** (`gps.dfy`) models the NMEA 0183 decoder of `gps_controller.py`:
  - the checksum (an XOR of the characters between `$` and `*`, written as two upper-case hex digits);
  - the conversion of `DDMM.MMMM` / `DDDMM.MMMM` coordinates to signed degrees;
  - the GGA, RMC, GLL and VTG handlers with both GP and GN talkers;
  - the sentence dispatcher and its counters, and the CONNECTED → FIXING → FIXED status machine.

  A pure `Decoder` snapshot and transition functions (`GgaStep`, `Step`, `Run`)
  say what one sentence does. The class `GpsController` keeps the same state in
  fields, and each of its methods is proved to perform exactly that transition.
  The status and position callbacks are recorded, in order, in the
  `notifications` field.
- **`Routes`** (`routes.dfy`) models the `RouteManager` of `route_manager.py`:
  - installing and clearing a route;
  - matching the position to the closest step, with anchor fallbacks, a 1.5× penalty for misaligned steps, lowest-index tie-break and time throttling;
  - the distance left to the current step;
  - the distance to the route polyline (clamped projection per segment, minimum over segments);
  - the warning and recalculation thresholds;
  - the guards and counters of a recalculation;
  - the conversion of a directions-provider reply into the route message format.
- **`Wifi`** (`wifi.dfy`) models three parts of `wifi_monitor.py`:
  - the parser for `nmcli -t` scan output;
  - the choice of the configured network to join (first match per configured SSID, ordered by priority then signal, stable sort);
  - the connection name derived from an SSID.
- **`CleanNodes`** (`clean_nodes.dfy`) models `clean_nodes` of `speedcams/clean_nodes.py`, a whitelist filter over a JSON tree.

Helper modules:

- `Options` (`options.dfy`) holds an `Option` type.
- `Text` (`pytext.dfy`) holds the Python string operations the code uses: `split`, `strip`, `isdigit`, `int()`, `float()` on decimals, `upper`, `replace`, `zfill`, `hex`.
- `Geo` (`geo.dfy`) holds points. It also holds `Metric`, the distance function as a parameter constrained to be non-negative. It stands for `calculate_distance`, a haversine whose trigonometry is not modelled.

The clock is a `now` parameter wherever the code reads `time.time()` or
`datetime.now()`. The serial port's outcome, the scan output and the
directions-provider reply are likewise inputs (`ConnectOutcome`, a string,
`ProviderOutcome`).

In these places the model follows the code as written:

- RMC speed is stored as read, in knots (`gps_controller.py:362`).
- FIXED never reverts to FIXING when a GGA later reports fix quality 0 (`gps_controller.py:312-321`).
- The checksum check in `_process_nmea_sentence` is commented out (`gps_controller.py:197-200`). The controller's `strictChecksum` flag chooses between that behaviour (`false`) and the commented-out check (`true`).
- `recalculate_route` returns the new route and passes it to the `on_route_recalculated` callback. It does not install the route with `set_route`; steps, current step and current route stay as they were.
- A converted step with no geometry of its own ends at the next step's maneuver location. Only the last step falls back to its own location. No step ever falls back to the previous step's location.

## Model

| member | source | states |
|---|---|---|
| `Gps.VerifyChecksum` | micronav-assets/gps_controller.py:230-252 | The XOR loop is proved to compute `XorAll`. The verdict is exactly `ChecksumValid`: a `*` is present, the sentence splits on `*` into two pieces, and the hex of the XOR of the first piece after its first character equals the upper-cased second piece. |
| `Gps.ChecksumValidMeaning` | micronav-assets/gps_controller.py:240-250 | Accepted if and only if the sentence has exactly one `*` and the two-digit upper-case hex XOR of the text between `$` and `*` equals the text after `*`, upper-cased. |
| `Gps.ChecksumNeedsOneStar` | micronav-assets/gps_controller.py:241-244 | A sentence with no `*`, or with two or more, is rejected. |
| `Gps.ChecksumAccepted` | micronav-assets/gps_controller.py:240-250 | Round trip: `$body*` followed by the checksum of `body` is always accepted. |
| `Gps.Coordinate` | micronav-assets/gps_controller.py:284-299 | A coordinate decodes exactly when both `float()` calls (degrees prefix, minutes suffix) succeed. That needs more characters than the degree width. |
| `Gps.LatitudeValue` | micronav-assets/gps_controller.py:284-289 | Latitude is two digits of degrees plus minutes/60, negated for `S`. |
| `Gps.LongitudeValue` | micronav-assets/gps_controller.py:294-299 | Longitude is three digits of degrees plus minutes/60, negated for `W`. |
| `Gps.OptionalCoordinate` | micronav-assets/gps_controller.py:344-359 | An RMC/GLL coordinate is left alone exactly when its value or hemisphere field is empty. |
| `Gps.DecodeGga` | micronav-assets/gps_controller.py:257-299 | Fewer than 15 fields decode to nothing, so the handler changes nothing. With any of fields 2–5 empty the fix is placed at (0, 0). |
| `Gps.GgaFieldsRead` | micronav-assets/gps_controller.py:264-299 | A GGA assembled from fields decodes back to them: fix quality and satellites as integers, HDOP and altitude as decimals, and the coordinates by the degrees-and-minutes rule. |
| `Gps.DecodeRmc` | micronav-assets/gps_controller.py:331-365 | Fewer than 12 fields, or a status other than `A`, decode to nothing. A decoded RMC never carries a malformed coordinate. |
| `Gps.DecodeGll` | micronav-assets/gps_controller.py:385-412 | Fewer than 7 fields, or a status other than `A`, decode to nothing. A decoded GLL never carries a malformed coordinate. |
| `Gps.DecodeVtg` | micronav-assets/gps_controller.py:430-435 | Fewer than 10 fields decode to nothing. |
| `Gps.RmcEffect` | micronav-assets/gps_controller.py:331-377 | For every sentence: fewer than 12 fields or a status other than `A` change nothing. An RMC decodes exactly when speed, course and both present coordinates read. A decoded RMC sets the coordinates it carries (an absent one is kept), speed and course as read, `is_valid`, and `last_update`, and notifies the position; status and counters stay. |
| `Gps.RmcFieldsRead` | micronav-assets/gps_controller.py:331-365 | An RMC assembled from fields decodes back to both coordinates, the speed and the course. |
| `Gps.GllEffect` | micronav-assets/gps_controller.py:385-422 | For every sentence: fewer than 7 fields or a status other than `A` change nothing. A GLL decodes exactly when both present coordinates read. A decoded GLL sets the coordinates it carries, `is_valid` and `last_update`, and notifies the position; nothing else changes. |
| `Gps.GllFieldsRead` | micronav-assets/gps_controller.py:385-412 | A GLL assembled from fields decodes back to both coordinates. |
| `Gps.VtgEffect` | micronav-assets/gps_controller.py:430-439 | For every sentence: fewer than 10 fields or an unreadable speed change nothing. Otherwise the decoder is unchanged except the speed, which becomes field 7 ÷ 3.6, and one position notification. |
| `Gps.VtgFieldsRead` | micronav-assets/gps_controller.py:430-435 | A VTG assembled from fields decodes back to the km/h speed of field 7. |
| `Gps.CountReceived` | micronav-assets/gps_controller.py:215 | `sentences_received` grows by one; nothing else changes. |
| `Gps.CountValid` | micronav-assets/gps_controller.py:220 | `valid_sentences` grows by one; nothing else changes. |
| `Gps.UnframedLineDropped` | micronav-assets/gps_controller.py:203-209 | A line without a leading `$`, or without a `*` after it, changes nothing. |
| `Gps.CountersCountDispatched` | micronav-assets/gps_controller.py:211-225 | Only the eight GP/GN GGA/RMC/GLL/VTG commands reach a handler. Both counters grow by exactly one for those and stay put otherwise, and an undispatched sentence changes nothing at all. |
| `Gps.HandleKeepsCounters` | micronav-assets/gps_controller.py:254-442 | No handler touches the sentence counters or `fix_attempts`. |
| `Gps.StrictRejectsBadChecksum` | micronav-assets/gps_controller.py:197-200 | With the checksum check on, a sentence whose checksum fails changes nothing. |
| `Gps.GgaValidity` | micronav-assets/gps_controller.py:301-309 | After a decoded GGA, `is_valid` and `has_fix` both hold exactly when fix quality is positive, and `last_update` is the current time. |
| `Gps.GgaNotifiesOnChange` | micronav-assets/gps_controller.py:312-321 | The status callback fires exactly when the status changes. |
| `Gps.StatusTransitions` | micronav-assets/gps_controller.py:312-321 | One sentence leaves the status alone, sets FIXED, or moves CONNECTED to FIXING. FIXED is never left. |
| `Gps.FixedIsSticky` | micronav-assets/gps_controller.py:312-321 | Over any stream of sentences FIXED stays FIXED. |
| `Gps.CountersInLockstep` | micronav-assets/gps_controller.py:214-220 | Over any stream, `valid_sentences − sentences_received` is constant and `sentences_received` never drops. |
| `Gps.RmcValidWithoutFixQuality` | micronav-assets/gps_controller.py:367-375 | For every decoder with fix quality 0 and every RMC sentence that decodes (status `A`), the position becomes valid while fix quality stays 0, so `has_fix` is false on a valid position. |
| `Gps.GpsController.constructor` | micronav-assets/gps_controller.py:50-92 | The controller starts DISCONNECTED with a zero, invalid position, zero counters and no updates. |
| `Gps.GpsController.Connect` | micronav-assets/gps_controller.py:94-133 | Succeeds exactly when the port opened, giving CONNECTED and a start time. A port that did not open changes nothing, and an exception gives ERROR. |
| `Gps.GpsController.Disconnect` | micronav-assets/gps_controller.py:135-148 | The status becomes DISCONNECTED. |
| `Gps.GpsController.ProcessNmeaSentence` | micronav-assets/gps_controller.py:185-228 | The new state is `Step` of the old: checksum gate when strict, `$` and `*` framing, command lookup, dispatch. |
| `Gps.GpsController.Dispatch` | micronav-assets/gps_controller.py:214-221 | A recognised sentence is counted as received, handled, then counted as valid. |
| `Gps.GpsController.HandleSentence` | micronav-assets/gps_controller.py:593-604 | The handler table sends each kind to its own parser. |
| `Gps.GpsController.ParseGga` | micronav-assets/gps_controller.py:254-326 | The fields are updated in place exactly as `GgaStep` says: position, `last_update`, status, `last_fix_time`, then status and position callbacks in that order. |
| `Gps.GpsController.ParseRmc` | micronav-assets/gps_controller.py:328-380 | The fields are updated in place exactly as `RmcStep` says. |
| `Gps.GpsController.ParseGll` | micronav-assets/gps_controller.py:382-425 | The fields are updated in place exactly as `GllStep` says. |
| `Gps.GpsController.ParseVtg` | micronav-assets/gps_controller.py:427-442 | Only the speed changes, to km/h ÷ 3.6. `last_update` is untouched. |
| `Gps.GpsController.HasFix` | micronav-assets/gps_controller.py:532-541 | `has_fix` holds exactly for FIXED with a valid position of positive fix quality. |
| `Gps.GpsController.GetPosition` | micronav-assets/gps_controller.py:460-479 | Returns a field-for-field copy of the position. |
| `Routes.TruncToInt` | micronav-assets/route_manager.py:197 | `int()` of a float truncates toward zero. |
| `Routes.RoundHalfEven` | micronav-assets/route_manager.py:883-884 | `round()` gives an integer within 0.5, and an exact half goes to the even neighbour. |
| `Routes.RoundHalfEvenUnique` | micronav-assets/route_manager.py:906-907 | Those two conditions determine the rounded value uniquely. |
| `Routes.MakeStep` | micronav-assets/route_manager.py:193-202 | A stored step keeps its index, its coordinates, and its maneuver's bearing. |
| `Routes.MatchingAnchor` | micronav-assets/route_manager.py:304-345 | Matching measures from `start`, else `end`, else the first geometry point. An anchor is taken only when its latitude is truthy, and rejected when either coordinate is 0. |
| `Routes.RemainingAnchor` | micronav-assets/route_manager.py:433-466 | Remaining distance measures to `end`, else the last geometry point, else `start`, with the same rejections. |
| `Routes.BearingDifferenceRange` | micronav-assets/route_manager.py:361-363 | For headings in [0, 360] the folded course/bearing difference lies in [0, 180] and is symmetric. |
| `Routes.Penalized` | micronav-assets/route_manager.py:359-367 | A step's distance is multiplied by 1.5 exactly when course and bearing are both non-zero and more than 90° apart; otherwise it is unchanged. |
| `Routes.StepCost` | micronav-assets/route_manager.py:340-367 | A step has a cost exactly when it has a usable anchor. The cost lies between the distance and 1.5× the distance. |
| `Routes.ClosestAmongIsBest` | micronav-assets/route_manager.py:297-372 | The matching loop finds nothing exactly when no step has an anchor. Otherwise it finds a step of least cost that is strictly cheaper than every earlier one, so the lowest index wins ties. |
| `Routes.BestIsUnique` | micronav-assets/route_manager.py:369-372 | The strict comparison makes the chosen step unique. |
| `Routes.FindClosestStep` | micronav-assets/route_manager.py:292-372 | The `closest_*` loop computes `Closest`, with the property above. |
| `Routes.ClampedParameter` | micronav-assets/route_manager.py:583-591 | The projection parameter is clamped to [0, 1]: 0 behind the start, 1 beyond the end. |
| `Routes.NearestParameter` | micronav-assets/route_manager.py:553-591 | The parameter lies in [0, 1]. It is 0.5 (the midpoint) for a segment under 10 m; otherwise 0 (the start) for a zero-length segment, and the clamped projection for any other. |
| `Routes.PointToSegmentDistance` | micronav-assets/route_manager.py:523-600 | The value is the non-negative distance to the point of the segment at that parameter. |
| `Routes.ClampsToStart` | micronav-assets/route_manager.py:588-598 | A point behind the start of a segment of 10 m or more is measured to the start. |
| `Routes.ClampsToEnd` | micronav-assets/route_manager.py:588-598 | A point beyond the end of a segment of 10 m or more is measured to the end. |
| `Routes.SegmentsMin` | micronav-assets/route_manager.py:502-514 | A lower bound of every segment's distance that is attained by one of them. |
| `Routes.RouteDistance` | micronav-assets/route_manager.py:492-517 | The value is 0.0 with fewer than two points or an invalid fix; otherwise it is the minimum over consecutive segments. |
| `Routes.MinSegmentDistance` | micronav-assets/route_manager.py:499-517 | The `min_distance` loop computes that minimum. |
| `Routes.CountCheck` | micronav-assets/route_manager.py:516 | `deviation_checks` grows by one exactly when counted; nothing else changes. |
| `Routes.Assess` | micronav-assets/route_manager.py:644-653 | One `warnings` per new excursion (deviated after no deviation or one below the warning threshold). One `recalculate_requests` per deviated reading above the recalculation threshold. |
| `Routes.OneWarningPerExcursion` | micronav-assets/route_manager.py:640-648 | With a non-negative warning threshold, a run of deviated readings starting from no deviation is warned about once. |
| `Routes.StaysWarned` | micronav-assets/route_manager.py:645-648 | Once deviated, further deviated readings add no warning. |
| `Routes.ToPoints` | micronav-assets/route_manager.py:909 | `[lon, lat]` pairs become `lat`/`lng` points, in order. |
| `Routes.ConvertStep` | micronav-assets/route_manager.py:858-896 | Start is the first geometry point, else the step's maneuver location. End is the last geometry point, else the next step's location, else (last step) its own. The geometry is flipped to lat/lng, the icon is empty, and the bearing is `bearing_after`. |
| `Routes.ConvertSteps` | micronav-assets/route_manager.py:857-897 | The conversion loop converts every provider step, in order. |
| `Routes.ConvertedStepAnchors` | micronav-assets/route_manager.py:862-895 | A converted step with usable geometry is matched from its first point and measured to its last. |
| `Routes.ReplyRoute` | micronav-assets/route_manager.py:831-850 | A reply yields a route exactly when its status is 200 and it has a route with a leg. |
| `Routes.RecalculatedRoute` | micronav-assets/route_manager.py:900-916 | The new message has type `route` and `recalculated` set. It carries the converted steps and flipped geometry, origin coordinates at the fix, and the stored destination. `old_route` is present exactly when a route was active. |
| `Routes.ReadRouteConfig` | micronav-assets/route_manager.py:79-93 | A setting that is given is kept; a missing one takes its default (5 s, 50 m, 100 m, enabled), and with none given the configuration is the default one. |
| `Routes.RouteManager.constructor` | micronav-assets/route_manager.py:55-125 | No route, no destination, no current step (index -1), no deviation, zero counters, a 30 s cooldown, and the configured thresholds. |
| `Routes.RouteManager.SetRoute` | micronav-assets/route_manager.py:129-246 | Missing data or a type other than `route` is refused with nothing changed. Otherwise, steps are numbered 0..n−1 in input order, geometry and destination are stored, and current step and deviation are reset. |
| `Routes.RouteManager.ClearRoute` | micronav-assets/route_manager.py:248-257 | Everything about the route is cleared. |
| `Routes.RouteManager.CalculateCurrentStep` | micronav-assets/route_manager.py:260-413 | Nothing without a route with steps and a valid fix. While throttled, the current step is kept and no state changes. Otherwise the result follows `FollowClosest`. |
| `Routes.RouteManager.FollowClosest` | micronav-assets/route_manager.py:291-407 | Moves to the closest step only when its index differs, stamping the time and counting a step update. With no candidate it counts a deviation check when the polyline has two points. |
| `Routes.RouteManager.RemainingDistance` | micronav-assets/route_manager.py:415-480 | Defined exactly when a current step, a valid fix and a remaining anchor exist. The value is the distance to that anchor. |
| `Routes.RouteManager.CalculateRouteDistance` | micronav-assets/route_manager.py:482-521 | Returns `RouteDistance` and counts a deviation check past the guards. |
| `Routes.RouteManager.DeviationAt` | micronav-assets/route_manager.py:632-637 | `is_deviated` holds exactly when the distance is above the warning threshold. |
| `Routes.RouteManager.CheckDeviation` | micronav-assets/route_manager.py:611-663 | Returns nothing with no route, or at distance 0.0, keeping the old deviation. Otherwise it stores and returns the new deviation, and the counters advance as `Assess`. |
| `Routes.RouteManager.UpdatePosition` | micronav-assets/route_manager.py:665-715 | The step fields become what `calculate_current_step` leaves (`NextStepState`). The deviation becomes the one at the route distance when a route is set and that distance is not 0.0, and is kept otherwise. The counters advance as step tracking and then `check_deviation` advance them (`DeviationStats`), with `last_update` stamped. `step_updated` holds exactly when a step is returned and its index changed; `remaining_distance` is given only with a step. `recalculate_needed` holds exactly when a route is set and the route distance is non-zero and above the recalculation threshold. |
| `Routes.RouteManager.Recalculation` | micronav-assets/route_manager.py:843-916 | The recalculated route has type `route`, `recalculated` set, and the converted steps of the first leg. |
| `Routes.RouteManager.RecalculateRoute` | micronav-assets/route_manager.py:760-956 | Disabled, blank token, no destination, invalid fix, busy, or within the cooldown: returns nothing and changes nothing. Past the guards: stamps `now`, ends not busy, and counts exactly one success or one failure. It never touches steps, current step or current route. |
| `Routes.RouteManager.Request` | micronav-assets/route_manager.py:798-954 | One failure count per failed reply. On success: one success count, the route converted and announced to the callback. |
| `Wifi.ParseFields` | micronav-assets/wifi_monitor.py:298-314 | A split line yields a network exactly when its first field is neither empty nor `--`. The SSID is that field. The signal is the second field's value when it is all digits, else 0. The security is the third field unless it is missing or `--`, which mean `Open`. |
| `Wifi.ParseLine` | micronav-assets/wifi_monitor.py:296-314 | Empty lines, `--` lines and lines without `:` are skipped. A network comes out exactly when the text before the first `:` is a real SSID; it holds no `:`. Signal and security follow the field rules over the line split on `:`, so one `:` means `Open`. |
| `Wifi.ParseNetworkOutput` | micronav-assets/wifi_monitor.py:291-317 | The loop emits the networks of the stripped output's lines, in line order. |
| `Wifi.Collect` | micronav-assets/wifi_monitor.py:309-314 | Every emitted network has a real SSID, and there are no more networks than lines. |
| `Wifi.ParseFormatLine` | micronav-assets/wifi_monitor.py:296-314 | Round trip: the line printed for a network parses back to that network. |
| `Wifi.ParsePrintedOutput` | micronav-assets/wifi_monitor.py:291-317 | Round trip, through `strip`: the scan output printed for any list of networks (none included) parses back to that list, provided the fields hold no `:` or newline and the text has no whitespace at either end. |
| `Wifi.FirstMatch` | micronav-assets/wifi_monitor.py:562-571 | The first available entry with the SSID, or none when there is none. |
| `Wifi.MatchOf` | micronav-assets/wifi_monitor.py:553-573 | A configured network contributes its first match exactly when it has a non-empty SSID that is available: its name, its priority, and that entry's signal. |
| `Wifi.MatchesAreAvailable` | micronav-assets/wifi_monitor.py:551-573 | Every found network comes from a configured entry and carries the signal of its first scan match. |
| `Wifi.NothingFound` | micronav-assets/wifi_monitor.py:575-583 | Nothing is found exactly when no configured network matches. |
| `Wifi.SortHead` | micronav-assets/wifi_monitor.py:586-588 | Picks the head of the stable sort by (−priority, −signal): nothing ranks above it and it ranks above every earlier candidate. |
| `Wifi.HeadIsUnique` | micronav-assets/wifi_monitor.py:586-588 | That head is unique. |
| `Wifi.FindBestNetwork` | micronav-assets/wifi_monitor.py:523-593 | Returns `None` exactly when nothing configured is available; otherwise the name heading the sort. |
| `Wifi.SafeConnectionName` | micronav-assets/wifi_monitor.py:405 | Same length, with every ' ', '-' and '.' replaced by '_' and no other change, leaving none of the three. |
| `Wifi.SafeConnectionNameIdempotent` | micronav-assets/wifi_monitor.py:700 | Rewriting a safe name again changes nothing. |
| `Text.Split` | micronav-assets/gps_controller.py:207-211 | `split` gives one piece more than there are separators, and no piece holds the separator. |
| `Text.JoinSplit` | micronav-assets/gps_controller.py:207-211 | `split` loses nothing: joining its pieces with the separator gives the text back. |
| `Text.SplitJoin` | micronav-assets/gps_controller.py:257 | Splitting joined fields gives them back when none holds the separator. |
| `Text.SplitTwo` | micronav-assets/gps_controller.py:244 | With exactly one separator, `split` gives the text before it and the text after it. |
| `Text.Strip` | micronav-assets/wifi_monitor.py:295 | `strip` returns a slice of the text that neither starts nor ends with whitespace. |
| `Text.StripUnpadded` | micronav-assets/wifi_monitor.py:295 | Text with no whitespace at either end is left as it is. |
| `Text.ParseInt` | micronav-assets/gps_controller.py:265-268 | `int()` succeeds exactly on an optional sign followed by digits; unsigned digits read as their decimal value. |
| `Text.ParseIntOfNat` | micronav-assets/wifi_monitor.py:305 | `int(str(n))` is `n`. |
| `Text.ParseFloat` | micronav-assets/gps_controller.py:271-274 | `float()` fails on empty text and reads plain digits as their value. |
| `Text.ParseFloatNegate` | micronav-assets/gps_controller.py:271-274 | A leading minus negates what `float()` reads. |
| `Text.ParseFloatDecimal` | micronav-assets/gps_controller.py:284-299 | `float("i.f")` is the integer part plus the fraction digits scaled by ten to their count. |
| `Text.Upper` | micronav-assets/gps_controller.py:250 | `upper` keeps the length and upper-cases each character. |
| `Text.HexUpper` | micronav-assets/gps_controller.py:250 | `hex(n)[2:].upper()` is non-empty upper-case hexadecimal, one digit exactly when `n` is below 16. |
| `Text.HexRoundTrip` | micronav-assets/gps_controller.py:250 | Reading that numeral back gives `n`. |
| `Text.ZFill` | micronav-assets/gps_controller.py:250 | `zfill` pads with `0` on the left up to the width and keeps the text as its tail. |
| `Text.HexByteWidth` | micronav-assets/gps_controller.py:250 | A value below 256 zero-fills to exactly two hex digits. |
| `Text.Replace` | micronav-assets/wifi_monitor.py:405 | `replace` of one character keeps the length and rewrites exactly the matching positions. |
| `CleanNodes.TopLevelResult` | micronav-assets/speedcams/clean_nodes.py:33-34 | A top-level object with `result` becomes an object whose only key is `result`, holding the cleaned value. |
| `CleanNodes.ObjectKeepsWhitelist` | micronav-assets/speedcams/clean_nodes.py:36-37 | Any other object keeps exactly its whitelisted keys, in order, with values cleaned. A nested `result` is dropped. |
| `CleanNodes.WhitelistedKeys` | micronav-assets/speedcams/clean_nodes.py:14-26 | A key survives exactly when it was present and is in `NODES_TO_KEEP`. |
| `CleanNodes.ArrayKeepsShape` | micronav-assets/speedcams/clean_nodes.py:38-40 | A list keeps its length and order, cleaned element by element. |
| `CleanNodes.PrimitiveUnchanged` | micronav-assets/speedcams/clean_nodes.py:41-43 | Primitive values come back unchanged. |
| `CleanNodes.CleanedIsKept` | micronav-assets/speedcams/clean_nodes.py:29-43 | Below the top level, every key at every depth of the output is whitelisted. |
| `CleanNodes.KeptIsFixed` | micronav-assets/speedcams/clean_nodes.py:29-43 | A document whose keys are all whitelisted is left as it is. |
| `CleanNodes.Idempotent` | micronav-assets/speedcams/clean_nodes.py:29-43 | Cleaning cleaned output changes nothing, at the top level as below it. |
| `CleanNodes.KeepsUniqueKeys` | micronav-assets/speedcams/clean_nodes.py:36 | Cleaning never makes two members of an object share a key. |

## Left out

- Serial I/O, the reading thread, `send_command`, `configure_gps`, `wait_for_fix`: device I/O, threads and sleeps. `Connect` takes the port's outcome as a parameter.
- `threading.Lock`: concurrency. The handlers run one after another.
- Callbacks are not called. They appear as recorded `notifications` (GPS) and `announced` routes. A callback's own exceptions are not modelled.
- `calculate_distance` is a haversine (trigonometry and floating point). It is the parameter `dist` of type `Metric`, a non-negative function of two points.
- `sqrt` followed by squaring in `_point_to_segment_distance`: `seg_length_deg ** 2` is modelled as the exact squared length.
- All arithmetic is on exact reals, not IEEE doubles.
- The HTTP request, URL building, `urlopen` and `json.loads` of `recalculate_route`: foreign calls. Their result is the `ProviderOutcome` input (an HTTP error, a connection error, a JSON error, another exception, or a reply with its status and decoded body).
- The 401/429 distinction in `recalculate_route` only selects a log message.
- The formatted `origin` label and `timestamp` of a recalculated route: float formatting and the wall clock. The label is `None` in the model.
- `float()` and `int()` accept only decimals: optional sign, digits, at most one dot. Exponents, `inf`/`nan`, surrounding whitespace and underscores are not modelled.
- `strip`, `isdigit` and `upper` are modelled for ASCII. Unicode whitespace, digits and case mapping are not.
- Route messages, steps and provider replies are typed records, not dictionaries. The exceptions that malformed dictionaries raise inside the `try` blocks are therefore not modelled.
- Everything the code only logs is not modelled.
- `get_current_step`, `get_deviation`, `get_stats`, `has_route`, `get_status`, `is_connected` and `format_coordinates` are field reads or formatting, so they are not modelled.
- In `wifi_monitor.py`, only the parser, the selection in `find_best_network` and the connection-name rewrite are modelled. Subprocess calls to `nmcli` and `ping`, the monitor loop, connecting and disconnecting are left out. The scan and the configured networks are parameters.
- `nmcli -t` escapes a `:` inside an SSID as `\:`. The code does not unescape it, and neither does the model. The round-trip lemmas cover only SSIDs without `:`.
- Reading and writing the speed-camera JSON files, and `main` of `clean_nodes.py`. JSON numbers are modelled as reals.
- A JSON object is a list of members, so it may repeat a key, which a Python `dict` cannot. Lookups take the first member with the key. `KeepsUniqueKeys` shows that cleaning an object keeps its keys unique when they were.
- Wifi.SortHead: the in-place `sort` of `found_networks` is modelled by the element it puts first, the only one `find_best_network` reads, not by the whole sorted list.
- Routes.RouteManager.CheckDeviation: a genuine distance of exactly 0.0 is treated like "no polyline" (the code's sentinel). It returns nothing and keeps the previous deviation, as the code does.
