# Train crowd monitor: a Dafny model of the dashboard logic

The dashboard in `train_crowd_monitor.js` shows three train compartments as status cards.
Compartment 1 shows live data polled from a device at `http://<ip>/api/status`. Compartments 2 and 3
show data made up by a weighted random simulator. This project models the script's deterministic
logic and proves properties of it:

- how a crowd status becomes a card class, a level text and three sensor indicators (`Render`,
  `CrowdLevels`);
- the "time ago" text (`TimeAgo`);
- how the device's JSON body becomes the live compartment's record (`Telemetry`);
- how the simulator picks a status and sensor flags from its random draws (`Simulator`);
- how the prompt's answer becomes the device address and the polling URL (`Configurator`);
- the page's module-level state and the three steps that overwrite it (`Monitor`): the address
  prompt, one poll, and one simulator round.

`JsText` models the JavaScript string built-ins the script relies on: `trim`, `toLowerCase` and
`toUpperCase` on ASCII letters, and integers in template literals. `Records` holds the record table's
shape. `Wrappers` holds `Option`.

The module-level variables `ESP32_IP`, `ESP32_URL`, `esp32Data` and `compartmentData` are fields of
the class `Monitor.Monitor`. Its invariant `Valid()` says four things:
- the table always has exactly the keys `compartment1..3`;
- the URL is always built from the address;
- compartment 1 always holds device data;
- compartments 2 and 3 always hold simulated data with one of the statuses GREEN, YELLOW or RED.

Each method states the whole new state in terms of the old one, including what it leaves untouched.
The things outside the program are parameters:
- the outcome of `fetch`;
- the `Math.random()` draws;
- the clock readings;
- the answer to `prompt`;
- which page elements exist.

The indicator list in `Render.RenderCompartment` and `Render.DashboardPass` is what one pass writes
for the three indicators. `Render.UpdateSensorIndicators` says which page elements receive it: only
those that exist, each overwritten with its entry of that list.

Some of the script's behaviour is easy to misread; the model follows the code:
- A device body without `status` does not fall back to the GREEN look. Compartment 1's record is
  overwritten first (line 313). If compartment 1's card and level elements exist, `toLowerCase` of
  `undefined` then throws (line 100) and ends the whole `updateDashboard` pass, so compartments 2 and
  3 are not redrawn in that pass either. If either element is missing, lines 94-97 return before
  line 100 and nothing throws. `Render.RenderCompartment` returns `Threw` for such a record.
  `Render.MissingLiveStatusBlocksPass` states the effect on the pass.
- That record stays until a poll brings a status. Until then, every simulator round also throws at
  compartment 1, so compartments 2 and 3 get new records but are not redrawn
  (`Monitor.Monitor.UpdateSimulatedCompartments` leaves compartment 1 as it was, and its pass is
  `Render.DashboardPass`).
- An unknown status gets the LOW CROWD level text, but its card class is its own lower-cased text,
  not the green class.
- The class attribute is not filtered. A status with white space around or inside a level name,
  such as `"RED "` or `"red green"`, shows LOW CROWD while the class list still contains the level's
  class name (`Render.PaddedStatusCard`).
- An answer made only of white space is rejected like an empty one.
- A device `timestamp` of 0 counts as missing.
- A failed poll changes no connection state. The connection status is only logged.

## Model

| member | source | states |
|---|---|---|
| JsText.Trim | train_crowd_monitor.js:237-238 | the trimmed address is no longer than the input and neither starts nor ends with ECMAScript white space |
| JsText.TrimIsInfix | train_crowd_monitor.js:237-238 | trim keeps the infix that starts at the first non-space; everything cut off before and after it is white space |
| JsText.TrimEmptyIffAllSpace | train_crowd_monitor.js:237 | `ip.trim() === ''` exactly when the answer is all white space (or empty) |
| JsText.TrimIdempotent | train_crowd_monitor.js:237-238 | trimming an already trimmed address changes nothing |
| JsText.ToLowerIdempotent | train_crowd_monitor.js:100 | lower-casing a lower-cased status changes nothing |
| JsText.IntToStringRoundTrip | train_crowd_monitor.js:158-164 | the decimal text of the amount in a "time ago" text reads back as that integer, negative ones included |
| JsText.ParseIntCanonical | train_crowd_monitor.js:158-164 | the only text that reads back as an integer is the text JavaScript writes for it: no leading zeros, no `-0` |
| JsText.IntToStringInjective | train_crowd_monitor.js:158-164 | different amounts give different texts |
| CrowdLevels.GetCrowdLevel | train_crowd_monitor.js:137-139 | `getCrowdLevel` lower-cases the status character by character, keeping its length and leaving no upper-case ASCII letter |
| CrowdLevels.GetCrowdInfo | train_crowd_monitor.js:142-150 | `getCrowdInfo` returns the metadata of the level whose key is given, the GREEN metadata for every other key, and always one of LOW/MODERATE/HIGH CROWD |
| CrowdLevels.NameLowersToKey | train_crowd_monitor.js:100-101 | lower-casing GREEN/YELLOW/RED gives the table keys green/yellow/red |
| CrowdLevels.LabelIdentifiesLevel | train_crowd_monitor.js:143-147 | no two levels share a level text |
| CrowdLevels.StatusLabel | train_crowd_monitor.js:100-107 | a status naming a level in any letter case shows that level's text; any other status shows LOW CROWD |
| Render.CardOfKnownStatus | train_crowd_monitor.js:100-107 | a status naming a level gets class `compartment-card <key>` and that level's text |
| Render.CardOf | train_crowd_monitor.js:100-107 | the card's class attribute is `compartment-card ` followed by the status lower-cased character by character, unfiltered; its text is always one of LOW/MODERATE/HIGH CROWD |
| Render.CardOfUnknownStatus | train_crowd_monitor.js:100-107 | an unknown status shows LOW CROWD, and its class string differs from the string `compartment-card <key>` of every level |
| Render.PaddedStatusCard | train_crowd_monitor.js:100-107 | the status `"RED "` gives class `"compartment-card red "` (still holding the word `red`) with the text LOW CROWD |
| Render.CardOfIgnoresCase | train_crowd_monitor.js:100 | a status and its lower-cased form give the same card |
| Render.CardOfCaseInsensitive | train_crowd_monitor.js:100 | two statuses that differ only in ASCII letter case give the same card |
| Render.RenderedIndicators | train_crowd_monitor.js:122-133 | one indicator per name in `['ir1', 'ir2', 'ultrasonic']`, each active exactly when that sensor's flag is truthy |
| Render.IndicatorsShown | train_crowd_monitor.js:122-133 | IR1, IR2 and ULTRASONIC are each active iff their flag is set, with tooltip "<NAME> sensor detecting crowd" or "<NAME> sensor clear" |
| Render.Ir3NeverShown | train_crowd_monitor.js:122 | the `ir3` flag never changes what is shown |
| Render.UpdateSensorIndicators | train_crowd_monitor.js:119-134 | every existing indicator element is overwritten with its sensor's state; missing elements are skipped |
| Render.RenderCompartment | train_crowd_monitor.js:90-110 | `updateCompartment`: skipped exactly when the card or level element is missing; throws exactly when it exists and the status is missing; otherwise writes `CardOf` of the status and the rendered indicators |
| Render.RenderCompartmentCases | train_crowd_monitor.js:90-110 | missing card or level element: skipped; missing status: throws; otherwise the card class, one of the three texts, and indicators that follow the flags |
| Render.DashboardPass | train_crowd_monitor.js:81-85 | the outcomes of one `updateDashboard` pass: never more than there are compartments, and a pass that ends early ends with an exception |
| Render.DashboardPassPrefix | train_crowd_monitor.js:81-85 | every entry of the pass is its compartment's outcome, in key order, and only the last entry can be an exception |
| Render.UpdateDashboard | train_crowd_monitor.js:81-87 | the pass renders the compartments in key order and stops at the first that throws |
| Render.DashboardPassComplete | train_crowd_monitor.js:81-85 | when every record has a status, every compartment is rendered or skipped and none throws |
| Render.MissingLiveStatusBlocksPass | train_crowd_monitor.js:82-83 | a live record without status whose card exists ends the pass before compartments 2 and 3 |
| TimeAgo.ElapsedSeconds | train_crowd_monitor.js:155 | the elapsed milliseconds rounded down to whole seconds |
| TimeAgo.Elapse | train_crowd_monitor.js:157-165 | seconds below 60; whole minutes (1 to 59) from 60 to 3599; whole hours (at least 1) after; each amount is the elapsed time rounded down to its unit |
| TimeAgo.TextReadsBack | train_crowd_monitor.js:158-164 | the amount and unit can be read back from the text |
| TimeAgo.ParseTimeAgoExact | train_crowd_monitor.js:158-164 | the only text that reads back as an amount and unit is the text written for them, so `formatTimeAgo`'s round trip fixes its exact words |
| TimeAgo.TextPlural | train_crowd_monitor.js:164 | a text ends in "hours ago" exactly when its unit is hours and its amount is more than one |
| TimeAgo.FormatTimeAgoPlural | train_crowd_monitor.js:153-166 | `formatTimeAgo` writes "hours ago" exactly when at least 7200 s have passed, and "hour ago" from 3600 s up to 7200 s |
| TimeAgo.FormatTimeAgo | train_crowd_monitor.js:153-166 | `formatTimeAgo`: reading its text back gives the amount and unit `Elapse` chooses for the elapsed seconds; with `TimeAgo.ParseTimeAgoExact` this fixes the text as `<amount> sec ago`, `<amount> min ago`, `<amount> hour ago` or `<amount> hours ago` |
| TimeAgo.FormatTimeAgoExamples | train_crowd_monitor.js:153-166 | 5 s, 90 s, 3600 s and 7200 s show "5 sec ago", "1 min ago", "1 hour ago" and "2 hours ago" |
| Telemetry.ConvertTelemetry | train_crowd_monitor.js:313-323 | the status is copied verbatim; each flag is true iff the device sent it as true; the timestamp is used unless missing or 0, else `now`; the record is marked real |
| Telemetry.ActiveSensorCount | train_crowd_monitor.js:305-310 | the logged count of active sensors is at most 4, and 0 without a `sensors` object |
| Telemetry.ActiveCountMatchesRecord | train_crowd_monitor.js:305-323 | the logged count equals the number of active flags in the new record |
| Simulator.Classify | train_crowd_monitor.js:342-366 | a draw below 0.35 selects GREEN, from 0.35 below 0.85 YELLOW, from 0.85 RED |
| Simulator.RedShare | train_crowd_monitor.js:61-65 | the three chances add up to one, and the draws that select RED are exactly those from 1 - 0.15 up |
| Simulator.ClassifyMonotone | train_crowd_monitor.js:345-359 | a larger draw never selects a less severe status |
| Simulator.Threshold | train_crowd_monitor.js:347-365 | the activation threshold of each sensor for each drawn status, always strictly between 0 and 1 |
| Simulator.ThresholdsDecrease | train_crowd_monitor.js:347-365 | each sensor's activation threshold strictly decreases from GREEN to YELLOW to RED |
| Simulator.SimulatedSensors | train_crowd_monitor.js:347-365 | a simulated sensor is active iff its draw exceeds the threshold of the status drawn; there is no `ir3` |
| Simulator.ActivationMonotone | train_crowd_monitor.js:347-365 | with the same draws, a more severe status activates every sensor a less severe one does |
| Simulator.ExpectedActiveIncreases | train_crowd_monitor.js:347-365 | the sum of activation chances grows strictly from GREEN to YELLOW to RED |
| Simulator.SimulatedRecord | train_crowd_monitor.js:368-373 | a simulated record is not real, has status GREEN, YELLOW or RED (the one drawn), the sensor flags its draws select for that status, no `ir3`, and the clock reading as its time |
| Simulator.SimulatedRecordRenders | train_crowd_monitor.js:368-373 | a simulated record never throws or falls back: it shows its level's class and text |
| Configurator.StatusUrl | train_crowd_monitor.js:239 | the URL is `http://`, then exactly the address, then `/api/status` |
| Configurator.HostOfStatusUrl | train_crowd_monitor.js:239 | the address can be read back from the URL `http://<ip>/api/status` |
| Configurator.StatusUrlInjective | train_crowd_monitor.js:239 | different addresses give different URLs |
| Configurator.ConfiguredAddress | train_crowd_monitor.js:237-238 | an accepted answer gives its trimmed text, which is never empty |
| Configurator.ConfiguredAddressAccepts | train_crowd_monitor.js:237 | an answer is accepted iff the prompt was not cancelled and the answer is not all white space; the address kept has no white space at either end |
| Monitor.Monitor.constructor | train_crowd_monitor.js:2-51 | the initial address, URL, cached device body and the three initial records |
| Monitor.Monitor.ShowIPDialog | train_crowd_monitor.js:230-247 | an accepted answer sets the address to the trimmed text, the URL to `http://<ip>/api/status` and starts polling; otherwise nothing changes and polling does not start |
| Monitor.Monitor.ApplyPoll | train_crowd_monitor.js:264-300 | a received body replaces `esp32Data` and compartment 1's record only, then renders; a failed poll changes nothing |
| Monitor.Monitor.UpdateSimulatedCompartments | train_crowd_monitor.js:340-380 | compartments 2 and 3 are overwritten with the records their draws select, compartment 1 is untouched, then all are rendered |
| Monitor.AddressExample | train_crowd_monitor.js:237-239 | the answer "10.0.0.5" makes the page poll `http://10.0.0.5/api/status` |
| Monitor.PollExample | train_crowd_monitor.js:313-323 | a RED body with only `ir1_crowd` set shows HIGH CROWD with only IR1 active |

## Left out

- DOM and browser I/O are left out: `getElementById`, `classList`, `textContent`, `title`, `console`, `alert`. Which elements exist is a parameter (`found`, and `None` entries of the indicator array).
- The `localStorage` write of the address (line 240) and `resetESP32IP` (lines 383-386) are left out: that storage is never read back, and a page reload is outside the model.
- `fetch`, promises and `setInterval` (lines 258-261, 334) are left out. One poll is one atomic step whose outcome is a parameter. `Failed` stands for a transport error, a non-ok status, or a body that cannot be read (a `null` body also throws before anything is written, at line 274).
- Overlapping polls that finish out of order (last write wins) are not modelled.
- The start-up order (lines 68-78) is not modelled as a schedule. The `Monitor` methods are the steps it runs.
- `Math.random()` draws are real-number parameters. The model does not reason about their distribution.
- The floating-point sum `0.35 + 0.50` is taken to be exactly 0.85.
- Times are integers of milliseconds. Non-integer, NaN and invalid `Date` values are not modelled.
- `updateConnectionStatus` and `updateLastSync` only log, and are left out.
- `startRealTimeUpdates`, `simulateDataUpdate` and `updateTimeDisplays` (lines 183-227) are never called. `formatTimeAgo`, which they use and which the `window.TrainCrowdMonitor` object exports (line 393), is modelled.
- The click and visibility handlers (lines 399-418) and the `window.TrainCrowdMonitor` export (lines 389-396) are left out.
- `CROWD_THRESHOLDS` (lines 54-57) and `SIMULATION_PROBABILITY.RED` are declared but never used in a decision.
- CrowdLevels.GetCrowdInfo: keys inherited from `Object.prototype` (such as `constructor`) are found by the source's plain-object lookup at line 149. The model treats them like any other unknown key.
- JsText.ToLower: `toLowerCase` and `toUpperCase` change only ASCII letters in the model. JavaScript also changes other Unicode letters.
- JsText.IntToString: JavaScript writes numbers of 10^21 and more in exponent notation. The model always writes plain digits.
- A `status` that is present but not a string (the model has a string or nothing) is not modelled.
- Truthy non-boolean sensor values are not modelled: device flags are `Option<bool>`.
- `config.h` is not part of this model. It only defines firmware constants (credentials, pins, timings) and holds no logic.
