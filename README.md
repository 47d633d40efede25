# HILL farm dashboard — a Dafny model of its decision logic

HILL is a React front end for a small farm. It shows two sensor nodes and a
soil-nutrient (NPK) probe, all read from ThingSpeak channels. It switches a
motor and a fertilizer actuator, charts the sensor history, and lists
tractors that can be searched and rented. This project models the
deterministic rules inside those pages:

- **NPK panel** (`NpkDashboard`):
  - the first-match-wins crop recommender over overlapping thresholds, with NaN readings;
  - the `"N,P,K"` parser and its `??` defaults;
  - the bar clamp;
  - the poll that replaces the three readings and the recommendation together.
- **Motor and fertilizer control** (`Node3Control`):
  - the status decoding (`"1"` is on);
  - the combined write that restates the other actuator's believed value;
  - the `"0"`-means-rejected rule;
  - the `loading` flag that disables the buttons.
- **Sensor history** (`SensorDetails`):
  - the 4-slot and 3-slot parsers with their `|| 0` defaults;
  - the `fieldMap` table;
  - the chart points built from the fetched records.
- **Farm dashboard** (`Dashboard`):
  - the two-channel poll merge;
  - the `loading`/`updating` flags and the last-updated text;
  - the loading-screen guard and the `"--"` fallback of a sensor row.
- **Tractor listing** (`TractorListing`):
  - the case-insensitive search over three optional fields;
  - the available-only switch and the available count;
  - the list fetch.
- **Rental form** (`RentTractor`):
  - the total cost and the duration stepper;
  - the ordered input checks and the `isConfirming` flag of a confirmation;
  - the confirm button's `disabled` rule.
- **API configuration** (`ApiConfig`): the base-URL precedence, URL joining and the endpoint paths.

Shared modules:
- `Wrappers` holds `Option`.
- `Strings` models JavaScript's `split` on one character, `trim`, ASCII `toLowerCase` and `includes` on `seq<char>`.
- `Remote` holds `Read<F>`, the abstract outcome of one feed request. It is `Failed`, `NullBody` (the body decodes to JSON `null`), or `Fetched(feeds)`.

Conventions:
- A JavaScript number is an `int`, and NaN is `None` of an `Option<int>`.
- `parseFloat` and `Number` are function parameters of type `string -> Option<int>`.
- Each asynchronous handler with a flag is split in two methods.
  - The first raises the flag and returns what is sent.
  - The second takes the settled response and clears the flag.
  - This makes the in-flight state observable.

Three behaviours of the code are easy to misread:
- `Node3Control.tsx` has no lockout countdown and no request queue. "Wait 15 seconds" is only alert text. Single-flight comes from `disabled={loading}` alone.
- `Dashboard.tsx` awaits both channels' requests and JSON bodies before applying anything (lines 33-43). A failure of either channel therefore discards the other's result as well; the channels are not isolated against failures. They are isolated only against an empty feed list.
- A JSON object without a `feeds` array behaves like one with an empty array at every call site, so it is `Fetched([])`. A body that decodes to `null` does not: reading `json.feeds` on it throws, because `?.` guards only `.length`. On most pages the throw is caught and nothing changes. On the dashboard, a `null` body on channel 2 throws after node 1 has been set (`Dashboard.tsx:45-50`), so node 1 moves while node 2 and the time text stay.

## Model

| member | source | states |
|---|---|---|
| Remote.Latest | src/pages/Dashboard.tsx:45-50 | a read yields a record exactly when it succeeded with a non-empty `feeds` array, and that record is `feeds[0]` |
| Strings.TrimStart | src/pages/SensorDetails.tsx:53 | the result is a suffix of the text, everything removed is white space, and it does not start with white space |
| Strings.TrimEnd | src/pages/SensorDetails.tsx:53 | the result is a prefix of the text, everything removed is white space, and it does not end with white space |
| Strings.Trim | src/pages/SensorDetails.tsx:53 | the trimmed text is a middle part of the input, reached by dropping white space from either end, and has no white space at either end |
| Strings.MiddlePartIsSlice | src/pages/SensorDetails.tsx:53 | a middle part is a slice `s[i..j]` with only white space before `i` and after `j` |
| Strings.TrimIsSlice | src/pages/SensorDetails.tsx:53 | the trimmed text is some slice `s[i..j]` of the input whose outer parts `s[..i]` and `s[j..]` are all white space |
| Strings.TrimEmptyIffAllSpace | src/pages/RentTractor.tsx:80-88 | `trim()` gives "" exactly when every character is JavaScript white space |
| Strings.TrimOfTrimmed | src/pages/SensorDetails.tsx:53 | a text without outer white space is its own trim |
| Strings.Split | src/pages/NPKDashboard.tsx:37 | `split(",")` yields at least one piece and no piece contains the separator |
| Strings.JoinSplit | src/pages/NPKDashboard.tsx:37 | joining the pieces of a split with the separator gives back the text |
| Strings.SplitConcat | src/pages/NPKDashboard.tsx:37 | splitting `a + sep + b` splits `a` and `b` independently |
| Strings.SplitJoin | src/pages/NPKDashboard.tsx:37 | splitting a join of separator-free pieces gives back the pieces |
| Strings.ToLower | src/pages/TractorListing.tsx:36-38 | lower-casing keeps the length and maps each character by the ASCII rule |
| Strings.ToLowerIdempotent | src/pages/TractorListing.tsx:36-38 | lower-casing twice is lower-casing once |
| Strings.Contains | src/pages/TractorListing.tsx:36-38 | `includes` is true exactly when the text occurs at some position |
| Strings.MissingCharNotContained | src/pages/SensorDetails.tsx:98 | a text lacking one character of the search text does not include it |
| NpkDashboard.Suggest | src/pages/NPKDashboard.tsx:72-101 | the suggested crop's own threshold rule holds for the readings |
| NpkDashboard.FirstMatch | src/pages/NPKDashboard.tsx:72-101 | the chosen rule holds and sits at a position of the list before which no rule holds; no rule is chosen exactly when none holds |
| NpkDashboard.SuggestIff | src/pages/NPKDashboard.tsx:72-101 | the crop at table position i is returned exactly when its rule holds and no earlier rule does |
| NpkDashboard.SuggestIsFirstMatch | src/pages/NPKDashboard.tsx:72-101 | the cascade is the first-match evaluation of the table, so every (n,p,k), NaN included, yields exactly one of the ten results |
| NpkDashboard.FirstHoldingIsFirstMatch | src/pages/NPKDashboard.tsx:72-101 | a rule that holds with no earlier rule holding is what the first-match evaluation returns |
| NpkDashboard.BananaWhateverPhosphorus | src/pages/NPKDashboard.tsx:73-74 | n >= 70 and k >= 70 give Banana whatever p is |
| NpkDashboard.TurmericBeforeBeansAndRagi | src/pages/NPKDashboard.tsx:76-92 | (45,35,45) satisfies the Beans and Ragi rules but yields Turmeric |
| NpkDashboard.BeansNitrogenRange | src/pages/NPKDashboard.tsx:82-86 | a Beans result has 30 <= n < 60; n = 60 never yields Beans |
| NpkDashboard.LowReadingsNeedImprovement | src/pages/NPKDashboard.tsx:94-100 | (5,5,5) falls through to Soil Needs Improvement |
| NpkDashboard.NaNNitrogen | src/pages/NPKDashboard.tsx:73-100 | with n NaN only the Tapioca rule (k >= 60) can fire, otherwise the fallback |
| NpkDashboard.NaNPotassium | src/pages/NPKDashboard.tsx:73-100 | with k NaN only the Corn rule (n >= 60) can fire, otherwise the fallback |
| NpkDashboard.NaNPhosphorus | src/pages/NPKDashboard.tsx:73-100 | with p NaN the result is one of Banana, Corn, Beetroot, Tapioca or the fallback |
| NpkDashboard.Tokens | src/pages/NPKDashboard.tsx:37-39 | one converted value per comma piece, each the conversion of the trimmed piece |
| NpkDashboard.ParseNpk | src/pages/NPKDashboard.tsx:34-46 | exactly three slots; [0,0,0] for a null or empty field; otherwise slot i is the i-th trimmed piece converted, or 0 past the last piece |
| NpkDashboard.NullishFallbackOnly | src/pages/NPKDashboard.tsx:41-45 | a missing position becomes 0 but an unreadable piece stays NaN (`??` does not replace NaN) |
| NpkDashboard.ParseNpkIgnoresExtraTokens | src/pages/NPKDashboard.tsx:37-45 | text after the third piece does not change the parse |
| NpkDashboard.TokenOrZeroAt | src/pages/NPKDashboard.tsx:37-38 | a piece without outer white space is converted as it stands |
| NpkDashboard.ParseNpkThreeTokens | src/pages/NPKDashboard.tsx:34-46 | a field of exactly three clean pieces parses piece by piece |
| NpkDashboard.ParseNpkRoundTrip | src/pages/NPKDashboard.tsx:34-46 | three values written with commas by a renderer that `parseFloat` reads back parse back to themselves |
| NpkDashboard.BarWidth | src/pages/NPKDashboard.tsx:186 | the bar width is NaN exactly when the value is, otherwise at most 100 and at most the value, being one of the two |
| NpkDashboard.NpkPanel.constructor | src/pages/NPKDashboard.tsx:21-24 | the panel starts at 0,0,0 with no recommendation |
| NpkDashboard.NpkPanel.FetchNpk | src/pages/NPKDashboard.tsx:50-68 | with a latest record the three readings are its parse and the recommendation is their suggestion; with none (empty feed or failure) nothing changes; the recommendation always agrees with the readings |
| Node3Control.ReadStatus | src/pages/Node3Control.tsx:16-33 | with a latest record motor is (field3 == "1") and fertilizer is (field2 == "1"), null and every other text meaning off; with none the belief is unchanged |
| Node3Control.Bit | src/pages/Node3Control.tsx:86 | `x ? 1 : 0` is 0 or 1, and 1 exactly when x holds |
| Node3Control.Payload | src/pages/Node3Control.tsx:85-132 | a button sends its target for its own actuator and the current belief for the other one |
| Node3Control.PayloadKeepsOtherActuator | src/pages/Node3Control.tsx:40-52 | when the status read returns what a button wrote, only that button's actuator changes, to its target |
| Node3Control.Accepted | src/pages/Node3Control.tsx:48-51 | every answer but "0" counts as acceptance, an empty one included; a transport error never does |
| Node3Control.AfterWrite | src/pages/Node3Control.tsx:48-58 | an accepted write gives a fresh status read; a rejected or failed one keeps the belief |
| Node3Control.RejectedWriteKeepsBelief | src/pages/Node3Control.tsx:51-58 | the response "0" and a transport error keep both beliefs; any other text applies the confirming read |
| Node3Control.AcceptedWriteReachesIntent | src/pages/Node3Control.tsx:45-52 | an accepted write confirmed by its own stored values ends in the intended belief |
| Node3Control.ControlPanel.constructor | src/pages/Node3Control.tsx:11-13 | both actuators believed off, no write in flight |
| Node3Control.ControlPanel.FetchStatus | src/pages/Node3Control.tsx:16-33 | the belief becomes `ReadStatus` of the old belief; `loading` is untouched |
| Node3Control.ControlPanel.Press | src/pages/Node3Control.tsx:82-137 | while loading nothing is sent and nothing changes; otherwise the button's payload, built from the current belief, is sent and `loading` is set |
| Node3Control.ControlPanel.CompleteWrite | src/pages/Node3Control.tsx:48-61 | the belief becomes `AfterWrite` of the old one and `loading` is false whatever the outcome |
| Node3Control.DoubleClick | src/pages/Node3Control.tsx:82-137 | a second click while the first write is in flight sends nothing; afterwards the panel is idle with the first write's outcome |
| SensorDetails.Numbers | src/pages/SensorDetails.tsx:53 | one converted value per comma piece, each the conversion of the trimmed piece |
| SensorDetails.ParseNode | src/pages/SensorDetails.tsx:51-60 | exactly four slots; zeros for a missing or empty field; otherwise slot i is the i-th trimmed piece converted, with NaN, 0 and a missing piece all giving 0 |
| SensorDetails.ParseNpk | src/pages/SensorDetails.tsx:62-66 | exactly three slots with the same rule |
| SensorDetails.UnconvertibleTokenIsZero | src/pages/SensorDetails.tsx:53-65 | a missing or unconvertible piece reads as 0 in both parsers (`|| 0` replaces NaN) |
| SensorDetails.ParseNodeIgnoresExtraTokens | src/pages/SensorDetails.tsx:53-59 | text after the fourth piece does not change the parse |
| SensorDetails.TokenOrZeroAt | src/pages/SensorDetails.tsx:53-58 | a piece without outer white space is converted as it stands |
| SensorDetails.ParseNodeFourTokens | src/pages/SensorDetails.tsx:51-60 | a field of exactly four clean pieces parses piece by piece |
| SensorDetails.ParseNodeRoundTrip | src/pages/SensorDetails.tsx:51-60 | four values written with commas by a renderer that `Number` reads back parse back to themselves |
| SensorDetails.FieldMap | src/pages/SensorDetails.tsx:70-90 | the NPK series read field3 and the node 1 series field1 (node 2 field2); every index is within its parser's arity; every caption is non-empty |
| SensorDetails.IsAllKeyIffNoIndex | src/pages/SensorDetails.tsx:70-98 | exactly the table entries without an index have a key containing "all" |
| SensorDetails.ValuesOf | src/pages/SensorDetails.tsx:100-103 | a field3 series uses the NPK parser, every other series the node parser on its own field |
| SensorDetails.PointOf | src/pages/SensorDetails.tsx:99-124 | a point carries its record's entry id; it holds four values exactly for an "all" key, those being the record's parsed values, and otherwise the parsed value at the series' index |
| SensorDetails.FormattedData | src/pages/SensorDetails.tsx:96-125 | one point per record, in record order, with that record's entry id; the points carry four values exactly for "all" keys |
| SensorDetails.MetricPointValue | src/pages/SensorDetails.tsx:114-124 | a single-metric point's value is the parsed value at the series' index |
| SensorDetails.Node1WaterReadsThirdValue | src/pages/SensorDetails.tsx:74-122 | "node1-water" charts the third value of field1 |
| SensorDetails.AllPointValues | src/pages/SensorDetails.tsx:99-112 | an "all" point carries the first three parsed values; for a node series the fourth is the parsed LDR value, for "npk-all" it is always 0 |
| SensorDetails.FeedsAfterFetch | src/pages/SensorDetails.tsx:37-47 | a successful read replaces the records; a failure or a `null` body keeps them |
| Dashboard.Merge | src/pages/Dashboard.tsx:33-56 | a failure of either channel, or a `null` body on channel 1, changes nothing; a node changes only to an existing latest record of its channel; the time text changes only with node 2, formatted from its creation time |
| Dashboard.ChannelIsolation | src/pages/Dashboard.tsx:45-54 | what one node ends up with depends on the other channel only through whether it failed |
| Dashboard.EmptyChannelDoesNotBlockOther | src/pages/Dashboard.tsx:45-54 | an empty feed on one channel still lets the other channel's record through |
| Dashboard.FailureDiscardsOtherChannel | src/pages/Dashboard.tsx:33-56 | a successful read is discarded when the other channel fails |
| Dashboard.NullBodyStopsMidway | src/pages/Dashboard.tsx:45-55 | a `null` body on channel 1 changes nothing; one on channel 2 lets node 1 update but keeps node 2 and the time text |
| Dashboard.MergeIdempotent | src/pages/Dashboard.tsx:45-54 | applying the same two reads twice is applying them once |
| Dashboard.FarmDashboard.constructor | src/pages/Dashboard.tsx:16-20 | no readings, empty time text, loading set, not updating |
| Dashboard.FarmDashboard.BeginPoll | src/pages/Dashboard.tsx:30-31 | `loading` is raised when the closure sees both nodes null, `updating` otherwise |
| Dashboard.FarmDashboard.CompletePoll | src/pages/Dashboard.tsx:33-60 | the readings become `Merge` of the old ones and both flags are down whatever the outcome |
| Dashboard.ShowsLoadingScreen | src/pages/Dashboard.tsx:63 | the loading screen shows exactly while loading with neither node read; once a node has a reading it never shows |
| Dashboard.Tick | src/pages/Dashboard.tsx:22-63 | during a poll the loading screen shows exactly when neither node had a reading; afterwards the readings are merged and both flags are down |
| Dashboard.RowText | src/pages/Dashboard.tsx:147 | a row shows the raw text, or "--" for a missing node or a null field |
| Dashboard.EmptyReadingShownAsEmpty | src/pages/Dashboard.tsx:147 | an empty reading is shown as empty text, not as "--" |
| Dashboard.FooterText | src/pages/Dashboard.tsx:98 | the footer is the time text, or "Waiting for data..." while it is empty, and is never empty |
| TractorListing.MatchesSearch | src/pages/TractorListing.tsx:35-38 | the query matches one of model, location and owner name; a tractor with none of the three never matches |
| TractorListing.MatchesFilter | src/pages/TractorListing.tsx:39 | with the switch off every tractor passes; with it on exactly the available ones |
| TractorListing.Included | src/pages/TractorListing.tsx:34-40 | a listed tractor matches the search and, with the switch on, is available; with the switch off only the search decides |
| TractorListing.FilteredTractors | src/pages/TractorListing.tsx:34-41 | the results are an order-preserving subsequence of the list, every result is included, and each included tractor occurs as often as in the list |
| TractorListing.FilteredMembership | src/pages/TractorListing.tsx:34-41 | a tractor is shown exactly when it is in the list and matches the search and the switch |
| TractorListing.QueryCaseInsensitive | src/pages/TractorListing.tsx:35-38 | queries that differ only in letter case give the same results |
| TractorListing.LowerCasedQuerySameResult | src/pages/TractorListing.tsx:35-38 | a query and its lower-case form give the same results |
| TractorListing.ContainsEmpty | src/pages/TractorListing.tsx:35-38 | every text includes the empty query |
| TractorListing.EmptyQueryMatchesPresentFields | src/pages/TractorListing.tsx:35-38 | the empty query matches a tractor exactly when model, location or owner name is present |
| TractorListing.AvailableTractors | src/pages/TractorListing.tsx:43 | the available tractors, as an order-preserving subsequence keeping each available tractor's multiplicity |
| TractorListing.AvailableCount | src/pages/TractorListing.tsx:43 | the available count is at most the number of tractors |
| TractorListing.AvailableCountFull | src/pages/TractorListing.tsx:43 | the count equals the number of tractors exactly when all are available |
| TractorListing.AvailableOnlyNarrowsSearch | src/pages/TractorListing.tsx:39-40 | the results with the switch on are the available ones among the results with it off |
| TractorListing.IncludedIgnoresAvailability | src/pages/TractorListing.tsx:39-40 | with the switch off, changing one tractor's availability does not change whether it is listed |
| TractorListing.AvailabilityIgnoredWhenSwitchOff | src/pages/TractorListing.tsx:39-40 | with the switch off, two lists that differ only in each tractor's availability select the same tractors, up to availability |
| TractorListing.UniformAvailabilityWhenSwitchOff | src/pages/TractorListing.tsx:39-40 | with the switch off, giving all tractors one availability selects the same tractors, with that availability |
| TractorListing.AvailableOnlyBound | src/pages/TractorListing.tsx:39-43 | with the switch on at most `availableCount` tractors are shown |
| TractorListing.SubsequenceAvailableBound | src/pages/TractorListing.tsx:34-43 | a subsequence holds no more available tractors than its source |
| TractorListing.Listing.constructor | src/pages/TractorListing.tsx:8-12 | no tractors, loading, no error, empty query, switch off |
| TractorListing.Listing.BeginFetch | src/pages/TractorListing.tsx:20 | loading is raised |
| TractorListing.Listing.CompleteFetch | src/pages/TractorListing.tsx:18-32 | a success replaces the list and clears the error; a failure sets the error text and keeps the list and what is shown; loading is down after both |
| TractorListing.Listing.SetQuery | src/pages/TractorListing.tsx:66 | the query becomes the typed text; a change of letter case only leaves what is shown as it was |
| TractorListing.Listing.ToggleAvailable | src/pages/TractorListing.tsx:71 | the switch flips; switching it on narrows what is shown to its available tractors, at most `availableCount` of them |
| RentTractor.TotalCost | src/pages/RentTractor.tsx:67-72 | the cost is 0 before a tractor has loaded |
| RentTractor.TotalCostIsAccumulated | src/pages/RentTractor.tsx:67-72 | the cost is the hourly or daily price charged once per unit of the duration |
| RentTractor.CostStep | src/pages/RentTractor.tsx:67-72 | one more unit adds one unit price; one unit costs the unit price |
| RentTractor.CostAtLeastRate | src/pages/RentTractor.tsx:67-72 | with a nonnegative price a rental of at least one unit costs at least one unit price |
| RentTractor.CostMonotone | src/pages/RentTractor.tsx:67-72 | with a nonnegative price a longer rental never costs less |
| RentTractor.Decremented | src/pages/RentTractor.tsx:283 | the minus button gives duration - 1, but never less than 1 |
| RentTractor.DecrementUndoesIncrement | src/pages/RentTractor.tsx:283-297 | minus after plus returns to the same valid duration |
| RentTractor.Validate | src/pages/RentTractor.tsx:74-88 | an empty start date is reported first, then a whitespace-only name, then a whitespace-only email, and nothing exactly when all three are filled |
| RentTractor.StartDateCheckedFirst | src/pages/RentTractor.tsx:75-78 | a missing start date is reported whatever the name and email |
| RentTractor.NoticeFor | src/pages/RentTractor.tsx:109-121 | success exactly on an OK status; otherwise the server's message, or the fallback text when it is absent or empty, or the fixed text for a failed request; a failure text is never empty |
| RentTractor.ConfirmDisabled | src/pages/RentTractor.tsx:391 | the button is disabled exactly while a confirmation runs or when the tractor is rented out |
| RentTractor.RentalForm.constructor | src/pages/RentTractor.tsx:37-46 | a daily rental of one unit with empty inputs, no tractor, loading, not confirming |
| RentTractor.RentalForm.TractorLoaded | src/pages/RentTractor.tsx:52-65 | a loaded record replaces the tractor, a failure keeps it, and loading ends |
| RentTractor.RentalForm.DecreaseDuration | src/pages/RentTractor.tsx:283 | the duration becomes `Decremented` of the old one and stays at least 1 |
| RentTractor.RentalForm.IncreaseDuration | src/pages/RentTractor.tsx:297 | the duration grows by one and stays at least 1 |
| RentTractor.RentalForm.BeginConfirm | src/pages/RentTractor.tsx:74-107 | a failed check sends nothing and leaves `isConfirming` alone; otherwise `isConfirming` is set and the request carries the current, untrimmed inputs and the total cost, and no start time |
| RentTractor.RentalForm.FinishConfirm | src/pages/RentTractor.tsx:109-124 | the notice is `NoticeFor` the response and `isConfirming` is down whatever the outcome |
| RentTractor.ClickConfirm | src/pages/RentTractor.tsx:389-391 | a click on a disabled button (confirming, or tractor rented out) does nothing; otherwise the checks run, a sent request is followed to its notice, and `isConfirming` ends down; no other field of the form changes |
| ApiConfig.ApiBaseUrl | src/config/api.ts:11-28 | a non-empty override wins; otherwise the local URL exactly in development (DEV or not PROD) and the hosted URL exactly in production; never empty |
| ApiConfig.OverrideIgnoresMode | src/config/api.ts:16-19 | with a non-empty override the mode flags do not matter |
| ApiConfig.EmptyOverrideIsNone | src/config/api.ts:16-19 | an empty override behaves as no override |
| ApiConfig.ApiUrl | src/config/api.ts:37-39 | the URL starts with the base URL and the rest is exactly the endpoint |
| ApiConfig.ApiUrlInjective | src/config/api.ts:37-39 | different endpoints give different URLs |
| ApiConfig.GetTractor | src/config/api.ts:48 | the path is "/api/tractors/" followed exactly by the id |
| ApiConfig.GetTractorInjective | src/config/api.ts:48 | different ids give different paths |
| ApiConfig.FixedPathsAreTractorPaths | src/config/api.ts:46-48 | the register and confirm-rental paths are the tractor paths of the ids "register" and "confirm-rental" |
| ApiConfig.DevelopmentUrls | src/config/api.ts:11-50 | in development without an override the configured URLs are the literal localhost addresses the listing and rental pages use |

## Left out

- Network, timers and JSON decoding: `fetch`, `Promise.all`, `res.json()`/`res.text()`, `setInterval` and the 15-second cadence are not modelled. Each request is an abstract outcome passed in (`Read`, `WriteResponse`, `FetchOutcome`, `ConfirmResponse`, `Option<TractorData>`).
- Numeric text conversion: `parseFloat` and `Number` are function parameters `string -> Option<int>`. Floating-point values and number formats are not modelled, and numbers are unbounded integers.
- Case mapping: `toLowerCase` is modelled on ASCII letters only.
- Time formatting: `toLocaleTimeString` is the `formatTime` parameter of the dashboard poll.
- Presentation: JSX, charts, icons, colours, toasts and alerts, the emoji suggestion texts (an enum here), `navigate` and its 2-second redirect, the `window.open` downloads and `toLocaleString` are left out.
- React rendering: the `fetchData` closure of the dashboard is modelled by passing the node values it sees (`BeginPoll`). The interval's first-render closure is modelled by `Tick`.
- React state batching: a button's `disabled` takes effect once the flag is set. Two clicks landing before React re-renders are not modelled.
- Input handlers: the form's `onChange` handlers and the rental-type buttons are plain field assignments with no logic, and have no methods of their own. The listing's search box and switch do have methods.
- The hard-coded ThingSpeak channel addresses and keys are not reproduced. The pages' literal `http://localhost:5000` URLs are related to the configuration by `ApiConfig.DevelopmentUrls` only.
- RentTractor.RentalForm.constructor: the route parameter `id` is taken as always present, since the page is only reached through `/rent/:id`.
- Malformed feed bodies: a `feeds` value that is not an array, and records lacking the fields read, are not modelled. A body is taken to be JSON `null` (`NullBody`), or an object whose `feeds` is an array of records or missing.
- TractorListing.Listing.CompleteFetch: a successful response whose body is not an array of tractor records is not modelled. The model takes the body to be such an array.
- Routing, i18n and layout: `src/App.tsx`, `src/components/layout/Navbar.tsx` and `src/components/layout/Layout.tsx` are not part of this model.
