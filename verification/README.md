# Price floors, privacy scrubbing and the katana tracker module, in Dafny

This project models four parts of a Prebid Server repository and proves
properties of the model.

- **The dynamic price-floor fetcher** (`floors/fetcher.go`). It has a read
  path (`Fetch`) that answers from a cache and asks for a fetch on a miss.
  A scheduler goroutine keeps the registered URLs, a min-heap of due
  refetches ordered by fetch time, and hands work to a worker pool through
  `TrySubmit`. Each worker fetches, size-checks, parses and validates a
  floors document, caches it with a TTL, and sends a refetch request back to
  the scheduler. The goroutine becomes a state machine: one step function per
  `select` arm, with the pool's answer, the clock and the HTTP outcome as
  inputs. The heap is a verified binary heap that follows `container/heap`.
- **The PII scrubber** (`privacy/scrubber.go`). It masks IP addresses,
  drops or rounds geo data, clears device and user identifiers, and removes
  `eids`, `data` and `tid` entries from JSON extensions.
- **The katana module's request hook**
  (`modules/prebid/katana/hook_processedauctionrequest.go`). It derives a
  request context from the bid request: publisher, page, platform, user
  agent, IP, country, source/origin, per-impression data, and the device
  context. The device context comes from `utils/device.go` (platform
  detection, IFA-type normalisation) and `models/device.go` (the
  `device.ext` accessors).
- **The katana trackers** (`modules/prebid/katana/tracker`).
  - `CreateTracker` builds a tracker record from a bid and the response's
    floor details (`utils/floors.go`).
  - `constructTrackerURL` turns the record into a query URL.
  - `InjectTrackers` puts the URL into banner creatives, or into video
    creatives through a VAST wrapper or a VAST edit.

Library calls the code relies on enter the model as function-typed
parameters, and their behaviour is not modelled:

- `url.Parse`, `url.Values.Encode`, `govalidator.IsURL`;
- `fmt.Sprint` of a float;
- the etree VAST edit.

JSON extensions are represented by what parsing them yields: absent,
`null`, not an object, or an object map.

Modules, one per file:

- `Base`, `Text`, `Decimal`: `Option`/`Result`, the string functions of
  Go's `strings` package, and `strconv.Itoa`/`Atoi`.
- `OpenRtb`, `PriceFloors`: the request, response and floor records.
- `FetchQueue`, `FloorValidation`, `FloorFetcher`: the fetcher.
- `Scrubber`.
- `DeviceModel`, `DevicePlatformDetection`, `KatanaModels`,
  `FloorsDetailsMapping`, `ProcessedAuctionHook`: the hook and device
  context.
- `TrackerUrl`, `TrackerCreate`, `TrackerInject`: the trackers.

Where the code and its documentation disagree, the model follows the code.
The one exception is the coordinate rounding listed under "## Findings":
the scrubs use the corrected rounding, and the code as written is modelled
alongside it.

- Three validation messages (the document skip rate, the model weight and
  the group skip rate) say a value must be "less than 100". The checks
  accept 100 itself; `FloorValidation.ValidationBoundaries` and
  `FloorValidation.DocumentSkipRateBoundary` state this. Likewise the rule
  count message says "less than MaxRules" while exactly MaxRules rules
  pass, and the default message says "greater than 0" while a default of
  0 passes.
- The ticker arm of the scheduler loop pops due entries until none is due.
  A rejected `TrySubmit` pushes the entry straight back, so with a saturated
  pool the loop keeps popping the same entry within one tick and never
  returns to the `select`. `FloorFetcher.SweepSpinsWhenSaturated` states
  this.
- The `openrtb_ext` string constants (`"none"`, `"success"`, `"error"`,
  `"inprogress"`, `"timeout"` and the floor locations) are not part of this
  model. They are declared here with their upstream values.

## Model

| member | source | states |
|---|---|---|
| `FetchQueue.Swap` | floors/fetcher.go:63-65 | exchanges exactly two entries, keeps every other entry, and keeps the queue a permutation |
| `FetchQueue.Up` | floors/fetcher.go:67-70 | sifting the last entry up turns a heap broken only at that entry into a heap with the same entries |
| `FetchQueue.Down` | floors/fetcher.go:72-79 | sifting down inside a prefix restores the heap order of that prefix, keeps the entries, and leaves the rest untouched |
| `FetchQueue.EarliestChild` | floors/fetcher.go:59-61 | the child chosen for sifting down is a child of the node and is due no later than its sibling |
| `FetchQueue.DownSettled` | floors/fetcher.go:59-61 | a node no later than its earliest child closes the heap order |
| `FetchQueue.DownSwapped` | floors/fetcher.go:63-65 | swapping a node with an earlier earliest child moves the only defect one level down |
| `FetchQueue.Push` | floors/fetcher.go:67-70 | pushing keeps the heap order and adds exactly the new entry |
| `FetchQueue.Top` | floors/fetcher.go:81-87 | there is no top exactly when the queue is empty, and a top is a queued entry |
| `FetchQueue.Pop` | floors/fetcher.go:72-79 | pop returns the root and a heap of the remaining entries, so nothing is lost or added |
| `FetchQueue.RootIsEarliest` | floors/fetcher.go:59-61 | in a heap the root is due no later than any entry |
| `FetchQueue.TopIsEarliest` | floors/fetcher.go:81-87 | the top of a non-empty heap is due no later than every queued entry |
| `FloorValidation.CheckGroup` | floors/fetcher.go:295-311 | a model group passes exactly when its rule count, weight, skip rate and default are in range; otherwise the error is that of the first failing check in source order (count, weight, skip rate, default) and never a document-level error |
| `FloorValidation.CheckGroups` | floors/fetcher.go:295-311 | the loop passes exactly when every group is acceptable; otherwise it reports the error of the first failing group, at whatever index |
| `FloorValidation.ValidateRules` | floors/fetcher.go:282-314 | a document passes exactly when it has data, at least one model group, a skip rate in 0..100 and only acceptable groups; the checks short-circuit in order: missing data, then no groups, then the document skip rate, then the group loop |
| `FloorValidation.ValidationBoundaries` | floors/fetcher.go:295-311 | MaxRules rules pass and one more fails; weights 1 and 100 pass and 0 and 101 fail; group skip rate 100 passes; default 0 passes |
| `FloorValidation.DocumentSkipRateBoundary` | floors/fetcher.go:291-293 | a document whose groups are acceptable passes with skip rate 100 and fails with 101 |
| `FloorValidation.FetchAndValidate` | floors/fetcher.go:215-240 | rules come back exactly for a response within the size cap that parses and validates; they come back with the response's max-age, and a failure reports max-age 0 |
| `FloorValidation.CacheTtl` | floors/fetcher.go:154-157 | the fetched max-age is used exactly when it is non-zero, above the period and below MaxInt32; otherwise the account max-age is used |
| `FloorValidation.CacheTtlRange` | floors/fetcher.go:154-157 | the TTL is the account max-age or a fetched max-age strictly between the period and MaxInt32 |
| `FloorFetcher.Fetch` | floors/fetcher.go:124-147 | `none` exactly when dynamic data is off or the URL is empty or invalid; a cache hit gives success with the stored rules exactly when they have data and error otherwise; a miss gives in-progress and queues a first fetch only when fetching is enabled with a positive timeout; the scheduler state is never changed |
| `FloorFetcher.Submit` | floors/fetcher.go:178-185 | an accepted task joins the running set; a rejected one is pushed back on the heap |
| `FloorFetcher.HandleMessage` | floors/fetcher.go:193-201 | a refetch request is queued; a first request for an unregistered URL registers it and is submitted; a repeated first request changes nothing |
| `FloorFetcher.Receive` | floors/fetcher.go:193-201 | a message is taken exactly when the channel holds one, in FIFO order |
| `FloorFetcher.SweepStep` | floors/fetcher.go:202-207 | the sweep stops exactly when nothing is due; otherwise it takes the earliest due entry and submits it |
| `FloorFetcher.SweepRun` | floors/fetcher.go:204-207 | a finished sweep leaves only entries due after now, and keeps the registrations, channel and cache |
| `FloorFetcher.WorkerDone` | floors/fetcher.go:149-169 | a finished worker caches valid rules under the chosen TTL, leaves the cache alone otherwise, and always sends a refetch due one period later |
| `FloorFetcher.Evict` | floors/fetcher.go:111-122 | expiry removes exactly one cache entry |
| `FloorFetcher.InitialInv` | floors/fetcher.go:187-213 | the fresh fetcher satisfies the invariant |
| `FloorFetcher.NextKeepsInv` | floors/fetcher.go:187-213 | every event keeps the queue a heap, the cache holding only validated rules, and a live task for every registered URL; registrations only grow |
| `FloorFetcher.MessageKeepsPending` | floors/fetcher.go:193-201 | handling a channel message keeps the invariant |
| `FloorFetcher.MessageTaskPending` | floors/fetcher.go:194-199 | after a refetch or a first registration, the message's URL has a queued or running task |
| `FloorFetcher.OtherTaskPending` | floors/fetcher.go:193-201 | handling a message keeps a live task for every other registered URL |
| `FloorFetcher.SweepKeepsPending` | floors/fetcher.go:202-207 | a sweep iteration keeps the invariant |
| `FloorFetcher.SweepKeepsPendingFor` | floors/fetcher.go:204-207 | a URL whose task is popped by the sweep still has it, either running or back on the heap |
| `FloorFetcher.WorkerKeepsPending` | floors/fetcher.go:149-169 | a finished worker keeps the invariant because its refetch message replaces the running task |
| `FloorFetcher.RunKeepsInv` | floors/fetcher.go:187-213 | along any sequence of events the invariant holds and no URL is unregistered |
| `FloorFetcher.ReachableNeverFetchError` | floors/fetcher.go:130-138 | from any reachable state the read path never reports `error`, because only validated rules with data are cached |
| `FloorFetcher.SweepSpinsWhenSaturated` | floors/fetcher.go:202-207 | while an entry is due and the pool rejects every submission, the sweep never exits and loses no entry |
| `FloorFetcher.RejectedStep` | floors/fetcher.go:178-185 | one rejected submission puts the due entry back on the heap and leaves the sweep facing the same queue |
| `FloorFetcher.SweepExitsWhenAccepted` | floors/fetcher.go:204-207 | when the pool accepts at least as many submissions as are queued, the sweep exits |
| `Scrubber.ScrubIPV4Lowest8` | privacy/scrubber.go:244-251 | the address up to its last dot followed by `.0`; empty exactly when there is no dot |
| `Scrubber.ScrubIPV4Idempotent` | privacy/scrubber.go:244-251 | masking twice is masking once |
| `Scrubber.RemoveLowestIPV6Segment` | privacy/scrubber.go:274-282 | the address up to its last colon; empty when there is none |
| `Scrubber.ScrubIPV6Lowest16Bits` | privacy/scrubber.go:253-261 | drops the last segment and appends `:0`; empty exactly when no segment can be dropped |
| `Scrubber.ScrubIPV6Lowest32Bits` | privacy/scrubber.go:263-272 | drops two segments and appends `:0:0`; empty exactly when two cannot be dropped |
| `Scrubber.IPv6ScrubKeepsPrefix` | privacy/scrubber.go:253-272 | a masked IPv6 address is a colon-terminated prefix of the original plus zero segments |
| `Scrubber.ScrubGeoFull` | privacy/scrubber.go:284-290 | any geo becomes the empty geo, and no geo stays none |
| `Scrubber.RoundCoordinateAsWritten` | privacy/scrubber.go:298-299 | the source's truncating rounding moves a coordinate by more than -0.005 and less than 0.015, and by at most 0.005 upward when x*100+0.5 is non-negative |
| `Scrubber.RoundCoordinateAsWrittenMissesNegatives` | privacy/scrubber.go:298-299 | the source's rounding takes -1.234 to -1.22, more than half a hundredth away |
| `Scrubber.RoundCoordinate` | privacy/scrubber.go:298-299 | rounding half up lands within half a hundredth of the coordinate |
| `Scrubber.RoundCoordinateAgreesOnNonNegatives` | privacy/scrubber.go:298-299 | on non-negative coordinates the corrected rounding equals the source's, in exact arithmetic |
| `Scrubber.ScrubGeoPrecision` | privacy/scrubber.go:292-301 | corrected rounding: only latitude and longitude change, each by at most half a hundredth |
| `Scrubber.ScrubGeoPrecisionAsWritten` | privacy/scrubber.go:292-301 | the source's rounding: only latitude and longitude change, each by more than -0.005 and less than 0.015 |
| `Scrubber.ScrubGeoPrecisionAgreesOnNonNegatives` | privacy/scrubber.go:292-301 | with non-negative coordinates the corrected and the as-written scrub give the same geo, in exact arithmetic |
| `Scrubber.ScrubExtIDs` | privacy/scrubber.go:303-324 | removes exactly the named entry from an object extension and leaves every other extension as it is |
| `Scrubber.ScrubExtIDsIdempotent` | privacy/scrubber.go:303-324 | removing an entry twice is removing it once |
| `Scrubber.ScrubDevice` | privacy/scrubber.go:179-217 | each strategy changes only its own fields: identifiers cleared or kept, IPv4/IPv6 masked as chosen, geo kept, emptied or rounded |
| `Scrubber.ScrubDeviceNoneIsIdentity` | privacy/scrubber.go:179-217 | with every strategy off the device is unchanged |
| `Scrubber.ScrubUser` | privacy/scrubber.go:219-242 | the ID strategy clears buyer UID, ID, year of birth, gender and the `eids` extension; geo follows its strategy; nothing else changes |
| `Scrubber.ScrubUserExt` | privacy/scrubber.go:102-140 | the user extension loses `data` under UFPD and `eids` under EID enforcement; its other entries are kept |
| `Scrubber.ScrubRequestDevice` | privacy/scrubber.go:102-172 | UFPD clears the device identifiers; precise-geo masks the IPs and rounds geo; otherwise the device is kept |
| `Scrubber.ScrubRequestUser` | privacy/scrubber.go:102-172 | UFPD clears the user's first-party fields and `ext.data`; EID enforcement removes `eids` and `ext.eids`; precise-geo rounds the user's geo; each flag changes only its own fields: without UFPD every field but `eids`, `ext` and `geo` is kept, and without EID enforcement `eids` is kept |
| `Scrubber.ScrubRequestImps` | privacy/scrubber.go:147-156 | under TID enforcement each impression loses the `tid` extension entry; impressions are otherwise kept, in order |
| `Scrubber.ScrubRequest` | privacy/scrubber.go:86-177 | only device, user, source TID and impressions change, each as the enforcement flags say |
| `Scrubber.ScrubRequestNoFlagsIsIdentity` | privacy/scrubber.go:86-177 | with no enforcement the request is unchanged |
| `Scrubber.ScrubRequestAgreesWithScrubDevice` | privacy/scrubber.go:158-172 | the request-level device scrub is `ScrubDevice` under the strategies the flags select |
| `DeviceModel.DeviceIFATypeIDTable` | modules/prebid/katana/models/device.go:37-47 | the IFA-type table maps its nine names onto 1..9, and each id names back its entry |
| `DeviceModel.DeviceIFATypeIDInjective` | modules/prebid/katana/models/device.go:37-47 | no two IFA-type names share an id |
| `DeviceModel.ExtDevice.GetStringValue` | modules/prebid/katana/models/device.go:101-115 | a missing key gives not-found; a string gives its trimmed value; a non-string is deleted and reported found with an empty value |
| `DeviceModel.ExtDevice.GetFloatValue` | modules/prebid/katana/models/device.go:125-135 | found exactly when the key holds a number, with that number |
| `DeviceModel.ExtDevice.GetAtts` | modules/prebid/katana/models/device.go:137-143 | ATTS is present exactly when `atts` holds a number |
| `DeviceModel.ExtDevice.SetStringValue` | modules/prebid/katana/models/device.go:145-150 | the key holds the new string and every other entry is kept |
| `DeviceModel.ExtDevice.Delete` | modules/prebid/katana/models/device.go:160-166 | the key is gone and every other entry is kept |
| `DeviceModel.SetThenGetString` | modules/prebid/katana/models/device.go:101-150 | reading back a written string gives it trimmed |
| `DeviceModel.SetIFATypeAndSessionIDRoundTrip` | modules/prebid/katana/models/device.go:117-158 | the IFA type and session ID setters are read back by their getters |
| `DeviceModel.GetStringSettles` | modules/prebid/katana/models/device.go:101-115 | a second read of the same key changes nothing more and gives the same value |
| `DeviceModel.DeletesAreIndependent` | modules/prebid/katana/models/device.go:160-166 | deleting the IFA type does not disturb the session ID or ATTS, and the other way round |
| `DeviceModel.WrongTypeHandling` | modules/prebid/katana/models/device.go:101-135 | a non-string, non-number entry is deleted by the string getter and not found by the float getter |
| `DevicePlatformDetection.ATVOnLineFromMeaning` | modules/prebid/katana/utils/device.go:20 | the scanner finds `ATV` ahead on the same line exactly when one occurs there |
| `DevicePlatformDetection.DThenATVFromMeaning` | modules/prebid/katana/utils/device.go:20 | the scanner finds a `D` followed by `ATV` on the same line exactly when one occurs |
| `DevicePlatformDetection.IsCTVMeaning` | modules/prebid/katana/utils/device.go:66-68 | a user agent is a CTV one exactly when it contains a listed literal or matches `D.*ATV` |
| `DevicePlatformDetection.IsMobile` | modules/prebid/katana/utils/device.go:41-50 | a known device type decides by type; type 0 decides by `mobi`, `tablet` or `ios` in the lower-cased user agent |
| `DevicePlatformDetection.AppPlatform` | modules/prebid/katana/utils/device.go:78-88 | iOS first, then Android, otherwise not defined |
| `DevicePlatformDetection.WebPlatform` | modules/prebid/katana/utils/device.go:90-99 | mobile web exactly for a mobile device, desktop otherwise |
| `DevicePlatformDetection.GetDevicePlatform` | modules/prebid/katana/utils/device.go:71-150 | AMP is mobile web; app and display use their detectors; video is CTV exactly for a CTV device type or, with no type, a CTV user agent, and otherwise follows site or app; other platforms are not defined |
| `DevicePlatformDetection.DevicePlatformNeverUnknownOrWindows` | modules/prebid/katana/utils/device.go:71-150 | the detector never yields the unknown or Windows-app platform |
| `DevicePlatformDetection.CtvAgentNeedsUnknownType` | modules/prebid/katana/utils/device.go:101-142 | a declared mobile device is never CTV, whatever its user agent |
| `DevicePlatformDetection.UpdateDeviceIFADetails` | modules/prebid/katana/utils/device.go:174-203 | a known IFA type sets its id; an unknown one is deleted; a session ID stands in for a missing IFA or type; the platform is never touched |
| `DevicePlatformDetection.ReadExtFacts` | modules/prebid/katana/utils/device.go:174-203 | after the reads the session ID is absent or a string, and a surviving IFA type is the original entry |
| `DevicePlatformDetection.SetKnownIFATypeNormalises` | modules/prebid/katana/utils/device.go:185-190 | storing a trimmed known type leaves the extension normalised |
| `DevicePlatformDetection.DeleteIFATypeNormalises` | modules/prebid/katana/utils/device.go:183-197 | deleting the type leaves the extension normalised |
| `DevicePlatformDetection.SessionIDTypeIsTrimmedAndLower` | modules/prebid/katana/models/device.go:50-61 | the session-ID type name is already trimmed and lower case |
| `DevicePlatformDetection.UpdateNormalisesIFAType` | modules/prebid/katana/utils/device.go:174-203 | afterwards any stored IFA type is a known one, any session ID is a string, and a changed type id is the table id of the stored type |
| `DevicePlatformDetection.KnownIFATypeKept` | modules/prebid/katana/utils/device.go:183-190 | the known-type branch ends normalised |
| `DevicePlatformDetection.IFATypeDropped` | modules/prebid/katana/utils/device.go:183-197 | the unknown-type and no-session branches end normalised |
| `DevicePlatformDetection.SessionIDTypeSet` | modules/prebid/katana/utils/device.go:191-201 | the session-ID branch ends normalised |
| `DevicePlatformDetection.SessionIDOverridesIFAWithoutType` | modules/prebid/katana/utils/device.go:198-201 | without an IFA type, a session ID replaces even a non-empty IFA and sets the session-ID type |
| `DevicePlatformDetection.PopulateDeviceContext` | modules/prebid/katana/utils/device.go:152-172 | the trimmed IFA is always taken; an object or null extension is parsed and normalised; a malformed one is skipped |
| `DevicePlatformDetection.PopulateDeviceContextOutcome` | modules/prebid/katana/utils/device.go:152-172 | the IFA is the trimmed one unless a session ID replaced it, and a parsed extension ends normalised |
| `FloorsDetailsMapping.CodeTablesAreBijective` | modules/prebid/katana/utils/floors.go:22-35 | both code tables are one-to-one onto 0..2 and 0..4 |
| `FloorsDetailsMapping.SourceCode` | modules/prebid/katana/utils/floors.go:92-96 | a location gets a code exactly when it is a known non-empty one, and the code names it back |
| `FloorsDetailsMapping.StatusCode` | modules/prebid/katana/utils/floors.go:97-99 | a status gets a code exactly when it is a known one, and the code names it back |
| `FloorsDetailsMapping.DetailsOf` | modules/prebid/katana/utils/floors.go:104-106 | hard floor exactly when PBS enforcement is on, soft otherwise |
| `FloorsDetailsMapping.SkipFlagReported` | modules/prebid/katana/utils/floors.go:83-88 | the skip flag is 1, 0 or absent exactly as the rules were skipped, not skipped or silent |
| `FloorsDetailsMapping.VersionAndProviderReported` | modules/prebid/katana/utils/floors.go:89-103 | the version is the first model group's; the provider is the data's when it names one, else the rules' |
| `FloorsDetailsMapping.CodesReported` | modules/prebid/katana/utils/floors.go:92-99 | source and status are reported exactly when known, as the codes naming them |
| `FloorsDetailsMapping.GetFloorsDetails` | modules/prebid/katana/utils/floors.go:80-109 | no floors in the response give empty details; otherwise the details of its rules |
| `FloorsDetailsMapping.FetchStatusCodes` | modules/prebid/katana/utils/floors.go:29-35 | the fetcher's statuses reach trackers as their own codes, and an unknown status as none |
| `ProcessedAuctionHook.GetPublisherId` | modules/prebid/katana/hook_processedauctionrequest.go:82-91 | the site publisher's ID, else the app publisher's, else empty |
| `ProcessedAuctionHook.GetPageURL` | modules/prebid/katana/hook_processedauctionrequest.go:93-100 | the app store URL when set, else the site page |
| `ProcessedAuctionHook.GetPlatform` | modules/prebid/katana/hook_processedauctionrequest.go:102-114 | display exactly for a site request, in-app exactly for an app request without a site |
| `ProcessedAuctionHook.GetUserAgent` | modules/prebid/katana/hook_processedauctionrequest.go:116-122 | the device's user agent when non-empty, else the default |
| `ProcessedAuctionHook.GetIP` | modules/prebid/katana/hook_processedauctionrequest.go:151-161 | the device IPv4, else its IPv6, else the default |
| `ProcessedAuctionHook.GetCountry` | modules/prebid/katana/hook_processedauctionrequest.go:162-170 | the device geo country when set, else the user's |
| `ProcessedAuctionHook.GetSourceAndOrigin` | modules/prebid/katana/hook_processedauctionrequest.go:124-140 | source and origin agree: site domain, else the page's host, else the app bundle |
| `ProcessedAuctionHook.ImpCtxOf` | modules/prebid/katana/hook_processedauctionrequest.go:63-77 | no context (a nil dereference) exactly when the imp ext parses without a `prebid` object; otherwise the context copies tag, security and floor, with the rewarded flag for an object ext and none for an unparsable one |
| `ProcessedAuctionHook.AddImpCtxsPanics` | modules/prebid/katana/hook_processedauctionrequest.go:63-77 | the imp loop panics exactly when some imp's ext parses without `prebid` |
| `ProcessedAuctionHook.ImpIDs` | modules/prebid/katana/hook_processedauctionrequest.go:63-77 | the set of impression IDs is exactly the IDs in the list |
| `ProcessedAuctionHook.AddImpCtxsKeys` | modules/prebid/katana/hook_processedauctionrequest.go:63-77 | when the loop completes, the map holds the old keys plus every impression ID |
| `ProcessedAuctionHook.AddImpCtxsLastWins` | modules/prebid/katana/hook_processedauctionrequest.go:63-77 | for a repeated impression ID the last impression's context wins |
| `ProcessedAuctionHook.AddImpCtxsUntouched` | modules/prebid/katana/hook_processedauctionrequest.go:63-77 | entries for IDs not in the request are kept |
| `ProcessedAuctionHook.EnrichRequestCtx` | modules/prebid/katana/hook_processedauctionrequest.go:49-77 | no context exactly when the imp loop panics; otherwise every derived field comes from its getter, the device platform from the detector, and untouched fields are kept |
| `ProcessedAuctionHook.HandleProcessedAuctionHook` | modules/prebid/katana/hook_processedauctionrequest.go:14-80 | a missing request passes silently; a missing module or request context rejects with its message; a non-numeric publisher rejects but still stores the context with `Atoi`'s value; an imp without `prebid` then makes the hook panic; otherwise the enriched context is stored |
| `ProcessedAuctionHook.HookPanicsOnImpWithoutPrebid` | modules/prebid/katana/hook_processedauctionrequest.go:63-77 | a request past the publisher check panics exactly when one of its imps has an ext that parses without `prebid` |
| `ProcessedAuctionHook.PublisherIDDecidesRejection` | modules/prebid/katana/hook_processedauctionrequest.go:41-47 | the hook returns a rejection exactly when the publisher ID does not parse; an empty ID is rejected, and a decimal int64 is stored when the hook returns |
| `ProcessedAuctionHook.RequestCtxWrittenBackAfterChecks` | modules/prebid/katana/hook_processedauctionrequest.go:23-39 | a returning hook writes the context back exactly when a request context was found, and a panic happens only after that check |
| `Decimal.Atoi` | modules/prebid/katana/hook_processedauctionrequest.go:42 | `strconv.Atoi`: valid exactly for an optional sign and digits within int64, giving that number; a number outside int64 gives the bound on its side; digits that pass the uint64 maximum before a non-digit give the bound on the sign's side; any other malformed text gives 0 |
| `Decimal.ParseUintDigits` | modules/prebid/katana/hook_processedauctionrequest.go:42 | `ParseUint`'s digit loop returns a value no smaller than what it started from and within uint64 |
| `Decimal.ParseUintDigitsMeaning` | modules/prebid/katana/hook_processedauctionrequest.go:42 | the loop reports a range error exactly when the digits before the first non-digit are worth more than the uint64 maximum, otherwise a syntax error at a non-digit or the value |
| `Decimal.AtoiFastAgrees` | modules/prebid/katana/hook_processedauctionrequest.go:42 | `Atoi`'s fast path for texts under 19 characters gives the same result as `ParseInt` |
| `Decimal.AtoiClampsOverflowingDigits` | modules/prebid/katana/hook_processedauctionrequest.go:42 | digits worth more than the uint64 maximum give the int64 bound on the sign's side, whatever follows them |
| `Decimal.AtoiOverflowExample` | modules/prebid/katana/hook_processedauctionrequest.go:42 | twenty nines followed by `x` give the largest int64, and with a minus sign the smallest, both as errors |
| `Decimal.ItoaAtoiRoundTrip` | modules/prebid/katana/hook_processedauctionrequest.go:41-47 | parsing a formatted int64 gives it back, marked valid |
| `TrackerUrl.KeyOfName` | modules/prebid/katana/models/constant.go:13-58 | every query key's name parses back to the key |
| `TrackerUrl.KeyNamesDistinct` | modules/prebid/katana/models/constant.go:13-58 | different keys have different names |
| `TrackerUrl.ParamValue` | modules/prebid/katana/tracker/url.go:18-69 | a parameter is present exactly when the tracker carries it |
| `TrackerUrl.TrackerQuery` | modules/prebid/katana/tracker/url.go:17-69 | the query holds exactly the carried keys, each with its parameter value |
| `TrackerUrl.ParamOfQuery` | modules/prebid/katana/tracker/url.go:17-69 | reading a key from the query gives that key's parameter |
| `TrackerUrl.IntegerParamReadsBack` | modules/prebid/katana/tracker/url.go:18-68 | every integer parameter parses back to the tracker's value |
| `TrackerUrl.ConstructTrackerURL` | modules/prebid/katana/tracker/url.go:11-77 | empty exactly when the endpoint does not parse; otherwise the endpoint, `?` and the encoded query |
| `TrackerCreate.DomainURL` | modules/prebid/katana/tracker/create.go:99-101 | always starts with `http`, and `http://` is prefixed only when missing |
| `TrackerCreate.ExtractDomain` | modules/prebid/katana/tracker/create.go:98-109 | the host of the domain parsed as is when it starts with `http`, and with `http://` in front otherwise; `None` when parsing fails |
| `TrackerCreate.ExtractDomainSettles` | modules/prebid/katana/tracker/create.go:98-109 | prefixing is idempotent and does not change the extracted host |
| `TrackerCreate.AdSizeRoundTrip` | modules/prebid/katana/tracker/create.go:38 | the `WxH` ad size parses back to width and height |
| `TrackerCreate.BidAdformat` | modules/prebid/katana/tracker/create.go:58-76 | the ad format is the bid extension's type, empty without one |
| `TrackerCreate.PartnerIDOf` | modules/prebid/katana/tracker/create.go:66-68 | the partner differs from the seat exactly when a different non-empty adapter code is given, and is then that code |
| `TrackerCreate.AdDurationOf` | modules/prebid/katana/tracker/create.go:62-64 | the duration is positive exactly when the video duration is, and is then that duration |
| `TrackerCreate.AdvertiserOf` | modules/prebid/katana/tracker/create.go:78-82 | the host of the first advertiser domain, empty when there is none or it does not parse |
| `TrackerCreate.CreateTracker` | modules/prebid/katana/tracker/create.go:15-96 | the tracker names the request, impression, floors and bid it was built from, with deal `-1` by default, and its URL is built from that tracker |
| `TrackerCreate.BidQuery` | modules/prebid/katana/tracker/url.go:34-39 | the query carries the bid ID, original bid ID and bidder code |
| `TrackerCreate.DealQuery` | modules/prebid/katana/tracker/url.go:40-65 | the query carries the ad size and the deal ID |
| `TrackerCreate.LoggerQuery` | modules/prebid/katana/tracker/url.go:64 | the server-logger flag is always `1` |
| `TrackerCreate.FlagQuery` | modules/prebid/katana/tracker/url.go:26-45 | server-side is carried, and the rewarded flag exactly when it is 1 |
| `TrackerCreate.ZeroFloorsOmitted` | modules/prebid/katana/tracker/url.go:58-63 | zero floor values are left out of the query |
| `TrackerCreate.CreatedTrackerNamesBid` | modules/prebid/katana/tracker/create.go:31-41 | a created tracker's URL names the bid, seat, ad size, server-side 1, a non-empty deal and the logger flag |
| `TrackerCreate.CreatedTrackerFlags` | modules/prebid/katana/tracker/create.go:48-56 | the URL says rewarded exactly for an impression marked rewarded, and never carries floor values |
| `TrackerInject.PricingModel` | modules/prebid/katana/tracker/inject.go:178-180 | the pricing model is the given one, or `CPM` when empty |
| `TrackerInject.PricingCurrency` | modules/prebid/katana/tracker/inject.go:182-185 | the currency is the given one, or `USD` when empty |
| `TrackerInject.PricingOf` | modules/prebid/katana/tracker/inject.go:100-106 | a pricing node is added exactly for a non-zero price, with model and currency filled in |
| `TrackerInject.PricingDefaultsSettle` | modules/prebid/katana/tracker/inject.go:175-188 | filling defaults twice changes nothing, and a value is kept exactly when non-empty |
| `TrackerInject.InjectBannerTracker` | modules/prebid/katana/tracker/inject.go:48-51 | the creative is followed by the hidden-pixel wrap around the tracker URL; the billing URL is kept |
| `TrackerInject.FirstPlaceholderSplice` | modules/prebid/katana/tracker/inject.go:60 | replacing the partner placeholder puts the ad tag in its place and nothing else changes |
| `TrackerInject.SecondPlaceholderSplice` | modules/prebid/katana/tracker/inject.go:61 | replacing the tracker placeholder puts the tracker URL in its place and nothing else changes |
| `TrackerInject.WrapAdTagSplice` | modules/prebid/katana/tracker/inject.go:59-62 | an ad-tag URL becomes the VAST wrapper with the tag as ad URI and the tracker as impression |
| `TrackerInject.InjectVideoCreativeTrackers` | modules/prebid/katana/tracker/inject.go:53-117 | an empty creative is an error; a URL is wrapped; otherwise the trimmed creative is edited, and a failed edit keeps the creative and reports the error |
| `TrackerInject.InjectBid` | modules/prebid/katana/tracker/inject.go:19-42 | only the creative changes: banner and video as injected, any other format reported as invalid |
| `TrackerInject.MissingTrackerReported` | modules/prebid/katana/tracker/inject.go:23-33 | a bid without a tracker is reported as an invalid empty format |
| `TrackerInject.LastErrorMeaning` | modules/prebid/katana/tracker/inject.go:39-41 | there is an error exactly when some bid failed, and it is the last failure |
| `TrackerInject.LastErrorConcat` | modules/prebid/katana/tracker/inject.go:39-41 | a later failure overrides an earlier one |
| `TrackerInject.BidErrors` | modules/prebid/katana/tracker/inject.go:20-42 | one error slot per bid, in order |
| `TrackerInject.InjectBids` | modules/prebid/katana/tracker/inject.go:20-43 | every bid of a seat is injected, in order |
| `TrackerInject.InjectBidsError` | modules/prebid/katana/tracker/inject.go:20-43 | the seat loop keeps the latest error of its bids |
| `TrackerInject.InjectSeats` | modules/prebid/katana/tracker/inject.go:19-44 | every seat keeps its bids' count and has each bid injected |
| `TrackerInject.InjectSeatsError` | modules/prebid/katana/tracker/inject.go:19-44 | the seat loop keeps the latest error over all seats |
| `TrackerInject.InjectTrackers` | modules/prebid/katana/tracker/inject.go:13-46 | an absent or empty response passes through; otherwise every bid is injected in place and the error is the last failure |
| `TrackerInject.InjectTrackersSucceeds` | modules/prebid/katana/tracker/inject.go:13-46 | no error is returned exactly when every bid succeeded |

## Left out

- HTTP: `fetchFloorRulesFromURL` (request, status, body read, `max-age` header parsing) is left out. It enters as an `HttpOutcome` that carries a size, a parse result and a max-age.
- Concurrency: goroutines, channels, `Stop`, and the worker pool's capacity and timing are left out. The pool is the `accepted` answer to each submission. The channel is a FIFO sequence with no capacity bound.
- Cache: freecache's memory limit and eviction are left out. Expiry is an explicit `Evicted` event. Cached bytes are represented by what decoding them yields, so the JSON marshal and unmarshal round trip is not modelled.
- Time: `time.Now`, the five-minute ticker and `int64` wrap-around of times are left out. The clock is a parameter.
- `FloorFetcher.SweepRun`: the pool answers double as fuel. A run that uses up its answers stops without claiming the loop exited, so it does not state that the real loop terminates.
- `FloorFetcher.SweepSpinsWhenSaturated`: covers as many iterations as answers are given, since an infinite loop cannot be a value.
- Logging, metrics (`glog`, the metrics engine) and `fmt.Println` are left out.
- float64 arithmetic: coordinates, prices and floor values are exact reals. Rounding in float64 can differ: `1.005*100.0` is 100.49999999999999 in float64, so the source rounds latitude 1.005 to 1.00, while both rounding functions here give 1.01.
- `Scrubber.ScrubGeoPrecision`: uses the corrected `RoundCoordinate`, so a negative coordinate is rounded to the nearest hundredth where the source (`ScrubGeoPrecisionAsWritten`) truncates toward zero. The two agree on non-negative coordinates (`ScrubGeoPrecisionAgreesOnNonNegatives`).
- `Scrubber.ScrubDevice`: its reduced-precision geo inherits the corrected rounding of `ScrubGeoPrecision`.
- `Scrubber.ScrubUser`: its reduced-precision geo inherits the corrected rounding of `ScrubGeoPrecision`.
- `Scrubber.ScrubRequestDevice`: its precise-geo rounding inherits the corrected rounding of `ScrubGeoPrecision`.
- `Scrubber.ScrubRequestUser`: its precise-geo rounding inherits the corrected rounding of `ScrubGeoPrecision`.
- `Scrubber.ScrubRequest`: inherits the corrected rounding through the device and user scrubs. It also returns a new request. Go writes the source TID and the impression extensions into the caller's request and returns that same pointer; only the device and user are copies. The aliasing is not modelled.
- Float formatting (`fmt.Sprint`, `%v`) is left out. It enters `TrackerUrl.UrlEnv` as a function.
- `url.Parse`, `url.Values.Encode` and `govalidator.IsURL` are left out. They enter as functions.
- XML: the etree VAST edit (`ReadFromString`, finding `Ad`/`Wrapper`/`InLine`, inserting `Impression`, `InjectPricingNodeInVAST`, `InjectPricingNodeInExtension`, `updatePricingNode`) is left out. It enters as the `VastEdit` function. Only the pricing defaults of `newPricingNode` and `updatePricingNode` are modelled.
- `GetBidLevelFloorsDetails` and `RoundToTwoDigit` in `utils/floors.go` are left out. They read bid-level floors, which `CreateTracker` never sets (floor values are always zero here).
- Regular expressions: only the patterns of `utils/device.go` are modelled, as substring searches. `ToLower` maps ASCII letters only.
- `TrackerInject.WrapAdTagSplice`: requires that the ad tag does not itself contain the tracker placeholder. Go's second replacement would also rewrite such an occurrence.
- `TrackerUrl.IntegerParamReadsBack`: requires the value to fit in `int64`. Go's `int` is 64-bit, so every value the source can hold meets this.
- `TrackerCreate.AdSizeRoundTrip`: requires the width and height to fit in `int64`, for the same reason.
- `FloorsDetailsMapping.DetailsOf`: its contract states only the floor type. The other fields are stated by `SkipFlagReported`, `VersionAndProviderReported` and `CodesReported`.
- `ProcessedAuctionHook.HandleProcessedAuctionHook`: a panic is the outcome `Panicked`, with no result. Whether the hook framework recovers from it, and what it then does with the request, is not part of this model.
- `strconv` is not part of this model's sources. `Decimal.Atoi` follows Go's `Atoi`, `ParseInt` and `ParseUint` for base 10 on a 64-bit platform. It counts characters where Go counts bytes for the fast-path cut-off; `AtoiFastAgrees` shows the cut-off makes no difference.
- JSON decoding of `device.ext`, `imp.ext` and `bid.ext` is left out. The model takes the parsed result: absent, `null`, not an object, or an object map.
- `RequestCtx` fields that the modelled code never writes (SSAI, test group, trackers per bid) are carried unchanged or left out.

## Findings

| source | as written | input that shows it | evidently intended | confidence | as-written member | corrected member |
|---|---|---|---|---|---|---|
| privacy/scrubber.go:298-299 | `float64(int(x*100.0+0.5)) / 100.0`; Go's `int` conversion truncates toward zero | latitude -1.234: -123.4 + 0.5 = -122.9 truncates to -122, giving -1.22 | round to the nearest hundredth, -1.23 (the comment says "Round") | medium, not executed | `Scrubber.RoundCoordinateAsWrittenMissesNegatives` | `Scrubber.RoundCoordinate` |
