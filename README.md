# CaucaConecta — a verified model of its front-end core

CaucaConecta is a community-safety web application for the Cauca department of
Colombia. Its React front end covers:

- a map of reported incidents;
- a form to report an incident;
- three request forms for victims: emergency help, a safe-zone place, and resources;
- the page that holds the session, the incident list and the tabs;
- an electoral side panel: an API-key configuration card, a three-step visitor funnel and a live demo counter.

This project models that core in Dafny, module by module:

| module | models |
|---|---|
| `Types` | the entities and the label tables of `src/types/index.ts` |
| `RegionCoords` | the municipality table and its lookup (`src/utils/municipiosCoords.ts`) |
| `JsNumbers` | JavaScript `parseInt` on the strings the forms collect |
| `TextEncoding` | UTF-8 encoding and the Mac OS Roman decoding that explain the garbled icons of the drawn map |
| `ReportIncident` | the incident report form and the incident it builds |
| `IndexPage` | the main page: session, incident list, menu, tabs, reports counter and badges |
| `CaucaMap` | the drawn map: icons, colour classes, focus on the user's region, geolocation flag, details panel |
| `OpenStreetCaucaMap` | the Leaflet map: marker colours and icons, the marker list rebuilt from the incidents, the view |
| `EmergencyRequest`, `SafeZoneRequest`, `ResourceRequest` | the three victim forms and the requests they submit |
| `ApiConfiguration` | the key masking and status lines, and the panel's state |
| `VisitorsFunnel` | the three-step visitor form |
| `DemoViewer` | the demo counters and the five-event window |

React state that a component updates through `setState` is a Dafny `class`. Its
methods change exactly the fields they name and state the whole new state. The
values those methods compute are pure functions. The lemmas state what the
application promises about those functions: round trips, idempotence,
commutation of independent edits, injectivity, bounds and table agreement.

Browser form validation is modelled as a precondition of the submit method:
- the `required` attribute on an input;
- a `disabled` submit button;
- a button that exists only on some step.

The precondition holds whenever the browser lets the handler run; it may
admit more, because the number-input checks below are not modelled. The doc
comment of each such method cites the lines that carry the attributes.

Randomness, clocks and UUIDs are parameters:
- `crypto.randomUUID()` and `new Date()` are given to the submit methods as `id` and `timestamp`;
- each `Math.random()` draw is a real in `[0, 1)` inside a `TickInput`.

Geolocation is split into a request method and the two callbacks that end it.

## Model

| member | source | states |
|---|---|---|
| Types.IncidentTypesTable | src/types/index.ts:128-134 | every incident type has a label, there are five, and distinct types have distinct labels |
| Types.SeverityLevelsTable | src/types/index.ts:136-141 | every severity has a label, there are four, and the labels are distinct |
| Types.UserRolesTable | src/types/index.ts:143-147 | every role has a label, there are three, and the labels are distinct |
| RegionCoords.Lookup | src/utils/municipiosCoords.ts:38 | a hit returns the coordinates of an entry whose key is exactly the name; a miss means no entry has that key |
| RegionCoords.TableShape | src/utils/municipiosCoords.ts:3-35 | the table holds 31 municipalities, each at zoom 10, 11 or 12 |
| RegionCoords.NamesDistinct | src/utils/municipiosCoords.ts:3-35 | the municipality names are pairwise distinct |
| RegionCoords.NamesOfTable | src/utils/municipiosCoords.ts:3-35 | the name list is the table's keys in order |
| RegionCoords.TableNamesDistinct | src/utils/municipiosCoords.ts:3-35 | no key of the table occurs twice |
| RegionCoords.LookupHit | src/utils/municipiosCoords.ts:38 | in a table with distinct keys, looking up an entry's key yields that entry's coordinates |
| RegionCoords.TableHit | src/utils/municipiosCoords.ts:37-39 | every municipality of the table resolves to its own coordinates |
| RegionCoords.AnyRegionZoom | src/utils/municipiosCoords.ts:37-39 | for any region string the zoom is 8, 10, 11 or 12 |
| RegionCoords.LookupMiss | src/utils/municipiosCoords.ts:38 | a name that is not a key yields the Popayán fallback at zoom 8 |
| RegionCoords.PopayanEntry | src/utils/municipiosCoords.ts:4 | Popayán resolves to (2.4448, -76.6147) at zoom 12 |
| RegionCoords.CaseSensitive | src/utils/municipiosCoords.ts:38 | a lower-cased municipality name misses and falls back |
| RegionCoords.DefaultIsPopayanZoomedOut | src/utils/municipiosCoords.ts:4 | the fallback has Popayán's latitude and longitude and differs only in zoom (8 against 12) |
| JsNumbers.DigitValue | src/components/incidents/ReportIncident.tsx:57 | a character's digit value lies between -1 (not a digit) and radix - 1 |
| JsNumbers.DigitPrefix | src/components/incidents/ReportIncident.tsx:57 | the longest prefix of digits: every character is a digit and the next one is not |
| JsNumbers.SkipWhiteSpace | src/components/incidents/ReportIncident.tsx:57 | the result is a suffix of the input that does not start with white space |
| JsNumbers.ParseDigits | src/components/incidents/ReportIncident.tsx:57 | the result is NaN exactly when no digit starts the string |
| JsNumbers.DecimalString | src/components/incidents/ReportIncident.tsx:57 | the decimal spelling of a count is non-empty and all digits |
| JsNumbers.DecimalStringValue | src/components/incidents/ReportIncident.tsx:57 | the digits of the decimal spelling of n have value n |
| JsNumbers.DigitPrefixOfDigits | src/components/incidents/ReportIncident.tsx:57 | an all-digit string is its own digit prefix |
| JsNumbers.SkipNothing | src/components/incidents/ReportIncident.tsx:57 | parsing a string that does not start with white space skips nothing |
| JsNumbers.UnsignedDecimal | src/components/incidents/ReportIncident.tsx:57 | the unsigned parse of the decimal spelling of n is n |
| JsNumbers.ParseIntDecimal | src/components/incidents/ReportIncident.tsx:57 | parseInt of the decimal spelling of n is n (round trip) |
| JsNumbers.ParseIntNegativeDecimal | src/components/incidents/ReportIncident.tsx:57 | parseInt of "-" followed by the spelling of n is -n |
| JsNumbers.ParseIntNoDigits | src/components/incidents/ReportIncident.tsx:57 | "", "abc" and "0x" parse to NaN |
| JsNumbers.ParseIntStopsAtNonDigit | src/components/incidents/ReportIncident.tsx:57 | parsing stops at the first non-digit: "1.9" gives 1 |
| JsNumbers.ParseIntHex | src/components/incidents/ReportIncident.tsx:57 | a "0x" prefix switches to radix 16: "0x1A" gives 26 |
| TextEncoding.Utf8 | src/components/map/CaucaMap.tsx:43-47 | a character encodes to 1 to 4 bytes, and to one byte, its own code, exactly when it is ASCII |
| TextEncoding.Utf8Encode | src/components/map/CaucaMap.tsx:43-47 | the encoding is at least as long as the string, and equally long exactly when every character is ASCII |
| TextEncoding.MacRomanDecode | src/components/map/CaucaMap.tsx:43-47 | Mac OS Roman decoding yields one character per byte |
| TextEncoding.Utf8EncodeConcat | src/components/map/CaucaMap.tsx:43-47 | encoding distributes over concatenation |
| TextEncoding.MacRomanDecodeEach | src/components/map/CaucaMap.tsx:43-47 | each decoded character is the table character of its byte |
| TextEncoding.MacRomanDecodeConcat | src/components/map/CaucaMap.tsx:43-47 | decoding distributes over concatenation |
| TextEncoding.MisreadConcat | src/components/map/CaucaMap.tsx:43-47 | reading UTF-8 text as Mac OS Roman distributes over concatenation |
| TextEncoding.MisreadChar | src/components/map/CaucaMap.tsx:43-47 | a misread character is the Mac OS Roman decoding of its UTF-8 bytes |
| TextEncoding.AsciiUnchanged | src/components/map/CaucaMap.tsx:43-47 | ASCII text survives the misreading unchanged |
| TextEncoding.NonAsciiAltered | src/components/map/CaucaMap.tsx:233 | a string with any non-ASCII character comes out strictly longer, so it is altered |
| ReportIncident.ApplyEdit | src/components/incidents/ReportIncident.tsx:79-81 | an edit sets its own field to the new value and leaves every other field as it was |
| ReportIncident.AgreeEverywhere | src/components/incidents/ReportIncident.tsx:26-33 | two forms that agree on every field are equal (the fields cover the form) |
| ReportIncident.EditOverwrites | src/components/incidents/ReportIncident.tsx:79-81 | a second edit of the same field overwrites the first |
| ReportIncident.Prefill | src/components/incidents/ReportIncident.tsx:30 | without a user location the location field starts empty |
| ReportIncident.NumberOr | src/components/incidents/ReportIncident.tsx:50-51 | JavaScript `\|\|` on a coordinate: a missing or zero value takes the fallback, any other value is kept |
| ReportIncident.TextOr | src/components/incidents/ReportIncident.tsx:52 | JavaScript `\|\|` on text: an empty string takes the fallback, any other is kept |
| ReportIncident.BuildIncident | src/components/incidents/ReportIncident.tsx:39-58 | no incident exactly when type or severity is missing; otherwise an active incident by the user, in the user's municipality, with the Popayán fallback coordinates, the typed or regional address, and a parsed count exactly when one was typed |
| ReportIncident.BuiltLocationComplete | src/components/incidents/ReportIncident.tsx:49-54 | every built incident has both an address and a municipality |
| ReportIncident.AddressIsTyped | src/components/incidents/ReportIncident.tsx:52 | when the required fields are filled, the address is the typed location and never the region fallback |
| ReportIncident.ZeroLatitudeFallsBack | src/components/incidents/ReportIncident.tsx:50 | a user at latitude 0 is placed at the fallback latitude 2.4448 |
| ReportIncident.AffectedPeopleParsed | src/components/incidents/ReportIncident.tsx:57 | a typed count n is stored as the number n |
| ReportIncident.ReportIncidentForm.constructor | src/components/incidents/ReportIncident.tsx:26-35 | the form starts empty except for the location prefill; not loading, no success |
| ReportIncident.ReportIncidentForm.HandleChange | src/components/incidents/ReportIncident.tsx:79-81 | the form becomes the edited form; the flags do not change |
| ReportIncident.ReportIncidentForm.HandleSubmit | src/components/incidents/ReportIncident.tsx:37-77 | submits the built incident; a missing type or severity changes nothing; a successful callback resets the form and sets success; a failing one keeps the form; loading ends false |
| IndexPage.NewIncident | src/pages/Index.tsx:133-139 | the stored incident carries the given id and time, is not verified, has no verifier, and keeps every field of the report |
| IndexPage.ReportsBy | src/pages/Index.tsx:435 | an incident is counted exactly when it is in the list and was reported by the user, and each is counted as many times as it occurs in the list, so the length is the number of the user's reports |
| IndexPage.ReportsByConcat | src/pages/Index.tsx:435 | the filter distributes over concatenation |
| IndexPage.NoReportsIff | src/pages/Index.tsx:435 | the counter shows 0 exactly when no incident was reported by the user |
| IndexPage.SubmitCountsOnce | src/pages/Index.tsx:141 | a submitted report raises the submitter's counter by exactly one |
| IndexPage.SampleReportCounts | src/pages/Index.tsx:26-66 | on the sample incidents user-1, user-2 and user-3 have one report each and every other user none |
| IndexPage.MenuEntries | src/pages/Index.tsx:192-240 | the menu shows the network entry exactly for a leader, and starts with the map and ends with the profile |
| IndexPage.TabPanels | src/pages/Index.tsx:280-447 | the network panel exists exactly for a leader, and every menu entry has a panel |
| IndexPage.SeverityBadgeMatchesTable | src/pages/Index.tsx:336-338 | the list's severity badge is the severity's label in the severity table |
| IndexPage.AdminShownAsCitizen | src/pages/Index.tsx:407 | as written, an administrator's profile badge reads "Ciudadano", as a citizen's does, unlike the role table |
| IndexPage.ProfileRoleLabel | src/pages/Index.tsx:407 | the corrected profile badge is the role's label in the role table |
| IndexPage.ProfileRoleLabelCorrect | src/pages/Index.tsx:407 | the corrected badge agrees with the written one for citizens and leaders and tells all roles apart |
| IndexPage.IndexState.constructor | src/pages/Index.tsx:18-23 | no user, no incidents, no location, menu closed, map tab, report sheet closed |
| IndexPage.IndexState.LoadSampleIncidents | src/pages/Index.tsx:68-71 | the incident list becomes the sample incidents |
| IndexPage.IndexState.HandleLogin | src/pages/Index.tsx:73-74 | the given user is signed in |
| IndexPage.IndexState.HandleLogout | src/pages/Index.tsx:91-94 | user and location are cleared and the menu closes |
| IndexPage.IndexState.HandleLocationUpdate | src/pages/Index.tsx:101-102 | the location becomes the given one |
| IndexPage.IndexState.SelectFromMenu | src/pages/Index.tsx:192-240 | picking a visible menu entry opens its tab and closes the menu |
| IndexPage.IndexState.HandleIncidentSubmit | src/pages/Index.tsx:133-142 | the new incident is put first, unverified, the rest of the list is unchanged, and the report sheet closes |
| CaucaMap.Misread4 | src/components/map/CaucaMap.tsx:43 | a 4-byte character misreads as the table characters of its four bytes |
| CaucaMap.Misread3 | src/components/map/CaucaMap.tsx:45 | a 3-byte character misreads as the table characters of its three bytes |
| CaucaMap.Misread2 | src/components/map/CaucaMap.tsx:233 | a 2-byte character misreads as the table characters of its two bytes |
| CaucaMap.AttackIconMisread | src/components/map/CaucaMap.tsx:43 | the attack icon as written is the siren emoji read as Mac OS Roman |
| CaucaMap.DisplacementIconMisread | src/components/map/CaucaMap.tsx:44 | the displacement icon as written is the house emoji read as Mac OS Roman |
| CaucaMap.ThreatIconMisread | src/components/map/CaucaMap.tsx:45 | the threat icon as written is the warning sign with its variation selector read as Mac OS Roman |
| CaucaMap.NaturalDisasterIconMisread | src/components/map/CaucaMap.tsx:46 | the natural-disaster icon as written is the wave emoji read as Mac OS Roman |
| CaucaMap.OtherIconMisread | src/components/map/CaucaMap.tsx:47 | the fallback icon as written is the pin emoji read as Mac OS Roman |
| CaucaMap.IconMisencoded | src/components/map/CaucaMap.tsx:41-49 | every icon as written is the misreading of the intended emoji, and differs from it |
| CaucaMap.IncidentIconMatchesList | src/pages/Index.tsx:326-329 | the corrected map icons are the incident list's icons |
| CaucaMap.AccentMisread | src/components/map/CaucaMap.tsx:233 | the accented "í" misreads as the two characters of its UTF-8 bytes |
| CaucaMap.MisreadBetweenAscii | src/components/map/CaucaMap.tsx:233 | between ASCII text, only the misread character changes |
| CaucaMap.CriticalLabelMisread | src/components/map/CaucaMap.tsx:233 | "Crítico" misreads as the label the details panel shows |
| CaucaMap.PopupSeverityMisencoded | src/components/map/CaucaMap.tsx:233-235 | the details-panel severity is the misreading of the list's label; it equals the label exactly for the ASCII labels (all but "Crítico") |
| CaucaMap.IncidentColor | src/components/map/CaucaMap.tsx:51-68 | the class is the type's base colour, one space, then the severity's opacity class |
| CaucaMap.OpacityIncreasing | src/components/map/CaucaMap.tsx:60-65 | each opacity class is "opacity-" and its percentage, and a graver severity has a strictly higher percentage |
| CaucaMap.FirstSpace | src/components/map/CaucaMap.tsx:67 | the first space's position lies within the string |
| CaucaMap.FirstSpaceAfter | src/components/map/CaucaMap.tsx:67 | in a + " " + b, with no space in a, the first space is at the length of a |
| CaucaMap.SplitAtSpace | src/components/map/CaucaMap.tsx:67 | a space-free head joined by one space determines both parts |
| CaucaMap.IncidentColorInjective | src/components/map/CaucaMap.tsx:51-68 | distinct (type, severity) pairs get distinct colour classes |
| CaucaMap.Focus | src/components/map/CaucaMap.tsx:32-38 | with a non-empty region the view is the region's coordinates; without one it stays |
| CaucaMap.FocusLaws | src/components/map/CaucaMap.tsx:98-104 | focusing twice is focusing once, and the first view is at zoom 8, 10, 11 or 12 |
| CaucaMap.UnknownRegionKeepsInitialView | src/components/map/CaucaMap.tsx:28-38 | a region missing from the table leaves the map at its initial centre and zoom 8 |
| CaucaMap.MapState.constructor | src/components/map/CaucaMap.tsx:26-38 | the view is the initial view focused on the user's region; not locating; nothing selected |
| CaucaMap.MapState.HandleRecenterToUser | src/components/map/CaucaMap.tsx:98-104 | the view is refocused on the region, or kept without one |
| CaucaMap.MapState.HandleGetLocation | src/components/map/CaucaMap.tsx:70-74 | locating starts, and a request is made exactly when geolocation exists |
| CaucaMap.MapState.LocationReceived | src/components/map/CaucaMap.tsx:75-83 | the received location is reported and locating ends |
| CaucaMap.MapState.LocationFailed | src/components/map/CaucaMap.tsx:85-88 | locating ends |
| CaucaMap.MapState.SelectIncident | src/components/map/CaucaMap.tsx:144-146 | the clicked incident is selected and passed on |
| CaucaMap.MapState.CloseDetails | src/components/map/CaucaMap.tsx:216 | the selection is cleared |
| OpenStreetCaucaMap.ColorOnlyByCritical | src/components/map/OpenStreetCaucaMap.tsx:77-86 | for a given type, the marker colour depends only on whether the severity is critical |
| OpenStreetCaucaMap.IconsAgree | src/components/map/OpenStreetCaucaMap.tsx:89-98 | the marker emoji are the incident list's and the corrected drawn map's |
| OpenStreetCaucaMap.PopupSeverityMatchesTable | src/components/map/OpenStreetCaucaMap.tsx:160-162 | the popup's severity text is the severity's label in the severity table |
| OpenStreetCaucaMap.MarkerFor | src/components/map/OpenStreetCaucaMap.tsx:111-176 | a marker sits at the incident's coordinates with its colour and emoji, and carries the incident |
| OpenStreetCaucaMap.MarkersFor | src/components/map/OpenStreetCaucaMap.tsx:111-181 | one marker per incident, in list order |
| OpenStreetCaucaMap.MarkersKeepIncidents | src/components/map/OpenStreetCaucaMap.tsx:174-176 | reading the incidents back from the markers gives the incident list |
| OpenStreetCaucaMap.InitialCenter | src/components/map/OpenStreetCaucaMap.tsx:46-48 | the region's coordinates when there is one, otherwise Popayán at zoom 8 |
| OpenStreetCaucaMap.SameStartAsDrawnMap | src/components/map/OpenStreetCaucaMap.tsx:46-48 | both maps start at the same centre and zoom for every region |
| OpenStreetCaucaMap.MapState.constructor | src/components/map/OpenStreetCaucaMap.tsx:42-58 | a map exists exactly when the container does, at the initial centre; no markers, not locating, nothing selected |
| OpenStreetCaucaMap.MapState.RefreshMarkers | src/components/map/OpenStreetCaucaMap.tsx:101-182 | without a map nothing changes; with one the markers are exactly one per incident |
| OpenStreetCaucaMap.MapState.HandleRecenterToUser | src/components/map/OpenStreetCaucaMap.tsx:293-298 | with a region and a map the view moves to the region; otherwise it stays |
| OpenStreetCaucaMap.MapState.HandleGetLocation | src/components/map/OpenStreetCaucaMap.tsx:259-263 | locating starts, and a request is made exactly when geolocation exists |
| OpenStreetCaucaMap.MapState.LocationReceived | src/components/map/OpenStreetCaucaMap.tsx:264-278 | the location is reported, locating ends, and an existing map moves there at zoom 14 |
| OpenStreetCaucaMap.MapState.LocationFailed | src/components/map/OpenStreetCaucaMap.tsx:280-283 | locating ends |
| OpenStreetCaucaMap.MapState.ClickMarker | src/components/map/OpenStreetCaucaMap.tsx:174-177 | the clicked marker's incident is selected and passed on |
| OpenStreetCaucaMap.MapState.CloseDetails | src/components/map/OpenStreetCaucaMap.tsx:360 | the selection is cleared |
| EmergencyRequest.SetFlag | src/components/victims/EmergencyRequest.tsx:137-155 | a checkbox sets its own flag and no other field |
| EmergencyRequest.InitialFlagsClear | src/components/victims/EmergencyRequest.tsx:24-26 | all three vulnerability flags start unchecked |
| EmergencyRequest.SetFlagLaws | src/components/victims/EmergencyRequest.tsx:137-155 | setting a flag to its own value changes nothing; a second setting overrides the first |
| EmergencyRequest.BuildRequest | src/components/victims/EmergencyRequest.tsx:44-54 | the request carries the form, id, time and user, status "pending", and a location exactly when one is known |
| EmergencyRequest.EmergencyRequestForm.constructor | src/components/victims/EmergencyRequest.tsx:18-27 | the form starts at its initial values |
| EmergencyRequest.EmergencyRequestForm.SetUrgency | src/components/victims/EmergencyRequest.tsx:78 | only the urgency changes |
| EmergencyRequest.EmergencyRequestForm.SetRequestType | src/components/victims/EmergencyRequest.tsx:98 | only the request type changes |
| EmergencyRequest.EmergencyRequestForm.SetPeopleAffected | src/components/victims/EmergencyRequest.tsx:125 | only the people count changes |
| EmergencyRequest.EmergencyRequestForm.SetDescription | src/components/victims/EmergencyRequest.tsx:172 | only the description changes |
| EmergencyRequest.EmergencyRequestForm.SetContactMethod | src/components/victims/EmergencyRequest.tsx:181 | only the contact method changes |
| EmergencyRequest.EmergencyRequestForm.HandleCheckbox | src/components/victims/EmergencyRequest.tsx:137-155 | the form becomes the form with that flag set |
| EmergencyRequest.EmergencyRequestForm.HandleSubmit | src/components/victims/EmergencyRequest.tsx:44-57 | with the required fields filled, submits the built request |
| SafeZoneRequest.PriorityFor | src/components/victims/SafeZoneRequest.tsx:51 | priority is "critical" exactly for violence, and "high" otherwise |
| SafeZoneRequest.BuildRequest | src/components/victims/SafeZoneRequest.tsx:44-52 | the request carries the form, id, time and user, type "safe_zone_request", status "urgent", and priority "critical" exactly for violence |
| SafeZoneRequest.PriorityOnlyFromReason | src/components/victims/SafeZoneRequest.tsx:51 | two requests with the same reason have the same priority, whatever else differs |
| SafeZoneRequest.ApplyEdit | src/components/victims/SafeZoneRequest.tsx:76-189 | an edit sets its own field and leaves every other field as it was |
| SafeZoneRequest.AgreeEverywhere | src/components/victims/SafeZoneRequest.tsx:17-26 | two forms that agree on every field are equal |
| SafeZoneRequest.EditsCommute | src/components/victims/SafeZoneRequest.tsx:76-189 | edits of different fields commute |
| SafeZoneRequest.HiddenDetailsKept | src/components/victims/SafeZoneRequest.tsx:119-126 | unchecking the vulnerable box hides the details field but the details typed before are still submitted |
| SafeZoneRequest.SafeZoneRequestForm.constructor | src/components/victims/SafeZoneRequest.tsx:17-26 | the form starts at its initial values |
| SafeZoneRequest.SafeZoneRequestForm.HandleEdit | src/components/victims/SafeZoneRequest.tsx:76-189 | the form becomes the edited form; the details field can be edited only while shown |
| SafeZoneRequest.SafeZoneRequestForm.HandleSubmit | src/components/victims/SafeZoneRequest.tsx:41-55 | with the required fields filled, submits the built request |
| ResourceRequest.Without | src/components/victims/ResourceRequest.tsx:44-48 | removes every occurrence of the id and keeps every other one, with its multiplicity |
| ResourceRequest.WithoutAppend | src/components/victims/ResourceRequest.tsx:47 | the filter distributes over concatenation |
| ResourceRequest.WithoutAbsent | src/components/victims/ResourceRequest.tsx:47 | filtering out an absent id changes nothing |
| ResourceRequest.CheckUncheckRoundTrip | src/components/victims/ResourceRequest.tsx:38-50 | checking then unchecking a resource restores the list |
| ResourceRequest.WithoutNoDuplicates | src/components/victims/ResourceRequest.tsx:47 | filtering keeps a duplicate-free list duplicate-free |
| ResourceRequest.WithText | src/components/victims/ResourceRequest.tsx:116-163 | a text edit sets its own field and nothing else |
| ResourceRequest.LabelOf | src/components/victims/ResourceRequest.tsx:173 | a found label belongs to an option with that id; none is found exactly when no option has it |
| ResourceRequest.SelectedBadges | src/components/victims/ResourceRequest.tsx:168-179 | one badge per selected resource, in order, each the label of its id |
| ResourceRequest.SubmitGate | src/components/victims/ResourceRequest.tsx:187 | the initial form cannot be submitted; a submittable form shows at least one resource badge; typing in a text input never changes whether the button is disabled, and selecting a resource enables it |
| ResourceRequest.ResourceRequestForm.constructor | src/components/victims/ResourceRequest.tsx:18-25 | the form starts empty |
| ResourceRequest.ResourceRequestForm.HandleResourceChange | src/components/victims/ResourceRequest.tsx:38-50 | checking appends the id, unchecking filters it out, and nothing else changes |
| ResourceRequest.ResourceRequestForm.ClickResource | src/components/victims/ResourceRequest.tsx:89-90 | a click on an unselected resource appends it and a click on a selected one filters it out; the list stays duplicate-free and nothing else changes |
| ResourceRequest.ResourceRequestForm.HandleTextChange | src/components/victims/ResourceRequest.tsx:116-163 | the form becomes the form with that text field set |
| ResourceRequest.ResourceRequestForm.HandleSubmit | src/components/victims/ResourceRequest.tsx:52-65 | with a resource selected and the required fields filled, submits the form with id, time, user, type "resource_request" and status "pending" |
| ApiConfiguration.Stars | src/components/electoral/ApiConfiguration.tsx:33 | n asterisks |
| ApiConfiguration.MaskKey | src/components/electoral/ApiConfiguration.tsx:31-35 | the mask has the key's length; a key of 8 or fewer characters is all asterisks; a longer key keeps its first and last four characters and hides the rest |
| ApiConfiguration.MaskKeyIdempotent | src/components/electoral/ApiConfiguration.tsx:31-35 | masking a masked key changes nothing |
| ApiConfiguration.KeyStatus | src/components/electoral/ApiConfiguration.tsx:85 | an empty key shows the placeholder, any other key "Configurada: " and its mask |
| ApiConfiguration.KeyStatusHidesMiddle | src/components/electoral/ApiConfiguration.tsx:85 | no middle character of a long key appears in its status line |
| ApiConfiguration.UrlStatus | src/components/electoral/ApiConfiguration.tsx:123 | an empty URL shows the placeholder, any other exactly "Configurada" |
| ApiConfiguration.UrlStatusRevealsNothing | src/components/electoral/ApiConfiguration.tsx:123 | any two configured URLs show the same status, different from the unconfigured one |
| ApiConfiguration.ApiConfigurationPanel.constructor | src/components/electoral/ApiConfiguration.tsx:17-23 | empty configuration, keys hidden, not saved |
| ApiConfiguration.ApiConfigurationPanel.HandleSave | src/components/electoral/ApiConfiguration.tsx:25-27 | the current configuration is passed on and the panel shows saved |
| ApiConfiguration.ApiConfigurationPanel.SavedTimerElapsed | src/components/electoral/ApiConfiguration.tsx:28 | the saved notice goes away |
| ApiConfiguration.ApiConfigurationPanel.ToggleShowKeys | src/components/electoral/ApiConfiguration.tsx:63 | key visibility flips |
| ApiConfiguration.ApiConfigurationPanel.SetGeminiApiKey | src/components/electoral/ApiConfiguration.tsx:80 | only the Gemini key changes |
| ApiConfiguration.ApiConfigurationPanel.SetSellerChatApiKey | src/components/electoral/ApiConfiguration.tsx:99 | only the SellerChat key changes |
| ApiConfiguration.ApiConfigurationPanel.SetN8nWebhookUrl | src/components/electoral/ApiConfiguration.tsx:118 | only the webhook URL changes |
| VisitorsFunnel.Set | src/components/electoral/VisitorsFunnel.tsx:110-242 | a field edit sets its own field and nothing else |
| VisitorsFunnel.SameFields | src/components/electoral/VisitorsFunnel.tsx:18-28 | two visitor records that agree on all nine fields are equal |
| VisitorsFunnel.SetOwnValue | src/components/electoral/VisitorsFunnel.tsx:110-242 | writing a field's own value back changes nothing |
| VisitorsFunnel.SetsCommute | src/components/electoral/VisitorsFunnel.tsx:110-242 | edits of different fields commute |
| VisitorsFunnel.FieldStep | src/components/electoral/VisitorsFunnel.tsx:92-242 | each field is shown on step 1, 2 or 3, and only the interests field on step 3 |
| VisitorsFunnel.Next | src/components/electoral/VisitorsFunnel.tsx:30-34 | the next step stays valid, advances by one below 3 and stays at 3 |
| VisitorsFunnel.NextTimes | src/components/electoral/VisitorsFunnel.tsx:30-34 | any number of presses keeps the step valid |
| VisitorsFunnel.NextTimesStops | src/components/electoral/VisitorsFunnel.tsx:30-34 | n presses from step s reach min(s + n, 3) |
| VisitorsFunnel.ProgressShowsStep | src/components/electoral/VisitorsFunnel.tsx:72-85 | the indicator lights exactly the circles up to the current step and the arrows before it |
| VisitorsFunnel.Funnel.constructor | src/components/electoral/VisitorsFunnel.tsx:17-28 | step 1 with an empty record |
| VisitorsFunnel.Funnel.HandleNext | src/components/electoral/VisitorsFunnel.tsx:30-34 | the step advances as Next says |
| VisitorsFunnel.Funnel.Back | src/components/electoral/VisitorsFunnel.tsx:212 | the back button of steps 2 and 3 goes one step back |
| VisitorsFunnel.Funnel.SetField | src/components/electoral/VisitorsFunnel.tsx:110-242 | a field shown on the current step is set; the district comes from the five options |
| VisitorsFunnel.Funnel.Submit | src/components/electoral/VisitorsFunnel.tsx:36-41 | the submit button of step 3 hands over the record |
| DemoViewer.FloorTimes | src/components/electoral/DemoViewer.tsx:28-30 | Math.floor(random * k) is an integer below k |
| DemoViewer.Last | src/components/electoral/DemoViewer.tsx:33 | slice(-k): the last k elements, or all when fewer |
| DemoViewer.MakeEvent | src/components/electoral/DemoViewer.tsx:34-45 | an event with the tick's id and time, one of the three kinds and one of the five descriptions |
| DemoViewer.Window | src/components/electoral/DemoViewer.tsx:32-46 | the new window holds at most five events: the last four before, then the new one |
| DemoViewer.Step | src/components/electoral/DemoViewer.tsx:26-47 | a tick raises voters by at most 4, messages by at most 2 and responses by at most 1, none decreasing |
| DemoViewer.EventsOf | src/components/electoral/DemoViewer.tsx:34-45 | one event per tick |
| DemoViewer.WindowIsLastFive | src/components/electoral/DemoViewer.tsx:32-46 | windowing the last five events with a new one is the last five of the extended history |
| DemoViewer.InitValid | src/components/electoral/DemoViewer.tsx:28-43 | a prefix of valid ticks is valid |
| DemoViewer.RunLast | src/components/electoral/DemoViewer.tsx:25-48 | a run is the run of all but the last tick, then that tick |
| DemoViewer.RunKeepsLastFive | src/components/electoral/DemoViewer.tsx:32-46 | after any run the event list is the last five events of the whole history |
| DemoViewer.RunCounters | src/components/electoral/DemoViewer.tsx:28-30 | after n ticks each counter has grown by at most 4n, 2n and n, never shrinking |
| DemoViewer.FromStart | src/components/electoral/DemoViewer.tsx:13-20 | from the initial data the list shows the last five events, and has min(n, 5) of them |
| DemoViewer.Viewer.constructor | src/components/electoral/DemoViewer.tsx:13-20 | playing, with the initial counters and no events |
| DemoViewer.Viewer.Tick | src/components/electoral/DemoViewer.tsx:22-51 | while playing, a tick applies Step |
| DemoViewer.Viewer.TogglePlaying | src/components/electoral/DemoViewer.tsx:71 | play and pause flip |
| Wrappers.GetOr | src/utils/municipiosCoords.ts:38 | a present value is returned, an absent one gives the default |

## Left out

- Rendering: JSX, CSS classes other than the drawn map's colour classes, icons from the icon library, toasts, `alert`, `console` output and the `onClose` callbacks are not modelled.
- Geolocation is a browser API. Only the `isLocating` flag and the two callbacks are modelled. The position is a parameter, and so are the accuracy and the timeout options. Without the API, `isLocating` stays true, as in the code.
- `Index.tsx` `handleLocationRequest` (109-131) forwards a position to `handleLocationUpdate`, which is modelled; its error path only shows a toast. `handleIncidentClick` only logs.
- Leaflet is abstracted. A map is a view (centre and zoom) and a list of markers. The tile layer, popups as HTML, `divIcon` markup, map removal and re-creation when the region changes, and the region and user markers (lines 185-257) are not modelled.
- The drawn map's projection of coordinates to CSS percentages is not modelled. Neither is the demo's `conversionRate`. Both are floating-point display values.
- `crypto.randomUUID()`, `new Date()` and `Math.random()` are parameters. JavaScript `Date` values are whole milliseconds. The sample incidents' local-time dates are read as UTC.
- Property lookup on the municipality table ignores JavaScript's prototype keys. `getCoordsForRegion("toString")` is a miss in the model.
- `LoginForm`, `Header`, `ElectoralDashboard`, `ElectoralPlatform` and `src/types/electoral.ts` are not part of this model. The `EmergencyRequest`, `SafeZone` and `ResourceRequest` interfaces of `src/types/index.ts` are not the shapes the forms submit, so the forms' own records are modelled.
- ApiConfiguration.ApiConfigurationPanel.SetGeminiApiKey: the three inputs carry `disabled` (lines 82, 101, 120), so a user cannot reach these setters today. They model the `onChange` handlers as written.
- ApiConfiguration.ApiConfigurationPanel.HandleSave: the Save button carries `disabled` (line 153), so `handleSave` and its 3-second timer cannot run today. The method and `SavedTimerElapsed` model lines 25-28 as written, without a precondition that would exclude every call.
- JsNumbers.ParseInt: the result is an exact unbounded integer. JavaScript's `parseInt` returns a double, so digit strings above 2^53 round to the nearest double and strings of about 309 or more digits give `Infinity`. The `type="number"` input (ReportIncident.tsx line 167) accepts such strings. The model does not capture this rounding.
- The number inputs' own validation is not modelled: `min="1"` on the people counts of the victim forms, `min="0"` on the affected-people count of `ReportIncident.tsx` (lines 167-171), and the integer step that rejects fractions. The browser holds back a form whose count is below the minimum or fractional; the submit preconditions do not exclude such counts. Counts are kept as the typed strings, as the forms keep them.
- The `Incident` type leaves out the optional `images`, `emergencyContact` and `location.village` fields (`src/types/index.ts` lines 35, 41 and 44). No modelled code reads or writes them.
- Types.CompleteLocation: the sample incidents of `Index.tsx` (line 33) omit `address` and `municipality`, which the `Incident` type declares required. The model makes both optional and proves that every incident built by the report form has them.
- ReportIncident.ReportIncidentForm.HandleSubmit: the state between `setLoading(true)` and the awaited callback is collapsed into one step. The callback's outcome is the `callbackFails` parameter. The `disabled={loading}` button (line 188) is the `!loading` precondition.
- The Radix selects for type and severity are marked `required`, but a Radix select does not block submission natively. The model keeps the handler's own guard on line 39 instead.
- EmergencyRequest.BuildRequest: `user.lastKnownLocation` (line 53) is not a field of the `User` type. The model takes it as an optional parameter.
- ResourceRequest.ResourceRequestForm.HandleResourceChange: React's stale-closure behaviour for two updates in one render is not modelled. Each handler reads the latest state.
- ApiConfiguration.MaskKey: lengths are counted in characters. JavaScript counts UTF-16 code units, which differs only for characters outside the Basic Multilingual Plane.

## Findings

| source | as written | input that shows it | evidently intended | confidence | as-written member | corrected member |
|---|---|---|---|---|---|---|
| src/components/map/CaucaMap.tsx:43-47 | the icon literals are the emoji's UTF-8 bytes read as Mac OS Roman text, so the map shows garbled text in place of the icons | an incident of type attack: the drawn map shows a four-character garbled string instead of the siren emoji | the emoji of the incident list (`Index.tsx` 326-329) and of the Leaflet map (`OpenStreetCaucaMap.tsx` 89-98) | high (not executed) | CaucaMap.IconMisencoded | CaucaMap.IncidentIconMatchesList |
| src/components/map/CaucaMap.tsx:233 | the critical severity label in the details panel is garbled the same way | an incident of severity critical shows "Cr" followed by two garbled characters and "tico" | "Crítico", the severity table's label | high (not executed) | CaucaMap.PopupSeverityMisencoded | IndexPage.SeverityBadgeMatchesTable |
| src/pages/Index.tsx:407 | the profile's account-type badge shows "Ciudadano" for every role other than leader | a user with role admin sees "Ciudadano" as their account type | the role's label in `USER_ROLES`, "Administrador" for an admin | medium (not executed) | IndexPage.AdminShownAsCitizen | IndexPage.ProfileRoleLabelCorrect |
