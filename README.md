# DigiGov citizen portal: complaint lifecycle model

A Dafny model of the logic inside the portal's single script, `script.js`: a bilingual
(English/Hindi) citizen-services page that keeps its data in the browser's local storage.
The model covers:

- the complaint list: filing a complaint, filing a quick complaint, seeding sample data,
  and overwriting a complaint's status;
- the derived views: the official dashboard's counts, its status filter, the status
  labels, and the scheme catalogue's category-and-search filter;
- the citizen and official forms: login and registration checks, the two registers, the
  current-session values, logout, and the language toggle.

Modules, leaf first:

- `Wrappers`: `Option`, standing in for `null`.
- `Strings`: ASCII lower-casing, substring search, and decimal numerals with their
  read-back.
- `Sequences`: `Filter` (for `Array.prototype.filter`) with order, membership,
  concatenation and update lemmas.
- `Messages`: toasts, form verdicts and the portal's message texts.
- `Locale`: the display language.
- `Accounts`: user and official records, the session values and the login and
  registration checks.
- `Complaints`: the complaint record, identifier drawing, first-match lookup, the
  dashboard counts, the status filter, status labels and the sample complaints.
- `Schemes`: the scheme catalogue and `filterSchemes`.
- `SchemeCatalogue`: what the filter returns on the installed catalogue.
- `Portal`: class `App`, which holds the script's global variables. Each method that
  changes one of them is a method of `App`. Ghost fields mirror the local-storage keys,
  and `Persisted()` says that memory and storage agree. Every mutating method keeps
  `Persisted()`.

Three client methods, `Portal.FilingScenario`, `Portal.ResolvingScenario` and
`Portal.UnknownIdScenario`, use only the class contracts. They file a complaint, resolve
`#12345`, and update an unknown identifier, and assert the resulting lists and dashboard
counts.

Behaviour of the code worth knowing, which the model follows:

- The identifier number is `Math.floor(Math.random() * 90000 + 10000)`, so it ranges over
  10000..99999 inclusive. Identifiers are not checked for uniqueness: a draw can repeat an
  existing identifier, including the seeded `#12345`.
- The scheme search reads each scheme's name and description in the current display
  language, so searching "kisan" finds PM Kisan Samman Nidhi only when the language is
  English; in Hindi it finds nothing (`SchemeCatalogue.KisanSearch`).
- `updateComplaintStatus` returns nothing. It shows a success toast only when an identifier
  matched, so the model returns `Option<Toast>`; `Some` means a match was found.
- The complaint forms themselves reject empty fields. The checks are not left to callers.
- `App.KnownStatuses()` holds when every complaint is pending, in progress or resolved.
  Filing, seeding and a status update to one of those three keep it, and while it holds
  the dashboard's three counts add up to its total (`Portal.App.Dashboard`).

## Model

| member | source | states |
|---|---|---|
| `Portal.App.Load` | script.js:2-20 | start-up reads the three lists and the language preference from storage (absent means empty, or English); nobody is logged in; memory and storage agree |
| `Portal.App.LoadSchemes` | script.js:475-559 | the catalogue becomes the fixed five-scheme list |
| `Portal.App.InitializeSampleData` | script.js:199-232 | an empty complaint list is seeded with the three sample complaints and stored; a non-empty list is left alone |
| `Portal.App.ToggleLanguage` | script.js:88-90 | the language switches (English to Hindi, otherwise to English) and the new preference is stored |
| `Portal.App.LoginUser` | script.js:355-374 | when the login check passes, the current user becomes the mock record with that phone; otherwise the user is unchanged and the check's error is shown |
| `Portal.App.RegisterUser` | script.js:376-407 | on a passing check, exactly one record is appended to the register, earlier records are unchanged, the register is stored and the new citizen becomes current; on a failing check nothing changes |
| `Portal.App.LoginOfficial` | script.js:421-435 | with both fields filled, the current official becomes the mock record; otherwise nothing changes |
| `Portal.App.RegisterOfficial` | script.js:437-458 | with every field filled, exactly one record is appended, the register is stored and the new official becomes current; otherwise nothing changes |
| `Portal.App.LogoutOfficial` | script.js:460-464 | the official session ends |
| `Portal.App.LogoutUser` | script.js:467-472 | the citizen session ends, with a message in the display language |
| `Portal.App.SubmitComplaint` | script.js:624-653 | an empty subject, sector or description changes neither the list nor its stored copy; otherwise exactly one complaint is appended. It is pending, its identifier is `#` and five digits drawn from the random input, its `userId` is the current phone or `anonymous`, the stored copy equals the new list, and the total and pending counts each grow by one |
| `Portal.App.SubmitQuickComplaint` | script.js:655-680 | an empty description changes nothing; otherwise one pending complaint is appended in sector `general` under the quick-complaint subject, and stored |
| `Portal.App.UpdateComplaintStatus` | script.js:809-817 | when some complaint has the identifier, the first one (lowest index) gets the new status and the length, the other complaints and the other fields are unchanged; the list is stored. With no match nothing changes and no message is shown |
| `Accounts.CheckUserLogin` | script.js:359-368 | login passes exactly when both fields are filled and the phone has 10 characters; it names the missing-field error and the bad-phone error in that order |
| `Accounts.CheckUserRegistration` | script.js:383-397 | registration passes exactly when every field is filled, the Aadhaar number has 12 characters and the phone 10; each error is reported exactly when the earlier checks pass and its own fails |
| `Accounts.CheckOfficialLogin` | script.js:425-428 | official login passes exactly when both fields are filled |
| `Accounts.CheckOfficialRegistration` | script.js:444-447 | official registration passes exactly when all five fields are filled |
| `Complaints.CheckComplaint` | script.js:629-632 | a complaint passes exactly when subject, sector and description are all filled |
| `Complaints.CheckQuickComplaint` | script.js:658-661 | a quick complaint passes exactly when the description is filled |
| `Complaints.DrawNumber` | script.js:635 | for every draw in [0, 1) the identifier number lies in [10000, 99999] |
| `Complaints.ComplaintIdFormat` | script.js:635 | every drawable number gives an identifier of `#` and five digits, the first not `0`, and the number can be read back from it |
| `Complaints.ComplaintIdInjective` | script.js:635 | two draws give the same identifier exactly when they give the same number, so collisions come only from equal draws |
| `Complaints.ComplaintId` | script.js:635 | an identifier is `#` followed by decimal digits; with `ComplaintIdFormat` and `ComplaintIdInjective` it has five digits for every draw, reads back to its number, and differs for different numbers (script.js:664 builds the quick complaint's identifier the same way) |
| `Complaints.Submitter` | script.js:641 | the filer is the current citizen's phone, or `anonymous` when nobody is logged in (script.js:670 for the quick complaint); `Portal.App.SubmitComplaint` states it of the filed record |
| `Complaints.FindIndex` | script.js:810 | the result is -1 exactly when no complaint has the identifier; otherwise it is the lowest index of one that has |
| `Complaints.Count` | script.js:748-750 | a status count never exceeds the number of complaints, and is zero exactly when no complaint has that status |
| `Complaints.DashboardStats` | script.js:746-751 | the total is the number of complaints; the pending, in-progress and resolved counts add up to at most the total, and to exactly the total when every status is known |
| `Complaints.CountIsMultiplicity` | script.js:748-750 | each status count is the number of complaints whose status is exactly that status |
| `Complaints.StatsBalanced` | script.js:747-750 | the three status counts never exceed the number of complaints, and add up to it when every status is pending, in-progress or resolved |
| `Complaints.StatsAfterFiling` | script.js:644 | appending a pending complaint adds one to the total and one to the pending count and leaves the others alone |
| `Complaints.CountAfterStatusChange` | script.js:812 | overwriting one status moves that complaint from its old status's count to its new status's count |
| `Complaints.StatsAfterResolving` | script.js:812-814 | resolving a pending complaint moves one from the pending count to the resolved count; the total is unchanged |
| `Complaints.IsShown` | script.js:797 | an item is shown when the filter is `all` or its status equals the filter; `VisibleComplaints` and `VisibleComplaintsSpec` state what this selects from the list |
| `Complaints.VisibleComplaints` | script.js:787-802 | the visible complaints are exactly the complaints of the list that pass the visibility test, and no more than the list holds |
| `Complaints.VisibleComplaintsSpec` | script.js:797 | the filter `all` shows every complaint; any other filter shows, in list order, exactly the complaints with that status, as many as the dashboard counts for it |
| `Complaints.StatusText` | script.js:731-738 | a known status maps to its Hindi label, which differs from the status; any other status is shown unchanged |
| `Complaints.StatusTextDistinguishesKnown` | script.js:732-736 | distinct known statuses get distinct labels |
| `Complaints.SampleComplaints` | script.js:202-230 | the three seeded complaints `#12345` (water, pending), `#12344` (roads, resolved) and `#12343` (electricity, in progress); `SampleComplaintsFacts` states their properties |
| `Complaints.SampleComplaintsFacts` | script.js:201-230 | the seeded complaints have distinct well-formed identifiers and known statuses, one pending, one in progress and one resolved |
| `Locale.Toggled` | script.js:89 | toggling always changes the language |
| `Portal.App.Dashboard` | script.js:746-751 | the dashboard of the portal's own list: the total is the list's length, and while every status is known the three counts add up to the total |
| `Schemes.SampleSchemes` | script.js:476-557 | the five schemes in catalogue order with their English and Hindi texts; `HealthTab` and `KisanSearch` state what the filter returns on it |
| `Schemes.InLanguage` | script.js:570-571 | a per-language text is read in the display language, a plain text as it is; `KisanSearch` shows the effect on the search |
| `Strings.Lower` | script.js:572-573 | lower-casing keeps the length and leaves no upper-case ASCII letter |
| `Strings.Contains` | script.js:572-573 | the empty needle is found in every text, and a needle longer than the text is found in none |
| `Schemes.MatchesTerm` | script.js:570-573 | the empty term matches every scheme, and a matching term is no longer than the name or the description in the display language; `KisanMatchesInEnglish` and `NoKisanMatch` state matches and non-matches |
| `Schemes.FilterSchemes` | script.js:561-575 | a scheme is in the result exactly when it is in the catalogue, its category is selected (or the tab is `all`) and the term, if any, matches it; the result is no longer than the catalogue |
| `Schemes.FilterSchemesIsOneFilter` | script.js:561-575 | the category filter followed by the search filter equals one order-preserving filter by "category selected and term, if any, matches" |
| `Schemes.FilterSchemesSpec` | script.js:562-575 | the result is a subsequence of the catalogue in catalogue order; a scheme is in it exactly when its category is selected (or the tab is `all`) and, for a non-empty term, its lower-cased name or description in the display language contains the lower-cased term; `all` with an empty term returns the whole catalogue |
| `SchemeCatalogue.HealthTab` | script.js:564-566 | the `health` tab with an empty search lists Ayushman Bharat alone |
| `SchemeCatalogue.KisanSearch` | script.js:568-574 | searching "kisan" on the `all` tab lists PM Kisan Samman Nidhi alone in English and nothing in Hindi |
| `Schemes.KisanMatchesInEnglish` | script.js:572 | the lower-cased English name of PM Kisan Samman Nidhi contains "kisan" |
| `Schemes.NoKisanMatch` | script.js:572-573 | a scheme whose name and description have no `k` in either case never matches "kisan" |

## Left out

- Rendering and form reading: `navigateTo`, `displaySchemes`, `loadComplaintStatusList`, `loadOfficialComplaints`, `updateLanguage`, `updatePlaceholders`, `updateSelectOptions`, `switchAuthTab`, `switchOfficialTab`, `showScreen` and `hideScreen`. Form values are method parameters. A toast is returned as a `Toast` value instead of being drawn. The navigation after login and registration, and the dashboard refresh after an official logs in or a status changes, are not modelled.
- The active-tab highlighting in `filterSchemes` and `filterComplaints` reads `event.target`, which is UI.
- `Complaints.VisibleComplaints`: the model filters the complaint list itself, while `filterComplaints` filters the items drawn on the page by reading each item's status selector. The two disagree when the page is out of date: a complaint filed after the dashboard was drawn has no item on the page, because filing does not redraw the list. They also disagree when identifiers repeat: changing one item's selector updates the first complaint with that identifier (`findIndex`), which may be another complaint, and that complaint's own selector still shows its old status.
- Speech recognition and synthesis (`toggleVoiceAssistant`, `speak`, `startVoiceInput`, `startVoiceSearch`, the voice interface), and the globals `isVoiceAssistantEnabled` and `isListening`: these are asynchronous browser services.
- The loading-screen timer, the toast timer, and the `DOMContentLoaded` wiring, including the regular-expression scrape of the active tab.
- `JSON.stringify`/`JSON.parse` and `localStorage`: each key's contents are a ghost copy that is assigned the whole list. A failing or corrupt storage write, or a corrupt stored value, is not modelled.
- `userDocuments` is read at start-up and never used, so it is not modelled.
- `Math.random()` and `new Date()` are parameters. The draw is an exact real in [0, 1), so floating-point rounding of `random * 90000 + 10000` is not modelled.
- `Strings.Lower`: `toLowerCase` is modelled ASCII-only, for the catalogue texts and for the user's search term alike. The catalogue's Hindi texts have no case, but a search term can hold non-ASCII cased characters: JavaScript lower-cases U+212A KELVIN SIGN to `k`, so the term "\u212Aisan" finds PM Kisan Samman Nidhi in English, while in the model it matches nothing.
- `.length` is counted in characters, not in UTF-16 code units. They agree for the digits of phone and Aadhaar numbers.
- The stored language preference is `en` or `hi`, the only values `toggleLanguage` writes. Any other stored text is not modelled.
- `getStatusText` looks statuses up in a plain object. Statuses naming inherited object members (`toString`, …) are not modelled.
- Complaint records are values in a sequence. JavaScript object identity and aliasing of records are not modelled.
- The message-only stubs `payBill`, `viewDocument`, `uploadDocument`, `sendOTP` and `applyForScheme` are not modelled.
