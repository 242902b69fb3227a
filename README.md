# TheVisioneers farm assistant, modelled in Dafny

TheVisioneers is a web application for farmers. It has a dashboard, a soil-analysis
wizard, a pest and disease library, advisories, and an AI chat assistant. The server
is a set of Express handlers over a PostgreSQL database and an AI service.

This project models the logic that carries decisions:

- the three-step soil-analysis wizard: its state machine, field schema, defaults,
  slider ranges and the nutrient and pH labels;
- the dashboard's efficiency percentage and status band, its severity badges, the
  critical-advisory banner and count, and how many rows each card shows;
- the server's request handlers over an in-memory store whose tables are sequences.
  This covers chat (the 400 check, the insert, the AI call, the second insert and the
  partial failure), soil analysis (the 400 check, the defaulting sent to the AI, and
  the raw values stored) and the query rules of every GET endpoint;
- the case-insensitive pest search;
- the navigation bar's active-link rule and its mobile menu;
- the chat page's send guard, trimming, button enabling, Enter key rule, voice
  language and input clearing;
- the advisories page's badges and fallbacks;
- the English/Hindi language toggle.

Layout, one module per file:

| module | file | models |
|---|---|---|
| `Wrappers` | wrappers.dfy | `Option`, `Result` |
| `Text` | text.dfy | JavaScript `trim`, `toLowerCase` (ASCII) and `includes` |
| `Query` | query.dfy | `limit`, `where` and `orderBy` on a nullable timestamp, with PostgreSQL's NULL ordering |
| `Schema` | schema.dfy | the shapes of the stored records |
| `Ui` | ui.dfy | badge variants and the loading / rows / empty-state choice of a list card |
| `SoilAnalysis` | soil_analysis.dfy | the soil wizard page |
| `Dashboard` | dashboard.dfy | the dashboard page |
| `Routes` | routes.dfy | the server's handlers (class `Store`) |
| `PestDiseasePage` | pest_disease.dfy | the pest and disease page |
| `Navigation` | navigation.dfy | the navigation bar |
| `Chatbot` | chatbot.dfy | the chat page |
| `Advisories` | advisories.dfy | the advisories page |
| `LanguageSwitcher` | language_switcher.dfy | the language button |
| `EndToEnd` | end_to_end.dfy | lemmas joining the pages to the handlers |

Modelling choices:

- **Tables.** Each table is a sequence, and the model reads it in insertion order.
  PostgreSQL gives no row order to a query without `ORDER BY`, nor among rows whose
  sort key ties. Wherever that order is unspecified, the model fixes it as insertion
  order. The database's `now()`
  becomes the `clock` field of `Store`. The clock advances with every insert and also
  supplies row ids.
- **NULL timestamps.** A nullable timestamp is an `Option<nat>`. Ordering follows
  PostgreSQL: NULL counts as greater than every instant, so it sorts last ascending
  and first descending.
- **The AI service.** It is a function parameter that returns `Answer(text)` or
  `AiError`. The current month is a parameter of the resources query.
- **Pages.** A page's interactive state is a class. A control rendered only in some
  state becomes a `requires` on the method for that click. A disabled button is
  either such a `requires` (the chat send button) or a click with no effect (the
  wizard's Next without a soil type, Analyze while a request is pending).

The soil schema allows organic matter from 0 to 100
(client/client/src/pages/SoilAnalysis.tsx:39). The slider stops at 20
(client/client/src/pages/SoilAnalysis.tsx:347), so the wizard never produces a value
the schema refuses.

## Model

| member | source | states |
|---|---|---|
| `Text.TrimEmptyIff` | server/routes.ts:117 | `trim` returns the empty string exactly when the input is entirely whitespace |
| `Text.Trim` | server/routes.ts:117 | `trim` never lengthens its input, and a non-empty result neither starts nor ends with whitespace |
| `Text.TrimSlice` | client/src/pages/Chatbot.tsx:35-36 | `trim` removes only whitespace, from both ends, and leaves no whitespace at either end |
| `Text.TrimIdempotent` | server/routes.ts:125 | trimming an already trimmed string changes nothing |
| `Text.Contains` | client/client/src/pages/PestDisease.tsx:34-35 | `includes` holds exactly when the needle occurs at some offset |
| `Text.ContainsEmpty` | client/client/src/pages/PestDisease.tsx:34-35 | every string includes the empty string |
| `Text.Lower` | client/client/src/pages/PestDisease.tsx:34-35 | `toLowerCase` keeps the length and lowers each character in place |
| `Query.Take` | server/routes.ts:34-36 | `limit n` returns a prefix of the table holding `min(n, rows)` rows |
| `Query.Filter` | server/routes.ts:60-63 | every row `where p` returns satisfies `p` and comes from the table, and every table row satisfying `p` is returned |
| `Query.FilterCounts` | server/routes.ts:60-63 | a row satisfying `p` is returned as many times as the table holds it; any other row, never |
| `Query.FilterIsSubsequence` | server/routes.ts:60-63 | a filter deletes rows but never reorders them |
| `Query.SortBy` | server/routes.ts:88-90 | `orderBy` returns a permutation of the table, ordered by timestamp under PostgreSQL's NULL rule |
| `Query.SortSorted` | server/routes.ts:101-105 | sorting a table that is already in order returns it unchanged |
| `Query.TopRows` | server/routes.ts:75-78 | with `orderBy … limit n`, every row left out comes after every row kept |
| `Ui.PanelOf` | client/src/pages/Dashboard.tsx:214 | skeletons while loading, rows when there are some, the empty state otherwise |
| `SoilAnalysis.Validate` | client/client/src/pages/SoilAnalysis.tsx:33-40 | the schema accepts a form exactly when every field is in range and a soil type is set; otherwise it lists exactly the failing fields |
| `SoilAnalysis.DefaultsNeedSoilType` | client/client/src/pages/SoilAnalysis.tsx:51-58 | the default values fail the schema on the soil type alone |
| `SoilAnalysis.DefaultsWithSoilTypeValid` | client/client/src/pages/SoilAnalysis.tsx:51-58 | the defaults pass the schema once any soil type is chosen |
| `SoilAnalysis.SlidersWithinSchema` | client/client/src/pages/SoilAnalysis.tsx:229-347 | values reachable with the sliders, plus a soil type, always pass the schema |
| `SoilAnalysis.WithValue` | client/client/src/pages/SoilAnalysis.tsx:234 | moving one slider changes that field only |
| `SoilAnalysis.NutrientStatus` | client/client/src/pages/SoilAnalysis.tsx:75-79 | low below 30, medium below 70, high otherwise, coloured red, amber and green |
| `SoilAnalysis.NutrientStatusMonotone` | client/client/src/pages/SoilAnalysis.tsx:75-79 | raising a nutrient never lowers its label |
| `SoilAnalysis.PhStatus` | client/client/src/pages/SoilAnalysis.tsx:81-87 | the five pH bands with their inclusive and exclusive ends; green exactly at Optimal, red exactly at the two extremes |
| `SoilAnalysis.PhStatusMirror` | client/client/src/pages/SoilAnalysis.tsx:81-87 | the bands are symmetric about pH 7: 14 − pH gets the mirrored label and the same colour |
| `SoilAnalysis.PhBoundaries` | client/client/src/pages/SoilAnalysis.tsx:81-87 | 5.5 is slightly acidic, 6.5 and 7.5 are optimal, 8.5 is slightly alkaline |
| `SoilAnalysis.StepIndicator` | client/client/src/pages/SoilAnalysis.tsx:104-121 | at step s, s circles are highlighted and s − 1 of them are checked; a connector is filled exactly when the circle before it is checked |
| `SoilAnalysis.Wizard.constructor` | client/client/src/pages/SoilAnalysis.tsx:46-58 | the wizard starts at step 1 with no recommendation and the default values |
| `SoilAnalysis.Wizard.SelectSoilType` | client/client/src/pages/SoilAnalysis.tsx:160-173 | choosing a soil type sets only that field |
| `SoilAnalysis.Wizard.MoveSlider` | client/client/src/pages/SoilAnalysis.tsx:229-347 | a slider sets its field, within the slider's range |
| `SoilAnalysis.Wizard.ClickNext` | client/client/src/pages/SoilAnalysis.tsx:180-185 | Next moves to step 2 exactly when a soil type is chosen |
| `SoilAnalysis.Wizard.ClickPrevious` | client/client/src/pages/SoilAnalysis.tsx:362 | Previous returns to step 1 and keeps the form |
| `SoilAnalysis.Wizard.ClickAnalyze` | client/client/src/pages/SoilAnalysis.tsx:366-370 | submitting sends the form, which the schema accepts, unless a request is already pending |
| `SoilAnalysis.Wizard.OnAnalyzeSuccess` | client/client/src/pages/SoilAnalysis.tsx:64-67 | a successful reply stores the recommendation and shows step 3 |
| `SoilAnalysis.Wizard.OnAnalyzeError` | client/client/src/pages/SoilAnalysis.tsx:60-68 | a failed request leaves the step, form and recommendation unchanged |
| `SoilAnalysis.Wizard.ClickNewAnalysis` | client/client/src/pages/SoilAnalysis.tsx:402-405 | New Analysis returns to step 1, clears the recommendation and restores the defaults |
| `SoilAnalysis.WizardRun` | client/client/src/pages/SoilAnalysis.tsx:46-67 | a whole session: Next is refused without a soil type, the submitted form is the defaults plus the choice, the answer is shown, and the restart yields the defaults |
| `Dashboard.SeverityBadge` | client/src/pages/Dashboard.tsx:43-52 | critical is destructive, warning is secondary, anything else is default |
| `Dashboard.EfficiencyPercentage` | client/src/pages/Dashboard.tsx:54-57 | the ratio times 100, capped at 100, and 0 when the optimal amount is 0 |
| `Dashboard.PercentageWithinOptimal` | client/src/pages/Dashboard.tsx:54-57 | using at most the optimal amount gives the exact share, between 0 and 100 |
| `Dashboard.PercentageSaturates` | client/src/pages/Dashboard.tsx:56 | using the optimal amount or more gives 100 |
| `Dashboard.EfficiencyStatus` | client/src/pages/Dashboard.tsx:59-63 | efficient up to 90, warning up to 110, critical above |
| `Dashboard.StatusBoundaries` | client/src/pages/Dashboard.tsx:60-62 | both band ends are inclusive |
| `Dashboard.NeverCritical` | client/src/pages/Dashboard.tsx:268-269 | the displayed status is never critical, and it is warning exactly when more than 90% of the optimal amount is used |
| `Dashboard.ResourceRows` | client/src/pages/Dashboard.tsx:267-269 | the first three resources in order, each with its percentage (at most 100) and the status band of that percentage, which is never critical |
| `Dashboard.CriticalCount` | client/src/pages/Dashboard.tsx:114 | the number of critical advisories, at most the number of advisories |
| `Dashboard.BannerIffCritical` | client/src/pages/Dashboard.tsx:101-114 | the banner is shown exactly when the count it displays is positive |
| `Dashboard.CriticalCountSingle` | client/src/pages/Dashboard.tsx:114 | one advisory counts 1 when critical and 0 otherwise; with the additivity below this fixes the count of every list |
| `Dashboard.CriticalCountAppend` | client/src/pages/Dashboard.tsx:114 | the count is additive over a split of the advisories |
| `Dashboard.ShowCriticalBanner` | client/src/pages/Dashboard.tsx:101 | the banner is rendered exactly when advisories arrived and one of them is critical |
| `Dashboard.CropsCard` | client/src/pages/Dashboard.tsx:214-216 | skeletons exactly while loading; rows exactly when crops arrived and there are some; then at most 4 crops, a prefix of those received |
| `Dashboard.ResourcesCard` | client/src/pages/Dashboard.tsx:265-267 | skeletons exactly while loading; rows exactly when resources arrived and there are some; then the resource rows of the first 3 resources |
| `Dashboard.AdvisoriesCard` | client/src/pages/Dashboard.tsx:318-320 | skeletons exactly while loading; rows exactly when advisories arrived and there are some; then at most 3 advisories, a prefix of those received |
| `Routes.RequestLanguage` | server/routes.ts:126 | a missing or empty language becomes "en"; any other language is kept |
| `Routes.HasContent` | server/routes.ts:117 | content passes the 400 check exactly when it is present and not all whitespace |
| `Routes.OrDefault` | server/routes.ts:162-166 | JavaScript's falsy default: a missing value or 0 becomes the default |
| `Routes.ZeroDefaultKeepsValue` | server/routes.ts:162 | with default 0, a present value is passed through unchanged |
| `Routes.AiSoilInput` | server/routes.ts:160-167 | the AI receives missing nutrients as 0, and a missing or zero pH as 7 |
| `Routes.ZeroPhSentAsNeutral` | server/routes.ts:165-176 | a pH of 0 reaches the AI as 7 but is stored as 0 |
| `Routes.SoilTypePresent` | server/routes.ts:155 | the soil request is refused exactly when the soil type is missing or empty |
| `Routes.StoredAnalysis` | server/routes.ts:170-179 | the stored row belongs to the current farmer, carries each submitted value as sent, the AI's text and the insert time |
| `Routes.ChatHistory` | server/routes.ts:101-105 | at most 50 messages, as many as the farmer has up to 50, all of them the current farmer's, in ascending timestamp order |
| `Routes.HistoryInInsertionOrder` | server/routes.ts:101-105 | with increasing timestamps, the chat history is the farmer's first 50 messages in insertion order |
| `Routes.HistoryFrozenAfterFifty` | server/routes.ts:101-105 | the history shows the oldest 50 messages; once the farmer has 50, later messages never appear |
| `Routes.HistoryShowsExchange` | server/routes.ts:101-105 | while the farmer has at most 48 messages, a new exchange appears at the end of the history |
| `Routes.RecentAdvisoriesNewest` | server/routes.ts:75-78 | no advisory left out of the recent three is newer than one shown |
| `Routes.RecentAdvisories` | server/routes.ts:73-80 | three advisories or all when there are fewer, drawn from the table, newest first |
| `Routes.CurrentResources` | server/routes.ts:58-64 | at most three rows, each from the table and of the given month; when fewer than three come back, every row of that month is among them |
| `Routes.NewChatMessage` | server/routes.ts:122-127 | a stored message belongs to the current farmer and is stamped with the insert time |
| `Routes.Store.GetCurrentWeather` | server/routes.ts:13-24 | 404 "No weather data available" exactly when the table is empty; otherwise a row whose timestamp is the latest |
| `Routes.Store.GetRecommendedCrops` | server/routes.ts:32-37 | four crops, or all of them if there are fewer, all from the table; the model takes the first four in insertion order |
| `Routes.Store.GetAllCrops` | server/routes.ts:44-47 | the whole crops table |
| `Routes.Store.GetCurrentResources` | server/routes.ts:55-65 | at most three rows of the given month, in table order; the year is not compared |
| `Routes.Store.GetRecentAdvisories` | server/routes.ts:73-79 | three advisories (or fewer), newest first, none older than any advisory left out |
| `Routes.Store.GetAllAdvisories` | server/routes.ts:86-91 | all advisories, newest first |
| `Routes.Store.GetChatMessages` | server/routes.ts:99-106 | the current farmer's messages only, oldest first, at most 50 |
| `Routes.Store.GetPestsDiseases` | server/routes.ts:189-192 | the whole pests and diseases table |
| `Routes.Store.InsertChatMessage` | server/routes.ts:122-127 | one insert appends one message stamped with the current time and changes no other table |
| `Routes.Store.PostChatMessage` | server/routes.ts:113-148 | 400 and nothing stored without content. Otherwise the trimmed user message is stored, then the AI answer. If the AI fails, the user message stays and the reply is 500 |
| `Routes.Store.AnalyzeSoil` | server/routes.ts:151-186 | 400 and nothing stored without a soil type. Otherwise the AI gets the defaulted inputs. The row, with the raw values and the answer, is stored only if the AI answers; otherwise the reply is 500 |
| `PestDiseasePage.SeverityBadge` | client/client/src/pages/PestDisease.tsx:22-31 | high is destructive, medium is secondary, anything else is default |
| `PestDiseasePage.FilteredPests` | client/client/src/pages/PestDisease.tsx:33-36 | a record is kept exactly when the lowered term occurs in its lowered name or lowered crop, as many times as it was received |
| `PestDiseasePage.Matches` | client/client/src/pages/PestDisease.tsx:33-36 | the lowered term occurs at some offset of the lowered name or of the lowered crop |
| `PestDiseasePage.PageView` | client/client/src/pages/PestDisease.tsx:67-79 | skeletons exactly while loading; a grid only when data arrived, holding exactly the non-empty filtered records |
| `PestDiseasePage.FilteredKeepsOrder` | client/client/src/pages/PestDisease.tsx:33 | the result is a subsequence of the records received |
| `PestDiseasePage.EmptyTermKeepsAll` | client/client/src/pages/PestDisease.tsx:33-36 | an empty search keeps every record |
| `PestDiseasePage.CaseInsensitive` | client/client/src/pages/PestDisease.tsx:34-35 | terms that differ only in case select the same records |
| `PestDiseasePage.LoweredTermSameResult` | client/client/src/pages/PestDisease.tsx:34-35 | typing the term in lower case changes nothing |
| `PestDiseasePage.NoResultsIff` | client/client/src/pages/PestDisease.tsx:67-147 | the no-results card shows exactly when loading is over and no record (or no data) matches; otherwise the grid holds the filtered records |
| `PestDiseasePage.SearchBox.constructor` | client/client/src/pages/PestDisease.tsx:16 | the search box starts empty |
| `PestDiseasePage.SearchBox.OnChange` | client/client/src/pages/PestDisease.tsx:60 | the box holds what was typed |
| `PestDiseasePage.SearchSession` | client/client/src/pages/PestDisease.tsx:16-36 | a fresh page shows every record; after typing it shows the filtered records, in order |
| `Navigation.ExactImpliesPrefix` | client/src/components/Navigation.tsx:35-40 | a link active under the exact rule is active under the prefix rule |
| `Navigation.IsActive` | client/src/components/Navigation.tsx:35-40 | exact mode: the location equals the href; otherwise: the href is a leading slice of the location |
| `Navigation.PrefixIsNotSegment` | client/src/components/Navigation.tsx:39 | "/crops" is highlighted at "/cropsX": the prefix rule compares characters, not path segments |
| `Navigation.RenderedLinks` | client/src/components/Navigation.tsx:57 | six links are rendered (`navItems.slice(1)`), none of them the home entry |
| `Navigation.TestId` | client/src/components/Navigation.tsx:65 | the part of a link's test id after its `nav-` (or `mobile-nav-`) prefix is the href without its first character |
| `Navigation.TestIdRoundTrip` | client/src/components/Navigation.tsx:65 | that part of the test id drops exactly the leading slash, so the href can be rebuilt from it |
| `Navigation.LinksPrefixFree` | client/src/components/Navigation.tsx:25-33 | no rendered href is a prefix of another |
| `Navigation.PrefixesComparable` | client/src/components/Navigation.tsx:39 | two prefixes of one location are prefixes of each other |
| `Navigation.AtMostOneActive` | client/src/components/Navigation.tsx:57-62 | whatever the location, at most one rendered link is highlighted |
| `Navigation.HomeActivatesNothing` | client/src/components/Navigation.tsx:104-109 | at "/" no rendered link is highlighted |
| `Navigation.NavigationBar.constructor` | client/src/components/Navigation.tsx:23 | the mobile menu starts closed |
| `Navigation.NavigationBar.ClickMenuButton` | client/src/components/Navigation.tsx:82 | the menu button flips the mobile menu |
| `Navigation.NavigationBar.FollowLink` | client/src/components/Navigation.tsx:107-111 | following a link moves to its href; a mobile link also closes the menu |
| `Navigation.MenuSession` | client/src/components/Navigation.tsx:82-111 | two flips restore the menu; choosing a mobile link closes it and highlights that link alone |
| `Chatbot.OutgoingContent` | client/src/pages/Chatbot.tsx:34-38 | a message is sent exactly when the input is not blank, and the trimmed input is what is sent |
| `Chatbot.OutgoingUnpadded` | client/src/pages/Chatbot.tsx:36 | the sent text has no whitespace at either end, is its own trim, and occurs in the input |
| `Chatbot.SendEnabledIff` | client/src/pages/Chatbot.tsx:217 | the send button is enabled exactly when the input is not blank and nothing is pending |
| `Chatbot.SendDisabled` | client/src/pages/Chatbot.tsx:217 | the button is disabled while a request is pending and whenever the input is blank |
| `Chatbot.TriggersSend` | client/src/pages/Chatbot.tsx:194-195 | Enter without Shift sends; no other key sends, and Shift held never does |
| `Chatbot.VoiceLang` | client/src/pages/Chatbot.tsx:44 | "hi-IN" exactly for "hi", "en-IN" for every other language |
| `Chatbot.Alignment` | client/src/pages/Chatbot.tsx:113 | a bubble is right-aligned exactly when its role is "user" |
| `Chatbot.Suggestions` | client/src/pages/Chatbot.tsx:69-73 | three suggestion chips |
| `Chatbot.SuggestionsSendable` | client/src/pages/Chatbot.tsx:153-158 | a clicked suggestion is sent exactly as shown |
| `Chatbot.Conversation` | client/src/pages/Chatbot.tsx:96-104 | the empty state with suggestions shows exactly when loading is over and there are no messages |
| `Chatbot.ChatPage.constructor` | client/src/pages/Chatbot.tsx:16-17 | the input starts empty, not listening, nothing pending |
| `Chatbot.ChatPage.OnInputChange` | client/src/pages/Chatbot.tsx:193 | typing replaces the input |
| `Chatbot.ChatPage.ClickSuggestion` | client/src/pages/Chatbot.tsx:158 | a suggestion click replaces the input with the suggestion |
| `Chatbot.ChatPage.VoiceTag` | client/src/pages/Chatbot.tsx:44 | the recogniser uses the page language's voice tag |
| `Chatbot.ChatPage.OnVoiceStart` | client/src/pages/Chatbot.tsx:48 | recognition start sets listening |
| `Chatbot.ChatPage.OnVoiceEnd` | client/src/pages/Chatbot.tsx:49 | recognition end clears listening |
| `Chatbot.ChatPage.OnVoiceResult` | client/src/pages/Chatbot.tsx:50-53 | a recognised phrase replaces the input |
| `Chatbot.ChatPage.HandleSend` | client/src/pages/Chatbot.tsx:34-38 | sends the trimmed input with the page language exactly when it is not blank, and keeps the input |
| `Chatbot.ChatPage.ClickSend` | client/src/pages/Chatbot.tsx:214-217 | the enabled send button always sends the trimmed input |
| `Chatbot.ChatPage.KeyDown` | client/src/pages/Chatbot.tsx:194-198 | Enter without Shift sends, even while a request is pending; any other key sends nothing |
| `Chatbot.ChatPage.OnSendSuccess` | client/src/pages/Chatbot.tsx:28-31 | a successful send clears the input |
| `Chatbot.ChatPage.OnSendError` | client/src/pages/Chatbot.tsx:24-32 | a failed send keeps the input |
| `Chatbot.SendSession` | client/src/pages/Chatbot.tsx:24-38 | after a failed send the text is still there and Enter sends it again; only the success clears the box |
| `Advisories.SeverityBadge` | client/src/pages/Advisories.tsx:18-27 | critical is destructive, warning is secondary, anything else is default |
| `Advisories.SameBadgeAsDashboard` | client/src/pages/Advisories.tsx:18-27 | the page colours every severity as the dashboard does |
| `Advisories.CategoryIconConstant` | client/src/pages/Advisories.tsx:29-31 | every category gets the same icon |
| `Advisories.DateLabel` | client/src/pages/Advisories.tsx:88-90 | a missing timestamp shows "recently", otherwise the timestamp's date |
| `Advisories.SourceLine` | client/src/pages/Advisories.tsx:92-94 | the source line shows exactly when the source is present and non-empty |
| `Advisories.CardOf` | client/src/pages/Advisories.tsx:68-97 | a card shows the advisory's title, content, category, badge, date line and source line |
| `Advisories.Page` | client/src/pages/Advisories.tsx:49-111 | skeletons while loading, the empty card when there are no advisories, otherwise one card per advisory in the order received |
| `LanguageSwitcher.Toggle` | client/src/components/LanguageSwitcher.tsx:12 | "en" becomes "hi"; every other language becomes "en" |
| `LanguageSwitcher.CaptionNamesNext` | client/src/components/LanguageSwitcher.tsx:17 | the caption names the language a click switches to |
| `LanguageSwitcher.Caption` | client/src/components/LanguageSwitcher.tsx:17 | the caption reads "En" exactly when the language is not "en" |
| `LanguageSwitcher.ToggleTwice` | client/src/components/LanguageSwitcher.tsx:12 | on "en" and "hi", two clicks restore the language |
| `LanguageSwitcher.UnsupportedResetsToEnglish` | client/src/components/LanguageSwitcher.tsx:12 | any other setting becomes "en" after one click and "hi" after two |
| `LanguageSwitcher.LanguageState.constructor` | client/src/components/LanguageSwitcher.tsx:6 | the button reads the shared language setting |
| `LanguageSwitcher.LanguageState.Click` | client/src/components/LanguageSwitcher.tsx:12 | a click stores the toggled language |
| `LanguageSwitcher.ClickTwice` | client/src/components/LanguageSwitcher.tsx:12 | from "en" or "hi", one click gives the other language and a second click returns |
| `EndToEnd.SentChatStoredVerbatim` | server/routes.ts:117-125 | text the chat page sends passes the server's content check, and the message built from it carries exactly the trimmed input |
| `EndToEnd.SendToServer` | server/routes.ts:112-142 | clicking the enabled send button and posting its request to the handler: never a 400, the user message stored right after the earlier ones holds exactly the trimmed input, and the reply's user message is that row |
| `EndToEnd.ExchangeLayout` | client/src/pages/Chatbot.tsx:113 | a stored exchange shows the user message on the right and the answer on the left |
| `EndToEnd.RequestOf` | client/client/src/pages/SoilAnalysis.tsx:60-62 | the wizard posts every form field |
| `EndToEnd.ValidFormAnalysed` | server/routes.ts:153-179 | a form the wizard's schema accepts is never refused with 400. The AI sees its values, except that pH 0 becomes 7. The stored row keeps the soil type, all five numbers and the AI's text |
| `EndToEnd.UndatedAdvisoriesFirst` | server/routes.ts:88-90 | on the advisories page, cards without a timestamp ("recently") come before every dated card |

## Left out

- Database and network failures: every handler's `catch` reply of 500 for a failed query or insert. Only the AI failure is modelled. A failure of the second chat insert would also leave the user message stored.
- JSON type coercion: a non-string `content` or `soilType`, or a non-numeric value, in a request body. Fields are modelled as optional strings and reals.
- IEEE-754 arithmetic and `toFixed` display: percentages and pH are real numbers.
- Unicode case mapping: `toLowerCase` is modelled on ASCII letters only. i18n `t()` lookups are treated as keys.
- The browser SpeechRecognition API. Only the handlers it calls are modelled; the "not supported" alert and scrolling are left out.
- Date formatting with date-fns and locale month names. The month is an opaque string and a date is an abstract instant.
- The AI service's prompts, model settings and its fallback text for an empty answer. Its answer is any string.
- Row ids and default column values other than the timestamp. Ids come from the same counter as the clock.
- Concurrency: overlapping requests and overlapping mutations on a page. Each handler runs to completion, and a page has one pending flag.
- Slider step granularity: the sliders are modelled as any real in their range.
- The dashboard's weather card and the Home, Crops and App pages: they render with null fallbacks and hold no logic.
- Animation, styling, icons other than the category icon, and rendering order within a card.
- Row order the database leaves unspecified. Queries without `ORDER BY` (server/routes.ts:34-36, 46, 60-63, 191) and ties in `orderBy(desc(timestamp))` (server/routes.ts:76, 89) are read in insertion order. Advisories seeded in one insert share a timestamp and tie. So `Routes.Store.GetRecommendedCrops`, `GetAllCrops`, `GetCurrentResources`, `GetPestsDiseases`, `GetRecentAdvisories` and `GetAllAdvisories` each state one order the database may return, not the only one.
- The client request helper `apiRequest` from the client's `@/lib/queryClient` module is not part of this model. `SoilAnalysis.Wizard.OnAnalyzeSuccess` takes it to resolve to the parsed JSON body of the reply, so `data.recommendations` is the stored text.
- `Advisories.CategoryIcon` has no contract of its own: there is one icon, so every result would meet one. `Advisories.CategoryIconConstant` states that every category gets it.
- `Chatbot.ChatPage`: the page language is fixed for the page's lifetime. In the application it comes from the shared language setting, which the navigation bar's switcher can change while the page is open.
- The data-testid prefixes (`nav-` and `mobile-nav-`, client/src/components/Navigation.tsx:65, 112): only the `href.slice(1)` part is modelled.
- `Chatbot.Suggestions`: only the count is stated as a contract. The texts are the body's constants.
