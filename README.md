# HealthGuard core, modelled in Dafny

HealthGuard is a Next.js health-tracking application. This project models
the logic behind its forms, scores and lookups. Most source files get one
Dafny module; the profile form gets two (`FormCodec` for its field
encoding, shared with onboarding, and `ProfileForm` for the editor):

- `Chat`: the chat assistant's keyword reply chain, and the submit handler
  that stores the user's message and the reply.
- `ReportUpload`: the medical report upload form. It holds the simulated
  analysis table with its default row, file selection and the submit
  handler.
- `Translations` and `LanguageContext`: the translation lookup by dotted
  key segments, with the key itself as fallback. `LanguageContext` also
  models the language provider: the language restored from storage,
  `setLanguage`, `t` and `useLanguage`.
- `FormCodec`: how profile fields travel between the stored profile and the
  form texts. Empty texts become null, and lists are joined with ", " and
  split at commas.
- `Onboarding` and `ProfileForm`: the four-step onboarding wizard and the
  profile editor.
- `HealthAlertTable` and `HealthAlertActions`: the per-state alert table, its
  sorted state list and the lookup with an empty default.
- `HealthDataInput`: the date validation and the submit cycle of the health
  data form.
- `DashboardNav`: the avatar initials, the navigation items, the active item
  and the translated labels.
- `DiseaseImpact`: the seven-day averages and the per-disease risk, trend
  and factor texts. It also models storing the three analyses and the
  colours and captions the panel shows.
- `RiskScoring`: the overall risk score, the four randomised category
  scores, the recommendation list and the generate button's handler.
- `RiskCard`: the risk bands, the colours and the panels of the risk score
  card.

Some modules are shared by the others:

- `Wrappers` holds Option and Result.
- `Thrown` holds the message shown for a thrown value.
- `Strings` holds the JavaScript string operations the code relies on:
  `trim`, one-character `split`, `join`, `includes`, case mapping and the
  default `sort` order.

Database calls, the router and the clock are not called. Their outcomes are
parameters of the methods, and what a method writes is a sequence field of
its class.

## Model

| member | source | states |
|---|---|---|
| Strings.TrimSpec | components/chat-interface.tsx:91-93 | trimming gives a trimmed string, which is a slice of the input with only whitespace removed on each side |
| Strings.TrimOfTrimmed | components/profile-form.tsx:73-75 | trimming an already trimmed string changes nothing |
| Strings.SplitPieces | components/profile-form.tsx:73-75 | splitting at a character gives one more piece than there are occurrences of it, and no piece contains it |
| Strings.JoinSplit | components/dashboard-nav.tsx:115-118 | joining the pieces of a split with the same separator gives back the input |
| Strings.ContainsFromSpec | components/chat-interface.tsx:47-83 | the substring test holds exactly when the key occurs at some position |
| Strings.ToLowerIdempotent | components/chat-interface.tsx:45 | lower-casing twice is lower-casing once, and the result has no upper-case ASCII letter |
| Strings.LessIsStrictTotalOrder | lib/actions/health-alerts.ts:10 | the default sort's string order is irreflexive, transitive and total |
| Strings.SortCorrect | lib/actions/health-alerts.ts:10 | the default sort gives a sorted permutation of its input |
| Strings.SortOfStrictlySorted | lib/constants/health-alerts.ts:388 | sorting a strictly ascending list leaves it unchanged |
| Chat.ChainIsTableSearch | components/chat-interface.tsx:45-86 | the if-chain picks the first topic, in table order, whose keywords occur in the lower-cased message |
| Chat.MentionsKeywords | components/chat-interface.tsx:47-83 | each topic is mentioned exactly when one of its keywords occurs in the message |
| Chat.FirstFromNone | components/chat-interface.tsx:45-86 | the search finds nothing exactly when no topic from the start position on is mentioned |
| Chat.FirstFromEarliest | components/chat-interface.tsx:45-86 | a found topic is mentioned and no earlier topic is |
| Chat.FirstMatchWins | components/chat-interface.tsx:45-86 | a mentioned topic guarantees a reply for it or for an earlier mentioned topic |
| Chat.NoKeywordDefault | components/chat-interface.tsx:85-86 | with no keyword present the default advice is the reply |
| Chat.RepliesIdentifyTopic | components/chat-interface.tsx:47-86 | distinct topics give distinct replies, and only the greeting depends on the user's name |
| Chat.GreetingNamesUser | components/chat-interface.tsx:78 | the greeting starts with "Hello " followed by the user's name |
| Chat.CaseInsensitive | components/chat-interface.tsx:45 | messages equal up to case get the same reply, and so does an upper-cased message |
| Chat.BloodPressureBeatsDiabetes | components/chat-interface.tsx:47-53 | a message naming both blood pressure and diabetes gets the blood pressure answer |
| Chat.HiInsideThis | components/chat-interface.tsx:71-79 | "is this ok" is answered with the greeting, because "hi" occurs inside "this" |
| Chat.GreetingWhenOnlyHi | components/chat-interface.tsx:47-79 | a message with no health keyword that contains "hi" gets the greeting |
| Chat.ChatSession.constructor | components/chat-interface.tsx:26-29 | the chat starts with the initial messages, an empty input and not loading |
| Chat.ChatSession.Submit | components/chat-interface.tsx:89-137 | a blank input or a running request changes nothing; otherwise the input is cleared, and the trimmed message and then the reply are appended, each only if its insert succeeded |
| Chat.ExchangeOrder | components/chat-interface.tsx:89-137 | submitting a non-blank message on an idle session whose two inserts succeed keeps the old messages and adds exactly two: the user's trimmed message, then the assistant's reply to it |
| ReportUpload.NamedReportTypes | components/report-upload-form.tsx:47-87 | blood tests get 3, 2 and 3 entries; X-rays 3, 0 and 2; ECGs 3, 0 and 3 |
| ReportUpload.DefaultAnalysis | components/report-upload-form.tsx:88-95 | every other report type gets the default analysis of 2, 1 and 2 entries |
| ReportUpload.OfferedTypes | components/report-upload-form.tsx:29-39 | of the nine offered types, exactly the Blood Test, X-Ray and ECG types have their own rows |
| ReportUpload.AnalysisIsTableRow | components/report-upload-form.tsx:47-97 | the analysis ignores the file name, and each list is the chosen row of the table in order |
| ReportUpload.EntriesNameTheirRow | components/report-upload-form.tsx:47-97 | every entry of an analysis belongs to the report type's row |
| ReportUpload.StoredRowShape | components/report-upload-form.tsx:116-131 | the stored row repeats the analysis lists and records the file name and the report type |
| ReportUpload.ReportUploadForm.constructor | components/report-upload-form.tsx:20-27 | the form starts idle, with no type, today's date and no file |
| ReportUpload.ReportUploadForm.ChooseFile | components/report-upload-form.tsx:41-45 | the first chosen file replaces the current one; an empty choice keeps it |
| ReportUpload.ReportUploadForm.Submit | components/report-upload-form.tsx:99-152 | a missing file or type shows the message and stores nothing; a failed insert shows its error; a success stores the row and resets the form |
| Translations.Step | lib/i18n/translations.ts:83 | one lookup step never yields a table, since the tables are flat |
| Translations.ResolveKey | lib/i18n/translations.ts:78-87 | the segment loop computes the lookup over one table |
| Translations.Translate | lib/i18n/translations.ts:78-87 | translating looks the key up in the language's table |
| Translations.WalkFlat | lib/i18n/translations.ts:78-85 | two or more segments never reach a value in a flat table |
| Translations.DottedKeyUnchanged | lib/i18n/translations.ts:78-87 | a dotted key is returned unchanged |
| Translations.UndottedKey | lib/i18n/translations.ts:78-87 | an undotted key gives its non-empty entry, or else the key itself |
| Translations.ResolvedMeansEntry | lib/i18n/translations.ts:78-87 | a result other than the key is the table entry of an undotted key, and such an entry is always the result |
| Translations.TablesAgreeOnKeys | lib/i18n/translations.ts:2-73 | the English and Hindi tables have the same keys and no empty entry |
| Translations.DashboardTranslated | lib/i18n/translations.ts:4 | "dashboard" translates to each language's word |
| Translations.DottedTableKeysUnchanged | lib/i18n/translations.ts:12-15 | the tables' own dotted keys, such as "nav.sign_out", are never translated |
| LanguageContext.Parse | lib/contexts/language-context.tsx:45-50 | a saved value is accepted exactly when it is "en" or "hi", as that language |
| LanguageContext.ParseCode | lib/contexts/language-context.tsx:45-55 | a language's stored code reads back as that language |
| LanguageContext.LanguageProvider.constructor | lib/contexts/language-context.tsx:43 | the provider starts in English |
| LanguageContext.LanguageProvider.RestoreSaved | lib/contexts/language-context.tsx:45-50 | a saved supported code becomes the language; anything else keeps it |
| LanguageContext.LanguageProvider.SetLanguage | lib/contexts/language-context.tsx:52-55 | the language and the stored value both take the argument |
| LanguageContext.LanguageProvider.T | lib/contexts/language-context.tsx:57-66 | t looks the key up in the current language's table |
| LanguageContext.Reload | lib/contexts/language-context.tsx:43-55 | a new provider over the storage that setLanguage wrote restores that language |
| LanguageContext.UseLanguageRoundTrip | lib/contexts/language-context.tsx:71-77 | the hook hands back exactly the context it read: outside a provider it fails with the provider message, inside one it gives the provider's value |
| LanguageContext.TranslatesTableKeys | lib/contexts/language-context.tsx:57-66 | an undotted key of the table gives its entry |
| LanguageContext.DottedContextKeys | lib/contexts/language-context.tsx:15-40 | the provider's dotted keys, such as "language.switch", come back unchanged |
| FormCodec.OptionalTextRoundTrip | components/profile-form.tsx:42-72 | loading and saving an optional text gives it back, unless it was stored as "" |
| FormCodec.ParseListShape | components/profile-form.tsx:73-75 | an empty field gives the empty list; otherwise one trimmed entry per comma-separated piece |
| FormCodec.TrimmedSplitOfJoin | components/profile-form.tsx:49-51 | splitting a ", "-joined list of trimmed entries without commas and trimming the pieces gives back the list |
| FormCodec.ListFieldRoundTrip | components/profile-form.tsx:49-75 | a stored list of trimmed entries without commas survives being loaded and saved, unless it is the single empty entry |
| FormCodec.SingleEmptyEntryIsLost | components/profile-form.tsx:49-75 | the list holding only "" is saved back as the empty list |
| FormCodec.SubmittedShape | components/profile-form.tsx:64-76 | the saved profile has null for empty optional texts and a parsed list for each list field |
| FormCodec.UneditedProfileRoundTrip | components/profile-form.tsx:41-76 | saving an unedited form stores the profile it was loaded from, given the list and empty-text conditions |
| FormCodec.NullListSavedEmpty | components/profile-form.tsx:49-75 | a null list is saved back as the empty list |
| Onboarding.OnlyOwnFieldsBlock | app/onboarding/page.tsx:57-65 | only the fields of the current step can block it, and steps 3 and 4 never block |
| Onboarding.OnboardingWizard.constructor | app/onboarding/page.tsx:16-39 | the wizard starts at step 1 with a blank form and no user |
| Onboarding.OnboardingWizard.CheckAuth | app/onboarding/page.tsx:41-55 | without a user it redirects to the login page; with one it records the user and prefills the name |
| Onboarding.OnboardingWizard.Edit | app/onboarding/page.tsx:23-39 | editing changes only the fields |
| Onboarding.OnboardingWizard.Next | app/onboarding/page.tsx:57-68 | a blocked step stays with the required-fields message; otherwise the wizard advances one step and clears the error |
| Onboarding.OnboardingWizard.Back | app/onboarding/page.tsx:70-73 | the wizard goes back one step and the error is cleared |
| Onboarding.OnboardingWizard.Complete | app/onboarding/page.tsx:75-107 | without a user nothing happens; a failed insert shows its error; a success inserts the profile built from the form and goes to the dashboard |
| Onboarding.NextThenBack | app/onboarding/page.tsx:57-73 | Next on a complete step followed by Back returns to the same step with no error |
| Onboarding.FirstStepNeedsBasics | app/onboarding/page.tsx:57-61 | Next on step 1 with a basic field missing stays on step 1 with the message |
| ProfileForm.ProfileEditor.constructor | components/profile-form.tsx:41-51 | the form is filled from the stored profile |
| ProfileForm.ProfileEditor.Edit | components/profile-form.tsx:41-51 | editing changes only the fields |
| ProfileForm.ProfileEditor.Submit | components/profile-form.tsx:53-88 | success holds exactly when no error is shown; a success stores the profile built from the form, and a failure shows its error and stores nothing |
| ProfileForm.SaveUnedited | components/profile-form.tsx:41-88 | saving an unedited form writes back the stored profile, given the list and empty-text conditions |
| HealthAlertTable.FindSpec | lib/constants/health-alerts.ts:391-393 | with distinct keys, the lookup fails exactly for a missing state and otherwise gives that state's list |
| HealthAlertTable.KeysAscending | lib/constants/health-alerts.ts:11-385 | the states are written in ascending order |
| HealthAlertTable.KeysStrictlySorted | lib/constants/health-alerts.ts:11-385 | the written keys are strictly sorted |
| HealthAlertTable.StatesSortedWithoutDuplicates | lib/constants/health-alerts.ts:387-389 | the state list is the 28 written keys, sorted and without duplicates |
| HealthAlertTable.LookupByState | lib/constants/health-alerts.ts:391-393 | a listed state gives its own list; any other gives []; the result is non-empty exactly for a listed state |
| HealthAlertTable.EmptyStateHasNoAlerts | lib/constants/health-alerts.ts:391-393 | the empty state name has no alerts |
| HealthAlertTable.FirstIdsFollowLengths | lib/constants/health-alerts.ts:11-385 | each state's first id follows the previous state's alerts, from 1 up to 35 |
| HealthAlertTable.IdsFromFirstIds0 | lib/constants/health-alerts.ts:11-385 | the ids of the first seven states count up from their first id |
| HealthAlertTable.IdsFromFirstIds1 | lib/constants/health-alerts.ts:11-385 | the ids of states 8 to 14 count up from their first id |
| HealthAlertTable.IdsFromFirstIds2 | lib/constants/health-alerts.ts:11-385 | the ids of states 15 to 21 count up from their first id |
| HealthAlertTable.IdsFromFirstIds3 | lib/constants/health-alerts.ts:11-385 | the ids of states 22 to 28 count up from their first id |
| HealthAlertTable.ChainedIds | lib/constants/health-alerts.ts:11-385 | ids numbered consecutively across states are distinct across the whole table |
| HealthAlertTable.TableWellFormed | lib/constants/health-alerts.ts:11-385 | every state has at least one alert |
| HealthAlertTable.AlertIdsDistinct | lib/constants/health-alerts.ts:11-385 | alert ids are distinct across the whole table |
| HealthAlertActions.GetHealthAlertsByStateAsync | lib/actions/health-alerts.ts:5-7 | the server action gives the same list as the table lookup: non-empty exactly for a listed state |
| HealthAlertActions.GetStates | lib/actions/health-alerts.ts:9-11 | the action's state list is sorted, has no duplicates and holds every state of the table |
| HealthDataInput.AcceptedDates | src/components/HealthDataInput.tsx:42-59 | a date is accepted exactly when it is present and not after today; otherwise the message says which rule failed |
| HealthDataInput.AcceptedLater | src/components/HealthDataInput.tsx:42-59 | a date accepted today is still accepted on any later day |
| HealthDataInput.AlertsForFailures | src/components/HealthDataInput.tsx:89-97 | an alert is shown exactly when the save did not succeed, and its text is never empty |
| HealthDataInput.HealthDataForm.constructor | src/components/HealthDataInput.tsx:11-13 | the form starts with no date, no error and nothing sent |
| HealthDataInput.HealthDataForm.ValidateDate | src/components/HealthDataInput.tsx:42-59 | the result says whether the date is accepted, and the shown error is its message or "" |
| HealthDataInput.HealthDataForm.ChangeDate | src/components/HealthDataInput.tsx:61-65 | the date is stored and checked at once, so submit is disabled exactly while submitting or while the date is refused |
| HealthDataInput.HealthDataForm.BeginSubmit | src/components/HealthDataInput.tsx:67-87 | a request is sent exactly when the date is accepted |
| HealthDataInput.HealthDataForm.FinishSubmit | src/components/HealthDataInput.tsx:89-100 | a success signals completion; anything else adds one alert; submitting ends either way |
| HealthDataInput.FutureDateNotSent | src/components/HealthDataInput.tsx:61-72 | a future date shows its message, keeps submit disabled and sends nothing |
| DashboardNav.NonEmptyPositions | components/dashboard-nav.tsx:115-117 | the listed positions ascend and each holds a non-empty piece |
| DashboardNav.NonEmptyPositionsExact | components/dashboard-nav.tsx:115-117 | a position is listed exactly when it holds a non-empty piece |
| DashboardNav.FirstCharsInOrder | components/dashboard-nav.tsx:115-118 | the joined first characters are those of the non-empty pieces, in order |
| DashboardNav.InitialsSpec | components/dashboard-nav.tsx:115-119 | the initials are the upper-cased first characters of the non-empty space-separated pieces |
| DashboardNav.JohnDoe | components/dashboard-nav.tsx:115-119 | "John Doe" has the initials "JD" |
| DashboardNav.HrefsDistinct | components/dashboard-nav.tsx:41-77 | the seven items link to distinct paths |
| DashboardNav.AtMostOneActive | components/dashboard-nav.tsx:90-92 | at most one item is active for any path |
| DashboardNav.ExactPathOnly | components/dashboard-nav.tsx:92 | a sub-page activates its own item and not the dashboard item |
| DashboardNav.LabelsTranslate | components/dashboard-nav.tsx:41-77 | every label is the current language's entry for its key |
| DiseaseImpact.RecentLogs | components/disease-impact-insights.tsx:49 | the last seven logs, or all of them when there are fewer |
| DiseaseImpact.TotalBounds | components/disease-impact-insights.tsx:50-52 | a sum of values within bounds lies within the bounds times the count |
| DiseaseImpact.MeanBounds | components/disease-impact-insights.tsx:50-52 | the mean of a non-empty list of values within bounds lies within the bounds |
| DiseaseImpact.AverageBounds | components/disease-impact-insights.tsx:49-52 | the seven-day average is NaN exactly when there are no logs, and otherwise lies within the bounds of the last seven values |
| DiseaseImpact.RiskRange | components/disease-impact-insights.tsx:66-182 | every disease's risk lies in [30, 65], so the cap at 100 never applies |
| DiseaseImpact.CardiovascularTrend | components/disease-impact-insights.tsx:66-99 | cardiovascular risk improves exactly with exercise over 30 and stress under 7, and worsens exactly with exercise under 20 |
| DiseaseImpact.DiabetesAndHypertensionTrends | components/disease-impact-insights.tsx:100-175 | diabetes never worsens and improves exactly with exercise over 30 and sleep over 7; hypertension worsens exactly with stress over 8 and improves exactly with stress under 5 and exercise over 30 |
| DiseaseImpact.FactorsExplainRisk | components/disease-impact-insights.tsx:66-175 | the risk is 30 plus the points of exactly the factor texts that take their bad variant |
| DiseaseImpact.FamilyHistoryFromConditions | components/disease-impact-insights.tsx:100-139 | the family-history text depends only on whether "Diabetes" is listed |
| DiseaseImpact.AdviceLists | components/disease-impact-insights.tsx:78-173 | each disease has four preventive actions, four precautions and four lifestyle remedies |
| DiseaseImpact.InsightsPrefix | components/disease-impact-insights.tsx:55-189 | the rows for the first diseases are the first rows, one per disease in order |
| DiseaseImpact.InsightsShape | components/disease-impact-insights.tsx:55-189 | exactly three rows, for cardiovascular disease, type 2 diabetes and hypertension in that order, each with the user and its disease's advice |
| DiseaseImpact.AnalyzeDisease | components/disease-impact-insights.tsx:57-189 | the loop body builds the analysis row of one disease |
| DiseaseImpact.DiseaseImpactInsights.constructor | components/disease-impact-insights.tsx:42 | the panel starts idle with nothing stored |
| DiseaseImpact.DiseaseImpactInsights.InsertAnalyses | components/disease-impact-insights.tsx:57-189 | the loop stores the three analyses in disease order |
| DiseaseImpact.DiseaseImpactInsights.GenerateInsights | components/disease-impact-insights.tsx:44-193 | generating stores the analyses of the recent averages and ends idle |
| DiseaseImpact.NoLogs | components/disease-impact-insights.tsx:49-52 | the regenerate button stays enabled with no logs, and then every disease is stored at risk 30, stable |
| DiseaseImpact.SedentaryStressedWeek | components/disease-impact-insights.tsx:49-175 | a week with no exercise, stress 9 and 5 hours of sleep rates every disease at 65, with cardiovascular and hypertension worsening and diabetes stable |
| DiseaseImpact.StoredRiskColor | components/disease-impact-insights.tsx:217-221 | a stored risk is never green, and it is red exactly when the risk card calls it high |
| DiseaseImpact.TrendDisplayAgrees | components/disease-impact-insights.tsx:206-215 | the trend's colour and its caption always agree |
| RiskScoring.Bmi | components/generate-risk-button.tsx:57-58 | the BMI exists exactly when height and weight are truthy, and it times the square of the height in metres gives the weight |
| RiskScoring.Readings | components/generate-risk-button.tsx:69-75 | the filter never yields more values than there are entries |
| RiskScoring.ReadingsExact | components/generate-risk-button.tsx:69-75 | a value is kept exactly when it is a truthy reading of the list: every kept value is a non-zero reading, and every non-zero reading is kept |
| RiskScoring.ReadingsAppend | components/generate-risk-button.tsx:69-75 | the filter keeps the order: the readings of a concatenation are those of its parts, one after the other |
| RiskScoring.ReadingsSingle | components/generate-risk-button.tsx:69-75 | a single reading is kept exactly when it is present and non-zero |
| RiskScoring.MeanSystolicMissing | components/generate-risk-button.tsx:69-78 | the mean is missing exactly when every reading is missing or 0 |
| RiskScoring.MeanSystolicBounds | components/generate-risk-button.tsx:69-78 | the mean of readings within bounds lies within the bounds |
| RiskScoring.ScoreOverall | components/generate-risk-button.tsx:47-80 | the step-by-step additions compute the overall score |
| RiskScoring.AgeBonusBands | components/generate-risk-button.tsx:50-54 | age adds 20 over 65, 15 over 50, 10 over 40, and otherwise nothing |
| RiskScoring.BmiBonusBands | components/generate-risk-button.tsx:57-61 | BMI adds 15 over 30, 10 over 25, and nothing without height and weight |
| RiskScoring.ConditionsAddFive | components/generate-risk-button.tsx:64-66 | one more medical condition adds 5 to the score, capped at 100 |
| RiskScoring.OverallBounds | components/generate-risk-button.tsx:47-80 | the overall score lies in [20, 100] |
| RiskScoring.CategoryBounds | components/generate-risk-button.tsx:83-86 | each category lies in its random band around the overall score and within [0, 100] |
| RiskScoring.Recommend | components/generate-risk-button.tsx:89-99 | the pushes produce exactly the conditional recommendation list, whose shape RecommendationsShape states |
| RiskScoring.RecommendationsShape | components/generate-risk-button.tsx:89-99 | each conditional entry appears exactly when its threshold holds, and the list ends with the two fixed entries, 2 to 6 in all |
| RiskScoring.ComputeAssessment | components/generate-risk-button.tsx:47-99 | the handler's computation gives the assessment |
| RiskScoring.BareProfile | components/generate-risk-button.tsx:47-99 | an empty profile with no readings scores 20 and gets only the two fixed entries |
| RiskScoring.ElderlyExample | components/generate-risk-button.tsx:47-99 | a 70-year-old with BMI about 32.9, two conditions and a reading of 150 scores 80 |
| RiskScoring.GenerateRiskButton.constructor | components/generate-risk-button.tsx:13-16 | the button starts idle with nothing saved |
| RiskScoring.GenerateRiskButton.HandleGenerate | components/generate-risk-button.tsx:18-127 | a missing profile shows "Profile not found"; a failed insert shows its error; a success saves the computed assessment row with the age, BMI and conditions it was computed from |
| RiskCard.RiskLevelBands | components/risk-score-card.tsx:21-25 | Low below 30, Moderate in [30, 60), High from 60 |
| RiskCard.ColorMatchesLevel | components/risk-score-card.tsx:21-31 | the score colour always names the same band as the label |
| RiskCard.BandsMonotone | components/risk-score-card.tsx:21-31 | a higher score never gets a lower band |
| RiskCard.Boundaries | components/risk-score-card.tsx:21-31 | 29, 30, 59 and 60 fall in the bands on either side of each threshold |
| RiskCard.Panels | components/risk-score-card.tsx:60-116 | at most four category panels |
| RiskCard.PanelsShown | components/risk-score-card.tsx:60-116 | a category's panel is shown exactly when its score is not null |
| RiskCard.GeneratedAssessmentShown | components/risk-score-card.tsx:60-119 | the row a successful generate saves shows all four panels and its recommendations, and is Low exactly below 30 |

## Left out

- Supabase calls are not modelled as calls. Each query's result and each
  insert's or update's failure is a method parameter, and the written rows
  are sequence fields of the class.
- Authentication is modelled only as an optional user given to the
  onboarding check. The router's redirects become a route field, and its
  refresh is left out.
- The sign-out handler of the navigation bar is left out: it is only an
  authentication call and a redirect.
- `Math.random` becomes the `Draws` parameter: four whole numbers within
  their ranges.
- The clock is left out. Today's date and the age in years are inputs. The
  health data form compares day numbers, so its time-zone handling of
  `new Date` is left out.
- Numbers typed into the forms (height, weight) stay text. The
  `parseFloat` conversion is left out.
- NaN averages (no logs) are modelled as None, for which every comparison
  is false.
- JavaScript's double-precision numbers are modelled as exact reals in the
  BMI (`RiskScoring.Bmi`) and in the averages (`RiskScoring.MeanSystolic`,
  `DiseaseImpact.Mean`). Rounding can then differ at a threshold. For
  example, 170 cm and 86.7 kg give a BMI of 30.000000000000004 in
  JavaScript, which adds 15. The model's BMI is exactly 30, which adds 10.
- `localStorage` becomes a map from keys to values.
- Timers are left out: the chat's one-second delay, the upload form's
  two-second success reset and the profile form's delayed refresh.
- Rendering, icons and scrolling are left out. Of the rendering, the model
  keeps only the colours, captions, panels and disabled conditions that
  the code computes.
- Long texts are held as tags with a `Text` (or `Details`) function: the
  chat replies, the report analysis entries, the disease advice and the
  alert details. Their exact words are in the model but are not compared
  in proofs.
- Case mapping is ASCII only. JavaScript's full Unicode case mapping is not
  modelled.
- `translate` and `t` step only into the table object. They do not step
  into the properties that JavaScript strings and objects inherit (such as
  `length` or `constructor`), nor into a string's character indices:
  in the source `translate("dashboard.0")` gives "D", while the model
  returns the key. The alert lookup likewise ignores inherited property
  names.
- DiseaseImpact.DiseaseImpactInsights.GenerateInsights: records every
  insert. The source ignores insert errors, and the model has no failure
  parameter for them.
- HealthDataInput.HealthDataForm.BeginSubmit: the lab and lifestyle fields
  of the request payload and the stored token are not modelled. Only the
  record date is sent.
- The health data form's JSON parsing failure and network failure both end
  in the same generic alert, modelled as one failure outcome.
