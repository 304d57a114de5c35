# Consent management dashboards — a Dafny model

This project models the logic in the React mock-up of a consent-management
platform. The JSX layout is not part of the model. The model covers the following.

- **The consent ledger** (`consent.dfy`): a record with eight consent categories, each granted or not.
  - The end-user dashboards toggle entries in it, except `essential`, which can never change.
  - They show how many categories are active out of the total.
  - Each category row has a switch, which is checked when the category is granted and disabled when it is required. A "Required" badge appears only on required rows, and an "Active" badge only on granted optional rows.
- **The enhanced end-user dashboard** (`enhanced_client.dfy`):
  - the selected business type;
  - the `getConsentPolicies` catalog, which is a base catalog plus the per-type description overrides for banking, healthcare and e-commerce;
  - the toggle handler and the notification text it produces.
- **The earlier end-user dashboard** (`legacy_client.dfy`): the same ledger and toggle, with a fixed list of categories.
- **The business dashboard** (`analysis.dfy`): the code-analysis state machine.
  - `analyzeCode` resets the state.
  - A timer updater adds 10 to the progress on each tick.
  - When progress reaches 100 it stops and publishes the detected personal-data fields.
  - The severity badge variant depends on the finding's severity.
- **The administrator dashboard** (`admin.dfy`):
  - consent-status colours;
  - the three-band compliance badge;
  - the camelCase metric-label transform, `replace(/([A-Z])/g, ' $1').trim()`;
  - audit-event icons and the four most recent audit events;
  - the consent filter, which is stored but never used to select records.
- **The page** (`navigation.dfy`): the selected role, role selection and "back", and which screen is rendered.

Whatever the source updates in place (React state) is a Dafny `class`. Each
handler is a method with a `modifies` clause, and its `ensures` relate the new
state to a pure function of the old one (`Consent.Toggle`, `Analysis.Tick`, …).
Lemmas then prove the properties of those functions. Pure computations are
functions.

Clocks, toasts and the clipboard are effects. Of these effects the model keeps two, as values:
- a toggle returns its notification as an `Option<Toast>`;
- `AnalysisPanel.AnalyzeCode` runs the timer's ticks one after another in a loop, one iteration per tick.

## Model

| member | source | states |
|---|---|---|
| Consent.Initial | src/components/enhanced/ClientDashboard.tsx:19-28 | the initial ledger holds all eight categories, with essential granted |
| Consent.InitialCounts | src/components/enhanced/ClientDashboard.tsx:19-28 | initially exactly essential, personalization and communication are granted: 3 active of 8 |
| Consent.Toggle | src/components/enhanced/ClientDashboard.tsx:123-125 | toggling leaves essential unchanged, negates any other requested key, and leaves every other key as it was |
| Consent.ToggleTwice | src/components/ClientDashboard.tsx:25-28 | toggling the same key twice restores the ledger |
| Consent.ToggleNoOpIffEssential | src/components/ClientDashboard.tsx:26 | a toggle leaves the ledger unchanged if and only if the key is essential |
| Consent.ToggleAll | src/components/ClientDashboard.tsx:25-28 | any sequence of toggles keeps the ledger well formed |
| Consent.ToggleAllKeepsEssential | src/components/enhanced/ClientDashboard.tsx:124 | after any sequence of toggles essential keeps its value and the ledger keeps its eight keys |
| Consent.CountGranted | src/components/enhanced/ClientDashboard.tsx:160 | the number of granted keys in a list is at most the list's length |
| Consent.CountGrantedIsCardinality | src/components/enhanced/ClientDashboard.tsx:160 | for a list without repetitions, the count equals the size of the set of granted keys in it |
| Consent.ActiveCount | src/components/enhanced/ClientDashboard.tsx:160 | the active count is at most the number of categories |
| Consent.ActiveCountIsGranted | src/components/enhanced/ClientDashboard.tsx:160 | the active count is the number of granted categories |
| Consent.TotalCount | src/components/enhanced/ClientDashboard.tsx:161 | the key count of a well-formed ledger is the number of categories |
| Consent.LedgerKeys | src/components/ClientDashboard.tsx:14-23 | a well-formed ledger has exactly the eight category keys |
| Consent.TotalIsEight | src/components/enhanced/ClientDashboard.tsx:161 | a well-formed ledger has exactly the eight category keys, so the total is 8 |
| Consent.CountGrantedAfterFlip | src/components/enhanced/ClientDashboard.tsx:125 | flipping one key changes the count over a list by -1, 0 or +1, depending on whether the key is in the list and what its old value was |
| Consent.ToggleCountStep | src/components/enhanced/ClientDashboard.tsx:160 | a toggle of a granted optional key lowers the active count by one, and a toggle of a withdrawn optional key raises it by one |
| Consent.Row | src/components/enhanced/ClientDashboard.tsx:258-274 | a row's switch is disabled exactly when it shows the "Required" badge, and the "Active" badge implies a checked and enabled switch |
| Consent.DisabledIffToggleIgnored | src/components/ClientDashboard.tsx:161-179 | when only essential is required, a row's switch is disabled exactly when a toggle of its key would be ignored |
| Consent.KeysDistinct | src/components/enhanced/ClientDashboard.tsx:19-28 | the listed keys are pairwise distinct |
| Consent.KeyListed | src/components/enhanced/ClientDashboard.tsx:19-28 | every category key is in the key list |
| EnhancedClient.SectorOf | src/components/enhanced/ClientDashboard.tsx:94-118 | the switch takes the banking, healthcare or e-commerce case exactly for those three strings |
| EnhancedClient.BasePolicies | src/components/enhanced/ClientDashboard.tsx:42-91 | the base catalog defines every category |
| EnhancedClient.OverriddenKeys | src/components/enhanced/ClientDashboard.tsx:94-118 | the switch's default case overrides nothing; each of the other three cases overrides exactly three descriptions, never essential's |
| EnhancedClient.OfferedTypes | src/components/enhanced/ClientDashboard.tsx:30-39 | of the eight offered business types, ecommerce, banking and healthcare take their override cases, and the other five resolve to the base catalog |
| EnhancedClient.GetConsentPolicies | src/components/enhanced/ClientDashboard.tsx:41-119 | the resolved catalog defines every category, whatever the business type |
| EnhancedClient.ResolvedPolicy | src/components/enhanced/ClientDashboard.tsx:41-119 | in every resolved catalog, each category keeps the base title, details and required flag, and only essential is required; an overridden key gets the override text; any other key gets its base definition |
| EnhancedClient.PolicyForKeepsBase | src/components/enhanced/ClientDashboard.tsx:94-116 | each case of the switch, as computed by `PolicyFor`, keeps the base title, details and required flag |
| EnhancedClient.ResolvedRequired | src/components/enhanced/ClientDashboard.tsx:41-119 | in every resolved catalog only essential is required |
| EnhancedClient.PolicyForOverrides | src/components/enhanced/ClientDashboard.tsx:94-116 | each case of the switch, as computed by `PolicyFor`, replaces the description with the case's override text (`OverrideText`) exactly for its overridden keys |
| EnhancedClient.OtherTypesGetBaseCatalog | src/components/enhanced/ClientDashboard.tsx:116-117 | any business type other than the three resolves to the base catalog itself |
| EnhancedClient.OverridesChangeDescription | src/components/enhanced/ClientDashboard.tsx:94-115 | every override text differs from the base description it replaces |
| EnhancedClient.BankingVersusHealthcare | src/components/enhanced/ClientDashboard.tsx:95-108 | banking and healthcare describe analytics and profiling differently |
| EnhancedClient.ConsentCategories | src/components/enhanced/ClientDashboard.tsx:121 | the catalog is empty exactly when no business is selected (empty string); once one is selected it defines every category |
| EnhancedClient.SelectedCategoryName | src/components/enhanced/ClientDashboard.tsx:121-129 | once a business is selected, a notification names the category by its base title, so the "Consent" fallback could appear only with no business selected, which the UI never reaches: the switches render only once a business is selected (src/components/enhanced/ClientDashboard.tsx:231) |
| EnhancedClient.BaseTitleNonEmpty | src/components/enhanced/ClientDashboard.tsx:42-91 | every base title is non-empty |
| EnhancedClient.CategoryName | src/components/enhanced/ClientDashboard.tsx:129 | the name in a notification is never empty: it is the category's title when the catalog has a non-empty one, and "Consent" exactly in the other cases |
| EnhancedClient.ToggleToast | src/components/enhanced/ClientDashboard.tsx:127-130 | a notification's title is always "Consent Updated" |
| EnhancedClient.ToastNamesNewState | src/components/enhanced/ClientDashboard.tsx:125-130 | the notification is built from the value before the toggle, yet it names the state the key is in after the toggle |
| EnhancedClient.ToastWithoutCatalog | src/components/enhanced/ClientDashboard.tsx:121-130 | with an empty catalog the name falls back to "Consent"; unreachable from the UI, because the switches render only once a business is selected (src/components/enhanced/ClientDashboard.tsx:231) |
| EnhancedClient.CatalogRowsAgreeWithToggle | src/components/enhanced/ClientDashboard.tsx:252-275 | for every business type, a catalog row's switch is disabled exactly when a toggle of its key is ignored, and its "Active" badge shows exactly for a granted optional key |
| EnhancedClient.ClientSession.constructor | src/components/enhanced/ClientDashboard.tsx:18-28 | a new session has no business selected and the initial ledger |
| EnhancedClient.ClientSession.SelectBusiness | src/components/enhanced/ClientDashboard.tsx:213 | the selector stores the chosen business type and leaves the ledger alone |
| EnhancedClient.ClientSession.ToggleConsent | src/components/enhanced/ClientDashboard.tsx:123-131 | essential returns early with no notification; any other key has its ledger entry toggled and produces the notification built from the value before the toggle; the ledger stays valid |
| EnhancedClient.ClientSession.ActiveConsents | src/components/enhanced/ClientDashboard.tsx:160 | the active count is the number of granted categories, between 1 and 8 |
| EnhancedClient.ClientSession.TotalConsents | src/components/enhanced/ClientDashboard.tsx:161 | the total count is 8 |
| LegacyClient.ConsentCategories | src/components/ClientDashboard.tsx:30-87 | the fixed category list has one entry per category |
| LegacyClient.CategoriesMatchLedger | src/components/ClientDashboard.tsx:14-87 | the fixed list names the ledger's keys in the ledger's order, with no repetitions |
| LegacyClient.EntryShape | src/components/ClientDashboard.tsx:31-86 | each entry carries its own key, and only essential is required |
| LegacyClient.CategoriesMatchBaseCatalog | src/components/ClientDashboard.tsx:30-87 | each entry of the fixed list has the same title, description, details and required flag as the base policy of the enhanced dashboard's catalog |
| LegacyClient.Rows | src/components/ClientDashboard.tsx:155-180 | one row per category; its switch is checked exactly when the ledger grants the category and disabled exactly when the category is required; the "Required" badge shows exactly for required categories; the "Active" badge shows exactly for granted optional ones |
| LegacyClient.RowsAgreeWithToggle | src/components/ClientDashboard.tsx:161-179 | a row is disabled exactly when its category is required and exactly when a toggle of it would be ignored; the "Active" badge shows exactly for a granted optional category |
| LegacyClient.LegacySession.constructor | src/components/ClientDashboard.tsx:14-23 | a new session holds the initial ledger |
| LegacyClient.LegacySession.ToggleConsent | src/components/ClientDashboard.tsx:25-28 | the ledger becomes the toggled ledger and stays valid |
| LegacyClient.LegacySession.ActiveConsents | src/components/ClientDashboard.tsx:95 | the active count is the number of granted categories, between 1 and 8 |
| LegacyClient.LegacySession.TotalConsents | src/components/ClientDashboard.tsx:96 | the total count is 8 |
| Analysis.DetectedFindings | src/components/BusinessDashboard.tsx:58-64 | the completed analysis reports five findings |
| Analysis.Tick | src/components/BusinessDashboard.tsx:51-68 | when progress + 10 reaches 100, the state becomes the completed analysis; otherwise only the progress grows, by 10; progress never exceeds 100 |
| Analysis.SeverityVariant | src/components/BusinessDashboard.tsx:310-311 | "high" gives the destructive badge, "medium" the default badge, and anything else the secondary badge |
| Analysis.AnalysisPanel.constructor | src/components/BusinessDashboard.tsx:20-24 | the panel starts idle, at progress 0, with no findings |
| Analysis.AnalysisPanel.AnalyzeCode | src/components/BusinessDashboard.tsx:46-70 | after the reset and the timer's ticks, the analysis is complete at 100 with the five findings, after exactly 10 ticks |
| Analysis.TicksFromStart | src/components/BusinessDashboard.tsx:47-67 | n ticks after the reset, for n < 10, leave the state analyzing at progress 10·n with no findings; the tenth tick completes the analysis |
| Analysis.Ticks | src/components/BusinessDashboard.tsx:50-68 | repeated ticks never make a running analysis idle, and never push progress above 100 |
| Analysis.TicksAppend | src/components/BusinessDashboard.tsx:50-51 | n + 1 ticks are one more tick after n ticks |
| Analysis.TickPreservesReachable | src/components/BusinessDashboard.tsx:51-68 | every tick keeps the state reachable from the reset |
| Analysis.TicksStayReachable | src/components/BusinessDashboard.tsx:51-68 | after any number of ticks from the reset, progress is a multiple of 10 between 0 and 100, the status is never idle, and the start button is not offered |
| Analysis.CompleteIsFixedPoint | src/components/BusinessDashboard.tsx:53-65 | further ticks leave a completed analysis unchanged |
| Analysis.TickNeverIdles | src/components/BusinessDashboard.tsx:51-67 | a tick never returns the state to idle |
| Admin.GetStatusColor | src/components/AdminDashboard.tsx:101-108 | each of granted, withdrawn and pending has its own colour, and every other status gets the muted colour |
| Admin.ComplianceBadge | src/components/AdminDashboard.tsx:411-413 | 95 and above is the accent band, 85 up to 95 the warning band, and below 85 the destructive band |
| Admin.ComplianceBadgeMonotone | src/components/AdminDashboard.tsx:411-413 | a higher score never gets a worse band |
| Admin.CountUpper | src/components/AdminDashboard.tsx:236 | the number of capital letters is at most the length |
| Admin.SpaceCapitals | src/components/AdminDashboard.tsx:236 | inserting a space before each capital adds exactly one character per capital |
| Admin.TrimStart | src/components/AdminDashboard.tsx:236 | trimming the front never lengthens a string |
| Admin.TrimEnd | src/components/AdminDashboard.tsx:236 | trimming the back never lengthens a string |
| Admin.TrimStartIsSuffix | src/components/AdminDashboard.tsx:236 | trimming the front removes a prefix made only of white space, and what is left does not start with white space |
| Admin.TrimEndIsPrefix | src/components/AdminDashboard.tsx:236 | trimming the back removes a suffix made only of white space, and what is left does not end with white space |
| Admin.Trim | src/components/AdminDashboard.tsx:236 | `trim()` never lengthens a string, and its result neither starts nor ends with white space |
| Admin.MetricLabel | src/components/AdminDashboard.tsx:236 | the label is at most one character longer per capital than the key, and it neither starts nor ends with white space |
| Admin.TrimStartKeeps | src/components/AdminDashboard.tsx:236 | trimming the front leaves a string that does not start with white space unchanged |
| Admin.TrimEndKeeps | src/components/AdminDashboard.tsx:236 | trimming the back leaves a string that does not end with white space unchanged |
| Admin.RemoveSpaces | src/components/AdminDashboard.tsx:236 | the inverse used to state the label's round trip (the source has no such operation): removing spaces never lengthens a string |
| Admin.RemoveSpacesUndoesSpaceCapitals | src/components/AdminDashboard.tsx:236 | removing spaces undoes the space insertion for a key that has no spaces |
| Admin.RemoveSpacesAppend | src/components/AdminDashboard.tsx:236 | a property of the round-trip inverse: space removal distributes over concatenation |
| Admin.RemoveSpacesIgnoresTrim | src/components/AdminDashboard.tsx:236 | when the only white space is plain spaces, trimming does not change what remains after the spaces are removed |
| Admin.RemoveSpacesDropFront | src/components/AdminDashboard.tsx:236 | dropping the leading white space (plain spaces only) does not change the space-free text |
| Admin.RemoveSpacesDropBack | src/components/AdminDashboard.tsx:236 | dropping the trailing white space (plain spaces only) does not change the space-free text |
| Admin.MetricLabelRoundTrip | src/components/AdminDashboard.tsx:236 | for a key with no white space, removing the spaces from its label gives back the key |
| Admin.SpaceCapitalsOnlyAddsSpaces | src/components/AdminDashboard.tsx:410 | for a key with no white space, the only white space in the spaced form is plain spaces |
| Admin.MetricLabelOfCamelCase | src/components/AdminDashboard.tsx:236 | for a camelCase key the label is the spaced form untrimmed, so it is one character longer per capital |
| Admin.MetricLabelOfPascalCase | src/components/AdminDashboard.tsx:410 | for a key starting with a capital, trim removes exactly the leading space that was inserted |
| Admin.SpaceCapitalsFirst | src/components/AdminDashboard.tsx:236 | the spaced form starts with a space followed by the key's first letter exactly when that letter is a capital |
| Admin.SpaceCapitalsLast | src/components/AdminDashboard.tsx:236 | the spaced form ends with the key's last character |
| Admin.AuditMarkOf | src/components/AdminDashboard.tsx:255-265 | success gives the check icon, processed gives the clock icon, and every other status gives the warning icon |
| Admin.RecentAuditEvents | src/components/AdminDashboard.tsx:253 | the recent list holds the first min(4, n) events, in order |
| Admin.AdminPanel.constructor | src/components/AdminDashboard.tsx:18 | the filter starts at "all" |
| Admin.AdminPanel.SetConsentFilter | src/components/AdminDashboard.tsx:293-313 | the filter takes the chosen value, and the list the tab renders (`ListedConsents`) stays all records, unchanged by the filter |
| Navigation.Render | src/pages/Index.tsx:20-33 | the landing screen is rendered exactly when no role is selected |
| Navigation.RenderShowsRole | src/pages/Index.tsx:24-30 | the rendered screen identifies the selected role |
| Navigation.RenderInjective | src/pages/Index.tsx:20-33 | different selections render different screens |
| Navigation.IndexPage.constructor | src/pages/Index.tsx:10 | the page starts with no role selected |
| Navigation.IndexPage.HandleRoleSelect | src/pages/Index.tsx:12-14 | selecting a role stores it |
| Navigation.IndexPage.HandleBack | src/pages/Index.tsx:16-18 | "back" clears the selected role |
| Navigation.IndexPage.CurrentScreen | src/pages/Index.tsx:20-33 | the current screen shows the page's selected role |
| Navigation.SelectThenBack | src/pages/Index.tsx:10-22 | the page starts on the landing screen; selecting a role shows that role's dashboard; "back" returns to the landing screen |

## Left out

- JSX layout, styling classes and icons are not modelled. Colours, badges and icons are represented by the enumerations `Tone`, `BadgeVariant` and `AuditMark`.
- Timers:
  - `setInterval` and `clearInterval` are not modelled.
  - `AnalysisPanel.AnalyzeCode` performs the ticks one after another. It does not model the delay between ticks, or a second click while an analysis is running.
- Toast notifications, file export, the contact and deletion request toasts, and clipboard copies are effects. They are not modelled, apart from the toggle notification, which is returned as a value.
- Consent history:
  - Both end-user dashboards declare it as a constant list (src/components/enhanced/ClientDashboard.tsx:154-158, src/components/ClientDashboard.tsx:89-93).
  - A toggle never appends to it, so the model has no history log.
  - The history card's caption promises to track all changes to consent preferences (src/components/enhanced/ClientDashboard.tsx:291), but `toggleConsent` (123-131) never appends to `consentHistory`. The model follows the code.
- The remaining fixed display data is not modelled: platform statistics, recent consent records, compliance statistics, embeddable snippets and recent activity. Only the records' shapes are modelled.
- The order of the enhanced catalog's rows is not modelled: `EnhancedClient.Catalog` is a map, while the rows render in the key order of `Object.entries` (src/components/enhanced/ClientDashboard.tsx:252), which is the base catalog's order for every business type. The earlier dashboard's list keeps its order as a sequence.
- The landing page, the role selector and the business-type selector markup are not part of this model. Only their handlers are modelled.
- `Navigation.Render`: the `default` branch of the role switch (src/pages/Index.tsx:31-32) cannot be reached once the role is known, so the model has no screen for it.
- Admin.ComplianceBadge: takes an exact `real`. JavaScript number rounding and NaN, where every comparison is false and the badge falls to the destructive band, are not modelled.
- Admin.MetricLabelRoundTrip: holds only for keys without white space. The CSS `capitalize` applied when the label is displayed is not modelled.
- Admin.AdminPanel.SetConsentFilter: the filter is stored but never used to select records (src/components/AdminDashboard.tsx:313), so the listed consents equal the records for every filter value.
- `Consent.Toggle`:
  - keys outside the eight categories are not modelled, because the key type is limited to them;
  - React's batching of state updates is not modelled, so each toggle reads the state left by the previous one.
