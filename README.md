# Job-hunt frontend: route gating, tag selection and onboarding wizard in Dafny

This project models the decision and state-update logic of a job-search web
frontend (a Next.js application). Everything else in that application is
markup. The model covers:

- **Route gating.** `isProtectedRoute`, `checkAuthStatus` and `withAuth`
  (`auth.dfy`, module `Auth`). The edge middleware's pass/redirect decision
  (`auth_middleware.dfy`, module `EdgeAuth`). The installed middleware and its
  path matcher (`middleware.dfy`, module `Middleware`).
- **The multi-select dropdown.** `MultiSelectDropdown` is a class whose
  methods are the component's handlers (`dropdown.dfy`). It uses the tag-list
  operations in `tag_list.dfy` (toggle, remove every occurrence, sort for
  display), which the two forms use too.
- **The two wizard variants.** `preferences_form.dfy` is the onboarding
  wizard. It has Previous/Next buttons, a resume size gate and two skill
  lists. `preference_form.dfy` is the editor. Its tab triggers jump
  anywhere, its resume picker accepts any file, and it has one skill list.
  `onboarding.dfy` holds the tab order both share.
- **Field validation.** `schema.dfy` is a small interpreter for the
  declarative schemas. It checks the type first, then runs the ordered
  checks, each with its message. `validation.dfy` is the `preferencesSchema`
  table. Each form module holds its own inline schema table.
- **Navigation table and theme switch.** `routes.dfy` covers the dashboard
  routes and the sidebar's exact-match rule. `theme_toggle.dfy` covers
  resolving `'system'` and the toggle request.

Outside inputs are parameters:

- The cookie store, the verification `fetch` and the `NEXT_PUBLIC_API_URL`
  environment value.
- The email test and phone parsing done by outside libraries.
- The file the user picks, and `theme`/`systemTheme` from the theme library.

`toLowerCase` is modelled as ASCII case folding. `localeCompare` ordering is
modelled as code-point lexicographic order (`Text.LessEq`), which is proved
to be a total order.

## Behaviour worth noting

- **Middleware.** On paths other than `/` and `/auth/…`, the edge middleware
  redirects requests that carry an `auth-token` cookie to the login page and
  lets those without one through. It lets every request for `/` and
  `/auth/…` through.
  Its matcher (`['/auth/:path', '/']`) only admits paths the middleware
  treats as public. So, for the paths that matcher admits, the configured
  middleware never redirects (`Middleware.NeverRedirects`).
- **Onboarding flag.** No code reads an onboarding-completed flag.
- **Unguarded steps.** The wizard's Next buttons carry no validation guard.
- **Resume sizes.** The resume gate accepts more than 100 KiB and at most
  5000 KiB. Neither variant's handler checks the file type.
- **Duplicates.** Tag selection does not enforce "no duplicates". It only
  preserves the property when the list starts without duplicates.

## Model

| member | source | states |
|---|---|---|
| `Auth.ApiUrl` | src/lib/auth.ts:4 | The environment URL when it is set and non-empty, else `http://localhost:3000/api` |
| `Auth.VerifyRequestFor` | src/lib/auth.ts:15-19 | The verification URL is the API URL followed by `/auth/verify`. The `Authorization` header is `Bearer ` followed by the token |
| `Auth.CheckAuthStatus` | src/lib/auth.ts:6-25 | True only with a non-empty `auth-token` cookie, and then exactly when the verification request for that token (bearer header, `/auth/verify` URL) answers with `ok` |
| `Auth.NoTokenNotAuthenticated` | src/lib/auth.ts:9-13 | A missing or empty token gives false, whatever the verifier would say |
| `Auth.VerifyThrowsNotAuthenticated` | src/lib/auth.ts:15-24 | A thrown verification request gives false (fail closed) |
| `Auth.IsProtectedRoute` | src/lib/auth.ts:27-31 | A path is unprotected exactly when it is `/` or starts with `/auth/` |
| `Auth.PublicPaths` | src/lib/auth.ts:28-29 | `/` and every `/auth/…` path are unprotected |
| `Auth.BareAuthProtected` | src/lib/auth.ts:29-30 | `/auth` without the slash, and `/authority`, are protected |
| `Auth.WithAuth` | src/lib/auth.ts:33-41 | An unprotected path proceeds. A protected one redirects to `/auth/login` exactly when the session check fails. No other redirect target exists |
| `Auth.UnprotectedIgnoresSession` | src/lib/auth.ts:34 | On an unprotected path, any two cookie stores and verifiers give the same outcome |
| `Auth.AuthLayoutNeverRedirects` | src/app/auth/layout.tsx:8 | `withAuth('/auth/')` always proceeds |
| `Auth.OnboardingNeedsSession` | src/app/onboarding/page.tsx:5 | The onboarding page proceeds exactly when the session check succeeds |
| `Auth.PreferencesNeedsSession` | src/app/preferences/layout.tsx:8 | The preferences layout proceeds exactly when the session check succeeds |
| `EdgeAuth.IsPublicPath` | src/middleware/auth-middleware.ts:7 | Encodes the middleware's public test: the path is `/` or starts with `/auth/` (no contract; `EdgeAuth.PublicIsUnprotected` relates it to `isProtectedRoute`) |
| `EdgeAuth.AuthMiddleware` | src/middleware/auth-middleware.ts:4-17 | Public paths pass through. On any other path the response is a redirect exactly when a non-empty token is present. The only redirect target is `/auth/login` |
| `EdgeAuth.PublicIsUnprotected` | src/middleware/auth-middleware.ts:7 | The middleware's public test is exactly the negation of `isProtectedRoute` |
| `EdgeAuth.PublicIgnoresCookie` | src/middleware/auth-middleware.ts:7-9 | On a public path the answer is pass-through, whatever the cookie |
| `EdgeAuth.HomeIsInverted` | src/middleware/auth-middleware.ts:11-16 | On `/home`, a request with a token is redirected to login and one without is served |
| `Middleware.Middleware` | src/middleware.ts:4-6 | Returns exactly what `authMiddleware` returns |
| `Middleware.Handle` | src/middleware.ts:4-10 | The middleware runs exactly for matched paths and then answers as `authMiddleware` |
| `Middleware.Matched` | src/middleware.ts:8-10 | Encodes the matcher: some entry of `['/auth/:path', '/']` admits the path, `:path` standing for one non-empty segment (no contract; `MatchedPaths` states it) |
| `Middleware.MatchedPaths` | src/middleware.ts:8-10 | The matcher admits `/`, and `/auth/` followed by one non-empty segment, and nothing else |
| `Middleware.MatchedPathsArePublic` | src/middleware.ts:9 | Every matched path is public to `authMiddleware` |
| `Middleware.NeverRedirects` | src/middleware.ts:4-10 | For the paths the modelled matcher admits, a request is either not handled or passed through |
| `Middleware.IndexWouldRedirect` | src/middleware/auth-middleware.ts:7-14 | `/index` is not public, so a request for it carrying a non-empty token would be sent to `/auth/login` if the middleware ran for it |
| `Middleware.UnmatchedExamples` | src/middleware.ts:9 | `/home`, `/auth/` and `/auth/a/b` never reach the middleware |
| `Text.ContainsOccurrence` | src/components/common/dropdown.tsx:48 | The substring scan holds exactly when the needle occurs at some position, which is what `includes` means |
| `TagList.RemoveAll` | src/components/common/dropdown.tsx:146 | The result lacks the tag, keeps every other tag's count, and is shorter by the tag's count |
| `TagList.Toggle` | src/components/common/dropdown.tsx:39 | The tag is in the result exactly when it was absent, at most once. Every other tag's count is unchanged |
| `TagList.RemoveAllConcat` | src/components/common/dropdown.tsx:146 | Removal distributes over concatenation, so the kept tags stay in order |
| `TagList.RemoveAllAbsent` | src/components/common/dropdown.tsx:39 | Removing an absent tag changes nothing |
| `TagList.RemoveAllExact` | src/components/common/dropdown.tsx:146 | When the tag does not occur before position `i` and the element at `i` is another tag, that element keeps its place: the result is the prefix, that element, then the removal applied to the rest |
| `TagList.RemoveAllKeepsNoDup` | src/components/common/dropdown.tsx:146 | Chip removal keeps a duplicate-free list duplicate-free |
| `TagList.ToggleKeepsNoDup` | src/components/common/dropdown.tsx:39 | Selection keeps a duplicate-free list duplicate-free |
| `TagList.ToggleTwiceAbsent` | src/components/common/dropdown.tsx:39 | Toggling an absent tag twice restores the exact list |
| `TagList.ToggleTwicePresent` | src/components/common/dropdown.tsx:39 | Toggling a present tag twice restores the same set of tags, with that tag moved to the end |
| `Text.LessEqReflexive` | src/components/common/dropdown.tsx:136 | Every tag compares less-or-equal to itself |
| `Text.LessEqAntisymmetric` | src/components/common/dropdown.tsx:136 | Tags that compare less-or-equal both ways are equal |
| `Text.LessEqTransitive` | src/components/common/dropdown.tsx:136 | The chip comparison is transitive |
| `Text.LessEqTotal` | src/components/common/dropdown.tsx:136 | Any two tags are comparable, so the comparator is a total order |
| `TagList.SortStrings` | src/components/common/dropdown.tsx:135-136 | The chip sort returns a sorted permutation of its input |
| `TagList.SortedUnique` | src/components/common/dropdown.tsx:135-136 | Two sorted lists with the same multiset of tags are equal, so chip order does not depend on selection order |
| `Text.ToLower` | src/components/common/dropdown.tsx:48 | Same length, each character lower-cased (ASCII letters only) |
| `Text.ToLowerIdempotent` | src/components/common/dropdown.tsx:48 | Lower-casing an already lower-cased string changes nothing |
| `Dropdown.Matches` | src/components/common/dropdown.tsx:48 | Encodes the filter's test: the lower-cased item contains the lower-cased query (no contract; used by `FilterMembership`) |
| `Dropdown.FilterItems` | src/components/common/dropdown.tsx:46-49 | The filtered list is no longer than the vocabulary and holds only matching vocabulary items |
| `Dropdown.FilterMembership` | src/components/common/dropdown.tsx:48 | An item is listed exactly when it is in the vocabulary and its lower-case form contains the lower-case query |
| `Dropdown.FilterConcat` | src/components/common/dropdown.tsx:48 | Filtering distributes over concatenation, so the matches keep their vocabulary order |
| `Dropdown.FilterEmptyQuery` | src/components/common/dropdown.tsx:48 | An empty query lists the whole vocabulary |
| `Dropdown.MultiSelectDropdown.constructor` | src/components/common/dropdown.tsx:32-36 | Initial state: empty query, closed menu, whole vocabulary listed |
| `Dropdown.MultiSelectDropdown.HandleSelectItem` | src/components/common/dropdown.tsx:38-44 | Toggles the item. Resets the list to the vocabulary only if it was empty. Clears the query. Keeps a duplicate-free selection duplicate-free |
| `Dropdown.MultiSelectDropdown.CheckListedItem` | src/components/common/dropdown.tsx:98-106 | Checking a listed menu entry toggles that entry, which is always a vocabulary item. The list is left as it was |
| `Dropdown.MultiSelectDropdown.HandleFilter` | src/components/common/dropdown.tsx:46-49 | Opens the menu and lists the filter of the vocabulary by the query |
| `Dropdown.MultiSelectDropdown.OnQueryChange` | src/components/common/dropdown.tsx:87-93 | Stores the typed text, opens the menu and filters by the new text |
| `Dropdown.MultiSelectDropdown.OnOpenChange` | src/components/common/dropdown.tsx:65-73 | Sets the menu's open flag. Changes nothing else |
| `Dropdown.MultiSelectDropdown.SelectTypedQuery` | src/components/common/dropdown.tsx:111-119 | Offered only when nothing matches. Toggles the typed query into the selection, closes the menu, clears the query and restores the vocabulary |
| `Dropdown.MultiSelectDropdown.RemoveChip` | src/components/common/dropdown.tsx:146 | Removes every occurrence of that tag and nothing else |
| `Dropdown.MultiSelectDropdown.DisplayChips` | src/components/common/dropdown.tsx:135-136 | Replaces the selection with its sorted permutation and returns it as the chips |
| `Schema.FailedChecks` | src/lib/validation.ts:24-28 | No message exactly when every check passes. Every message belongs to a failing check, and every failing check's message is reported |
| `Schema.TypeMessage` | src/lib/validation.ts:4-40 | The field's custom message when it has one. Otherwise "Required" for a missing value, and the expected/received wording for a value of another type |
| `Schema.FieldIssues` | src/lib/validation.ts:4-40 | A missing or wrong-typed value reports only its type message. Otherwise no issue exactly when every check passes |
| `Schema.SchemaIssues` | src/lib/validation.ts:4-40 | An issue is reported exactly for each message of a field, under that field's key |
| `Schema.SchemaValidIffFieldsValid` | src/lib/validation.ts:4-40 | A schema reports nothing exactly when every field is valid |
| `Validation.PersonalInfoSchema` | src/lib/validation.ts:5-29 | Encodes the personal section's nine field rules in order (constant; its rules are stated by the `…Rule` lemmas) |
| `Validation.JobPreferencesSchema` | src/lib/validation.ts:30-39 | Encodes the job preferences section's eight field rules in order (constant; stated by the `…Rule` lemmas) |
| `Validation.InSection` | src/lib/validation.ts:4-40 | Each issue keeps its message and position, and its key becomes `section.field` |
| `Validation.SectionReports` | src/lib/validation.ts:4-40 | A section reports an issue exactly when its message is a message of one of the section's fields, keyed `section.field` |
| `Validation.Validate` | src/lib/validation.ts:4-40 | Reports as many issues as the two sections together. An issue is reported exactly when it is a field's message under that field's `personalInfo.` or `jobPreferences.` key |
| `Validation.ShortFirstNameReported` | src/lib/validation.ts:6 | Whatever else the object holds, a first name under 3 characters is reported under `personalInfo.first_name` with its message |
| `Validation.ValidIffEveryField` | src/lib/validation.ts:4-40 | The whole object is valid exactly when every field of both sections is valid |
| `Validation.FirstNameRule` | src/lib/validation.ts:6 | `first_name` is rejected exactly below 3 characters, with its message |
| `Validation.RequiredPersonalTextRule` | src/lib/validation.ts:7-23 | `last_name`, `address`, `degree`, `course` and `university` are rejected exactly when empty, each with its own message |
| `Validation.RequiredJobTextRule` | src/lib/validation.ts:31-34 | `role`, `current_lpa` and `years_of_experience` are rejected exactly when empty, each with its own message |
| `Validation.RequiredMessagesDistinct` | src/lib/validation.ts:7-38 | The required-field messages are pairwise different |
| `Validation.GraduatedYearRule` | src/lib/validation.ts:24-28 | Accepted exactly at length 4, any characters (`"abcd"` passes). An empty year reports the minimum and the required messages. A longer one reports only the library's maximum-length message ("String must contain at most 4 character(s)"). That message differs from a missing year's |
| `Validation.RequiredListRule` | src/lib/validation.ts:32-38 | Every list field is rejected exactly when empty, whatever its entries |
| `Validation.ContactRules` | src/lib/validation.ts:8-19 | `phone` passes exactly when the parser yields a number reporting itself valid. `email` passes exactly when the email test accepts it |
| `Validation.WrongTypeRule` | src/lib/validation.ts:4-40 | A missing field reports only "Required". A field of another type reports only "Expected <type>, received <type>" |
| `Onboarding.Index` | src/components/forms/preferences-form.tsx:36-53 | Each step's position in the fixed four-tab order |
| `Onboarding.TabsAreDistinct` | src/components/forms/preferences-form.tsx:36-53 | Positions and tab values each identify the step |
| `PreferencesForm.Controls` | src/components/forms/preferences-form.tsx:298-611 | Encodes each tab's foot buttons: Next on the first three tabs, Previous on the last three, Submit on the last (no contract; stated by the lemmas below) |
| `PreferencesForm.NextIsSuccessor` | src/components/forms/preferences-form.tsx:298-499 | A Next button leads to `t` exactly when `t` immediately follows the current step |
| `PreferencesForm.PreviousIsPredecessor` | src/components/forms/preferences-form.tsx:353-609 | A Previous button leads to `t` exactly when `t` immediately precedes the current step |
| `PreferencesForm.PreviousUndoesNext` | src/components/forms/preferences-form.tsx:353-499 | Previous from a Next target leads back |
| `PreferencesForm.WizardEnds` | src/components/forms/preferences-form.tsx:298-611 | The first tab has no Previous. The last has Submit and no Next. Only the last has Submit |
| `PreferencesForm.SizeGate` | src/components/forms/preferences-form.tsx:125-133 | Accepted exactly for 102400 < size ≤ 5120000. Too small exactly at or below 102400. Too large exactly above 5120000 |
| `PreferencesForm.Notice` | src/components/forms/preferences-form.tsx:125-133 | No notice exactly for an accepted file. A too-small file gets the minimum notice and a too-large one the maximum notice |
| `PreferencesForm.SizeGateBoundaries` | src/components/forms/preferences-form.tsx:125-126 | The verdicts at 102400, 102401, 5120000 and 5120001 |
| `PreferencesForm.Wizard.constructor` | src/components/forms/preferences-form.tsx:89-92 | Starts on the first tab, `personal`, with no resume and no skills |
| `PreferencesForm.Wizard.Click` | src/components/forms/preferences-form.tsx:298-611 | Next moves one step forward, Previous one step back, Submit changes nothing. There is no validation guard. Other state is unchanged |
| `PreferencesForm.Wizard.ReadFile` | src/components/forms/preferences-form.tsx:119-139 | The first file becomes the resume if the gate accepts it. Otherwise the old resume stays and the minimum or maximum notice is returned |
| `PreferencesForm.Wizard.ToggleSkill` | src/components/forms/preferences-form.tsx:141-151 | Toggles the skill in the addressed list. The other list is unchanged |
| `PreferencesForm.Wizard.RemoveChip` | src/components/forms/preferences-form.tsx:386-448 | Removes the skill from the addressed list. The other list is unchanged |
| `PreferencesForm.Wizard.DisplayChips` | src/components/forms/preferences-form.tsx:377-433 | Sorts the addressed list in place into a sorted permutation |
| `PreferencesForm.FullnameRule` | src/components/forms/preferences-form.tsx:64 | `fullname` is rejected exactly below 6 characters, with its message |
| `PreferencesForm.PhoneMustBeNumber` | src/components/forms/preferences-form.tsx:68-70 | `phone` passes exactly when it is a number. Text is rejected with the phone message |
| `PreferencesForm.PreferenceSchema` | src/components/forms/preferences-form.tsx:63-82 | Encodes the form's fourteen field rules in order (constant; stated by `FullnameRule`, `PhoneMustBeNumber`, `DefaultsRejected`) |
| `PreferencesForm.DefaultValues` | src/components/forms/preferences-form.tsx:100-115 | There is a default for exactly the schema's fields. The work preference is the given one |
| `PreferencesForm.DefaultsRejected` | src/components/forms/preferences-form.tsx:98-115 | The default values fail, and the first issue is the full name's |
| `PreferenceForm.TabItems` | src/components/forms/preference-form.tsx:30-51 | Encodes the four triggers with their titles and `disabled: false` (constant; stated by `TriggersAllEnabled`) |
| `PreferenceForm.Controls` | src/components/forms/preference-form.tsx:258-405 | Encodes each tab's foot buttons: none on the job preferences tab, never a Submit (no contract; stated by the lemmas below) |
| `PreferenceForm.TriggersAllEnabled` | src/components/forms/preference-form.tsx:30-51 | The four triggers follow the tab order, carry their titles and none is disabled |
| `PreferenceForm.EveryStepReachable` | src/components/forms/preference-form.tsx:120-129 | Every step has an enabled trigger |
| `PreferenceForm.ButtonsMoveToNeighbours` | src/components/forms/preference-form.tsx:258-397 | Next leads to `t` exactly when `t` is the successor. Previous leads only to the predecessor |
| `PreferenceForm.LastTabHasNoControls` | src/components/forms/preference-form.tsx:400-405 | The job preferences tab has no buttons, and no tab has Submit |
| `PreferenceForm.Editor.constructor` | src/components/forms/preference-form.tsx:77-80 | Starts on `personal` with no resume and no skills |
| `PreferenceForm.Editor.SelectTab` | src/components/forms/preference-form.tsx:120-129 | An enabled trigger makes its tab active, whatever the current tab |
| `PreferenceForm.Editor.Click` | src/components/forms/preference-form.tsx:258-397 | Next and Previous move to the adjacent step. Other state is unchanged |
| `PreferenceForm.Editor.ReadFile` | src/components/forms/preference-form.tsx:97-109 | The first chosen file is stored, whatever its size |
| `PreferenceForm.Editor.ToggleSkill` | src/components/forms/preference-form.tsx:111-115 | Toggles the skill and keeps a duplicate-free list duplicate-free |
| `PreferenceForm.Editor.RemoveChip` | src/components/forms/preference-form.tsx:350-352 | Removes exactly that skill, keeping the rest in order |
| `PreferenceForm.Editor.DisplayChips` | src/components/forms/preference-form.tsx:339-340 | Sorts the list in place into a sorted permutation |
| `PreferenceForm.PreferenceSchema` | src/components/forms/preference-form.tsx:61-74 | Encodes the editor's eight field rules in order (constant; stated by `FullnameRule` and `PhoneMustBeNumber`) |
| `PreferenceForm.FullnameRule` | src/components/forms/preference-form.tsx:62 | `fullname` is rejected exactly below 6 characters, with its message |
| `PreferenceForm.PhoneMustBeNumber` | src/components/forms/preference-form.tsx:66-68 | `phone` passes exactly when it is a number. A typed `"+14155552671"` is rejected with the phone message |
| `Routes.DashboardRoutes` | src/lib/routes.ts:18-55 | Encodes the six navigation entries (constant; stated by the lemmas below) |
| `Routes.IsActive` | src/components/dashboard/sidebar-nav.tsx:64 | Encodes the sidebar's exact-match rule (no contract; used by `AtMostOneActive`) |
| `Routes.TableShape` | src/lib/routes.ts:18-55 | Six routes titled Home, Jobs, Analytics, Profile, Settings, Help, in that order |
| `Routes.HrefsDistinct` | src/lib/routes.ts:18-55 | The `href` values are pairwise distinct |
| `Routes.AllProtected` | src/lib/routes.ts:18-55 | Every `href` is protected by `isProtectedRoute` |
| `Routes.AtMostOneActive` | src/components/dashboard/sidebar-nav.tsx:64 | Two entries active for the same path are the same entry |
| `ThemeToggle.Resolve` | src/components/theme/theme-toggle.tsx:18-21 | The system theme when the preference is `'system'`, otherwise the preference |
| `ThemeToggle.Requested` | src/components/theme/theme-toggle.tsx:13-16 | `'dark'` exactly from a resolved `'light'`, and `'light'` from anything else, including undefined |
| `ThemeToggle.ShowsSun` | src/components/theme/theme-toggle.tsx:25 | Encodes the icon choice: the sun exactly for `'light'` (no contract; used by `IconAlternates` and `Icon`) |
| `ThemeToggle.ToggleTwice` | src/components/theme/theme-toggle.tsx:13-21 | From a resolved light or dark theme, two clicks return to it. Neither click requests `'system'` |
| `ThemeToggle.IconAlternates` | src/components/theme/theme-toggle.tsx:13-29 | After a click the sun icon shows exactly when it did not before |
| `ThemeToggle.ThemeToggle.constructor` | src/components/theme/theme-toggle.tsx:10 | The selected theme starts undefined |
| `ThemeToggle.ThemeToggle.SyncSelectedTheme` | src/components/theme/theme-toggle.tsx:18-21 | The effect sets the selected theme to the resolved theme |
| `ThemeToggle.ThemeToggle.ToggleTheme` | src/components/theme/theme-toggle.tsx:13-16 | Requests `'dark'` or `'light'`, as `Requested` says |
| `ThemeToggle.ThemeToggle.Icon` | src/components/theme/theme-toggle.tsx:25-29 | The sun shows exactly for a resolved `'light'` |

## Left out

- Network, cookies and environment. `cookies()`, `fetch` and
  `process.env` are parameters. The verification endpoint's own behaviour is
  not part of this model.
- Next.js `redirect` throws an exception; here it is the `RedirectTo`
  result value. `NextResponse.redirect` builds an absolute URL on the
  request's origin; here it is the `Redirect(path)` value.
- The matcher's finer behaviour is not modelled: trailing slashes, case,
  the framework's data routes, and the framework's expansion of the `/`
  entry to also admit `/index` (and `/index.json`). `Middleware.NeverRedirects`
  holds for the paths the modelled matcher admits. `/index` is not public
  (`Middleware.IndexWouldRedirect`), so a request for it with a token would be
  redirected to the login page. A `:path` parameter is one non-empty segment
  without `/`.
- String length counts characters, where JavaScript counts UTF-16 code
  units. The two differ only for characters outside the Basic Multilingual
  Plane.
- `toLowerCase` folds only ASCII letters. `localeCompare` is code-point
  lexicographic order.
- The library's default messages are identified by their kind
  (`Schema.DefaultKind`) rather than by their exact text.
- The file pickers' `accept=".pdf,.doc,.docx"` filter
  (src/components/forms/preferences-form.tsx:327,
  src/components/forms/preference-form.tsx:289) belongs to the browser's
  file dialog. It is not modelled: `ReadFile` receives whatever files were
  chosen.
- The email regular expression and phone-number parsing belong to outside
  libraries. They are parameters (`Schema.Oracles`).
- Form mechanics are not modelled: how the form library collects and shows
  issues (the first issue per field, timing, `mode: 'onSubmit'`) and how
  inputs turn into values. Number fields hold integers, because no rule
  looks at the numeric value.
- The onboarding form's Submit button has no handler, and the editor has no
  submit control at all. Neither form therefore ever runs its schema; the
  model still states their rules.
- `WorkPreferences` (the default work preference) is not part of this model.
  It is a parameter of `PreferencesForm.DefaultValues`. The skill
  vocabularies loaded from JSON are not part of this model either.
- Async and UI effects are not modelled: the `FileReader` read (the gate
  sees only the byte count), toasts (returned as the notice), focus, widths,
  the deferred re-open at dropdown.tsx:68-71 and the active-dropdown flags.
- `Dropdown.MultiSelectDropdown`: `selected` belongs to the parent and is
  modelled as a field the handlers reassign. The in-place `sort` is modelled
  as a reassignment with the sorted list, not as aliasing of a shared array.
- `ThemeToggle.ToggleTwice`: assumes that `setTheme(t)` makes the library's
  `theme` equal to `t`. That is the library's behaviour, not shown here.
- Presentational components, dashboard chrome, the floating-point
  `percentUsed`, Supabase persistence (src/lib/db/user.ts) and constant data
  files carry no decision logic. They are not modelled.
