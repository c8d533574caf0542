# BudgetBloom, modelled in Dafny

BudgetBloom is a personal budgeting web application. The user records expenses in six categories, sets one savings goal per month, views the spending as a list, a calendar and charts, and receives nudges and achievement notifications. Every record lives in a remote data store. What this project models is the application's own logic after each remote call returns:

- **The expense store** (`ExpenseContext`). It is a class holding the signed-in user, the expense list and the goal list. Its methods are add, update, delete and fetch for expenses, and the same three for goals. Beside them are the aggregations: total, by category, range filter, month filter, category totals and top category.
- **The notification store and the nudge rules** (`NotificationContext`). The list updates, the unread count, the three nudge rules with their duplicate check, and the goal achievements.
- **The dismissed-nudge list** (`DismissedNudges`). An append-only list of ids with an idempotent dismiss.
- **The forms.** The amount filter and the validators of the add, edit, login and register forms, and what each form submits and resets (`AddExpenseForm`, `EditExpenseForm`, `LoginForm`, `RegisterForm`).
- **The views.** The filtered and sorted list (`ExpenseList`). The padded month grid and the intensity bands (`ExpenseCalendar`). The goal card (`SavingsGoals`). The 30-day, 4-week, month-over-month and pie figures (`AnalyticsDashboard`). The notification filter (`NotificationPanel`). The banner filter and the dashboard figures (`Dashboard`).
- **Lookups.** The category table (`CategoryIcon`) and the theme toggle (`Theme`).

`Prelude` holds the JavaScript array and string operations the code relies on: `filter`, `find`, `reverse`, `split`, `join`, `trim`, `replace` and the email pattern. `Calendar` stands in for `Date` and the date-fns helpers. It counts instants in milliseconds and days from 1970-01-01, with the local zone fixed at UTC. Months and years come from the proleptic Gregorian calendar.

Money is `real`. Each remote call is a parameter: a `Response` that is either a success carrying the data the store assigns, or an error. A store method returns a `CallOutcome`, which is one of three things:

- `NotSignedIn`: nobody is signed in, so nothing was sent;
- `Done`: the call succeeded;
- `Threw`: the error was rethrown.

The state changes only on `Done`. State the source keeps in React hooks becomes a `class` with the same fields. Each handler that sets that state becomes a method whose `ensures` gives the whole new state. Pure derivations are functions, and the lemmas beside them state what those derivations promise.

## Model

| member | source | states |
|---|---|---|
| Theme.InitialTheme | src/hooks/use-theme.ts:6-15 | a non-empty saved theme is used as it is; otherwise the theme is `dark` exactly when the OS prefers dark, and `light` otherwise |
| Theme.Toggled | src/hooks/use-theme.ts:29-31 | the result is `light` exactly when the theme was `dark`, and `dark` for any other text |
| Theme.ToggleTwice | src/hooks/use-theme.ts:29-31 | toggling twice gives back `light` or `dark`; any other saved text ends up `light` |
| Theme.ThemeState.constructor | src/hooks/use-theme.ts:6-27 | the state starts at the initial theme; the dark class is set exactly when it is `dark`, and the theme is saved |
| Theme.ThemeState.ToggleTheme | src/hooks/use-theme.ts:17-31 | the theme becomes the toggled one, the dark class follows it and the new theme is saved |
| CategoryIcon.ConfigOf | src/components/CategoryIcon.tsx:17-60 | each entry's `color` is `text-category-` followed by its key, and its `bgColor` is `bg-category-` followed by its key |
| CategoryIcon.CategoryOfKey | src/components/CategoryIcon.tsx:12 | a key names the category whose key it is; a string that is no category's key names none |
| CategoryIcon.GetCategoryConfig | src/components/CategoryIcon.tsx:78-80 | each of the six keys gives its own entry, and any other string that is not the name of a property every JavaScript object inherits gives the `other` entry |
| CategoryIcon.ConfigDistinct | src/components/CategoryIcon.tsx:17-60 | two categories share a display name, an icon or a text colour only when they are the same category |
| DismissedNudges.InitialDismissed | src/contexts/DismissedNudgesContext.tsx:11-18 | a missing or empty saved value gives the empty list, and so does one that fails to parse; otherwise it is the parsed list |
| DismissedNudges.Dismissed | src/contexts/DismissedNudgesContext.tsx:24-31 | after a dismissal the id is in the list, and the list holds exactly the earlier ids and that id |
| DismissedNudges.DismissIdempotent | src/contexts/DismissedNudgesContext.tsx:26 | dismissing an id that is already there changes nothing, so dismissing twice equals dismissing once |
| DismissedNudges.DismissAppends | src/contexts/DismissedNudgesContext.tsx:27 | a new id is appended at the end, the earlier ids keep their order, and the list grows by at most one |
| DismissedNudges.DismissKeepsDistinct | src/contexts/DismissedNudgesContext.tsx:24-31 | a list without duplicates still has none after a dismissal |
| DismissedNudges.DismissedNudgesProvider.constructor | src/contexts/DismissedNudgesContext.tsx:11-18 | the provider starts with the list loaded from the saved value |
| DismissedNudges.DismissedNudgesProvider.DismissNudge | src/contexts/DismissedNudgesContext.tsx:24-31 | the list becomes the dismissed list, and a list without duplicates stays without them |
| LoginForm.EmailError | src/components/LoginForm.tsx:24-28 | an empty address gets `Email is required`; any other address that fails the pattern gets `Please enter a valid email`; there is no error exactly when the pattern matches |
| LoginForm.MatchedNotEmpty | src/components/LoginForm.tsx:24-28 | an address the pattern accepts has at least five characters and a '.', so the required test never hides a pattern match |
| LoginForm.PasswordError | src/components/LoginForm.tsx:30-34 | an empty password gets `Password is required`; a non-empty one shorter than six UTF-16 code units (JavaScript's `length`) gets `Password must be at least 6 characters`; there is no error exactly when it is six code units or longer |
| LoginForm.PasswordCountsCodeUnits | src/components/LoginForm.tsx:32 | three characters above U+FFFF are six code units and pass the length test; five letters do not |
| LoginForm.EmailExamples | src/components/LoginForm.tsx:26 | `ana@mail.com` passes the pattern and `ana@mail` (no dot after the '@') fails it |
| LoginForm.ValidateLogin | src/components/LoginForm.tsx:21-38 | only `email` and `password` can be keys; each is present exactly when its check fails and holds that check's message; the map is empty exactly when both checks pass |
| LoginForm.Form.constructor | src/components/LoginForm.tsx:15-17 | both fields start empty, with no errors |
| LoginForm.Form.HandleSubmit | src/components/LoginForm.tsx:40-58 | `login` is called, with the fields as typed, exactly when both checks pass; the errors hold exactly the failed checks, each with that check's message; the fields are unchanged |
| Prelude.EmailPatternAnchors | src/components/LoginForm.tsx:26 | the unanchored pattern `\S+@\S+\.\S+` matches exactly when some '@' has a non-space character before it, only non-space characters up to a later '.', and a non-space character after that '.' |
| Prelude.EmailPatternShape | src/components/LoginForm.tsx:26 | an address the pattern matches holds an '@' and a '.' and has at least five characters |
| Prelude.EmailPatternBuild | src/components/LoginForm.tsx:26 | non-empty runs of non-space characters joined by '@' and '.' always match |
| RegisterForm.NameError | src/components/RegisterForm.tsx:39-43 | a blank name gets `Name is required`; a non-blank name whose trimmed text is shorter than two UTF-16 code units gets `Name must be at least 2 characters`; there is no error exactly when the trimmed name is two code units or longer |
| RegisterForm.NameCountsCodeUnits | src/components/RegisterForm.tsx:41 | a name of one character above U+FFFF is two code units long and passes; a one-letter name does not |
| RegisterForm.ConfirmError | src/components/RegisterForm.tsx:57-61 | an empty confirmation gets `Please confirm your password`; one that differs from the password gets `Passwords do not match`; there is no error exactly when it is non-empty and equal |
| RegisterForm.ValidateRegistration | src/components/RegisterForm.tsx:31-65 | only the four field names can be keys; each is present exactly when its check fails and holds exactly that check's message; the map is empty exactly when all four pass |
| RegisterForm.ValidRegistrationConfirmed | src/components/RegisterForm.tsx:51-61 | a valid registration has a non-blank name and a confirmation of at least six code units equal to the password |
| RegisterForm.Form.constructor | src/components/RegisterForm.tsx:16-27 | every field starts empty, with no errors and the pop-up closed |
| RegisterForm.Form.HandleSubmit | src/components/RegisterForm.tsx:67-89 | `register` is called exactly when the form is valid, with the trimmed name; the pop-up opens for that address only when the call succeeds; otherwise the pop-up state is unchanged |
| EditExpenseForm.Edited | src/components/EditExpenseForm.tsx:67-74 | the updated record keeps the original id, takes a positive amount and the chosen category, a trimmed non-blank description, the note or nothing when it is blank, and the picked date |
| EditExpenseForm.EditedUnchanged | src/components/EditExpenseForm.tsx:32-36 | submitting an expense's own values unchanged gives the original expense back, when its texts are already trimmed and its amount text reads back as its amount |
| EditExpenseForm.Form.constructor | src/components/EditExpenseForm.tsx:32-38 | the dialog starts with the expense's own amount text, category, description, note (empty when missing) and date, with no errors and not submitting |
| EditExpenseForm.Form.SetAmount | src/components/EditExpenseForm.tsx:131-135 | the field holds the filter as written applied to the input, which has only digits and '.' and at most one '.' (with three pieces or more the fraction is not cut to two digits); the amount error is dropped; nothing else changes |
| EditExpenseForm.Form.SetCategory | src/components/EditExpenseForm.tsx:160-163 | the category is set and its error is dropped; nothing else changes |
| EditExpenseForm.Form.SetDescription | src/components/EditExpenseForm.tsx:206-209 | the description takes the text and its error is dropped; nothing else changes |
| EditExpenseForm.Form.SetNote | src/components/EditExpenseForm.tsx:258 | the note takes the text; nothing else changes |
| EditExpenseForm.Form.SelectDate | src/components/EditExpenseForm.tsx:244 | a picked date replaces the date and a cleared selection keeps it; nothing else changes |
| EditExpenseForm.Form.HandleSubmit | src/components/EditExpenseForm.tsx:40-81 | an invalid form only records its errors, sends nothing and never closes; a valid one sends the edited expense and closes exactly when the `onUpdate` promise resolves (not when the update succeeds: see Left out); the fields are kept and submitting ends false |
| AddExpenseForm.Cleaned | src/components/AddExpenseForm.tsx:108 | the cleaned text holds only digits and '.', keeps every digit and '.' of the input, and keeps them in order |
| AddExpenseForm.FormatAmountAsWrittenShape | src/components/AddExpenseForm.tsx:106-122 | the filter as written outputs only digits and '.', with at most one '.'; when the cleaned text had at most one '.', there are at most two digits after it |
| AddExpenseForm.FormatAmountAsWrittenJoinsAllDecimals | src/components/AddExpenseForm.tsx:111-114 | with two decimal points, the filter as written keeps every digit after the first point, so the fraction is as long as both runs together |
| AddExpenseForm.FormatAmountAsWrittenNotIdempotent | src/components/AddExpenseForm.tsx:111-119 | `1.2.34` becomes `1.234`, which is not a canonical amount and which a second pass cuts to `1.23`; the corrected filter gives `1.23` at once |
| AddExpenseForm.AsWrittenTwoPoints | src/components/AddExpenseForm.tsx:112-114 | the filter as written turns `1.2.34` into `1.234` |
| AddExpenseForm.CorrectedTwoPoints | src/components/AddExpenseForm.tsx:112-119 | the corrected filter turns `1.2.34` into `1.23` |
| AddExpenseForm.ThreeDecimals | src/components/AddExpenseForm.tsx:116-119 | `1.234` is not a canonical amount, and the filter cuts it to `1.23` |
| AddExpenseForm.LongFractionCut | src/components/AddExpenseForm.tsx:116-119 | digits, one point and more than two digits are not canonical, and the filter keeps only the first two digits after the point |
| AddExpenseForm.FormatAmount | src/components/AddExpenseForm.tsx:106-122 | the corrected filter always outputs a canonical amount: only digits and '.', at most one '.', and at most two digits after it |
| AddExpenseForm.FormatAmountTruncatesJoinedDecimals | src/components/AddExpenseForm.tsx:112-114 | with two decimal points, the corrected filter joins the digits after the first point and keeps only the first two |
| AddExpenseForm.FormatAmountKeepsCanonical | src/components/AddExpenseForm.tsx:106-122 | either filter leaves a canonical amount (digits, an optional '.' and up to two digits) unchanged |
| AddExpenseForm.FormatAmountIdempotent | src/components/AddExpenseForm.tsx:106-122 | filtering the corrected filter's output again changes nothing |
| AddExpenseForm.CleanedKeepsAmountChars | src/components/AddExpenseForm.tsx:108 | text of digits and points passes the character filter whole |
| AddExpenseForm.DottedShape | src/components/AddExpenseForm.tsx:111 | digits, one point and digits split at the point into exactly those two runs, and the second run is the fraction |
| AddExpenseForm.ParseCanonical | src/components/AddExpenseForm.tsx:45 | on digits with at most one point, `Number` is `NaN` only for a lone point; otherwise it is never negative, and it is positive exactly when some digit is not 0 |
| AddExpenseForm.DigitsValuePositive | src/components/AddExpenseForm.tsx:45 | a run of digits has a positive value exactly when one of its digits is not 0 |
| AddExpenseForm.CanonicalAmountValid | src/components/AddExpenseForm.tsx:45-47 | for any text of digits with at most one '.' (all the filter lets into the field), the amount test passes exactly when some digit other than 0 has been typed |
| AddExpenseForm.ValidateFields | src/components/AddExpenseForm.tsx:42-59 | each failing test adds exactly its field and message and nothing else; the map is empty exactly when the amount is non-empty, numeric and above 0, a category is chosen and the trimmed description is non-empty |
| AddExpenseForm.NoteOf | src/components/AddExpenseForm.tsx:76 | the note is absent exactly when the text is all white space; otherwise it is the trimmed text |
| AddExpenseForm.Submitted | src/components/AddExpenseForm.tsx:72-78 | the record has a positive amount, the chosen category, a trimmed non-blank description, the picked date, and the note or nothing when it is blank |
| AddExpenseForm.Form.constructor | src/components/AddExpenseForm.tsx:27-38 | the form starts with empty fields, no category, the date at midnight on June 1st 2025, no errors, and not submitting |
| AddExpenseForm.Form.SetAmount | src/components/AddExpenseForm.tsx:152-156 | the field holds the filter as written applied to the input, which has only digits and '.' and at most one '.' (with three pieces or more the fraction is not cut to two digits); the amount error is dropped; nothing else changes |
| AddExpenseForm.Form.SetCategory | src/components/AddExpenseForm.tsx:175-178 | the category is set and its error is dropped; nothing else changes |
| AddExpenseForm.Form.SetDescription | src/components/AddExpenseForm.tsx:215-218 | the description takes the text and its error is dropped; nothing else changes |
| AddExpenseForm.Form.SetNote | src/components/AddExpenseForm.tsx:264 | the note takes the text; nothing else changes |
| AddExpenseForm.Form.SelectDate | src/components/AddExpenseForm.tsx:249 | a picked date replaces the date and a cleared selection keeps it; nothing else changes |
| AddExpenseForm.Form.HandleSubmit | src/components/AddExpenseForm.tsx:61-104 | an invalid form only records its errors and keeps its fields; a valid one issues the record built from its fields, then resets to empty fields with the June 1st 2025 date and no errors, and ends not submitting |
| Prelude.Trim | src/components/AddExpenseForm.tsx:53 | the trimmed text neither starts nor ends with white space |
| Prelude.TrimSlice | src/components/AddExpenseForm.tsx:53 | the trimmed text is the piece of the text between a run of leading white space and a run of trailing white space |
| Prelude.TrimStartSuffix | src/components/AddExpenseForm.tsx:53 | trimming the start leaves a suffix of the text, everything before it being white space |
| Prelude.TrimEndPrefix | src/components/AddExpenseForm.tsx:53 | trimming the end leaves a prefix of the text, everything after it being white space |
| Prelude.JsLength | src/components/LoginForm.tsx:32 | JavaScript's `length` of a text lies between its number of characters and twice that |
| Prelude.JsLengthBasic | src/components/LoginForm.tsx:32 | for a text with no character above U+FFFF, JavaScript's `length` is its number of characters |
| Prelude.TrimEmptyIff | src/components/AddExpenseForm.tsx:53 | a text trims to nothing exactly when every character is white space |
| NotificationPanel.DismissedPairs | src/components/NotificationPanel.tsx:56-60 | a key is among the dismissed pairs exactly when some notification whose id was dismissed has that title and message key |
| NotificationPanel.FilteredNotifications | src/components/NotificationPanel.tsx:61-63 | the list shown is a subsequence of the notifications; a notification is shown exactly when it is not a nudge, or its key is not among the dismissed pairs, and it is as long as the number of such entries, so every such entry is kept as often as it occurs |
| NotificationPanel.FilteredNotificationsSpec | src/components/NotificationPanel.tsx:55-63 | non-nudges are always shown; a nudge sharing its key with a dismissed notification is never shown; with nothing dismissed the whole list is shown |
| NotificationPanel.PairKeysCanCollide | src/components/NotificationPanel.tsx:59-62 | two different title and message pairs can give the same `title + '\|\|' + message` key |
| NotificationPanel.NotificationIcon | src/components/NotificationPanel.tsx:39-53 | a non-empty icon of the notification's own wins; otherwise the icon is the one for its type, and it is the page icon exactly when the type is not one of the four known ones |
| NotificationPanel.NotificationStyle | src/components/NotificationPanel.tsx:24-37 | the default style `bg-card border` is chosen exactly when the type is not one of the four known ones |
| Dashboard.EmailLocalPart | src/components/Dashboard.tsx:33 | `email.split('@')[0]` is a prefix of the address with no '@' in it, and it stops at the first '@' when there is one |
| Dashboard.UserName | src/components/Dashboard.tsx:33 | the name is never empty; a non-empty metadata name comes first, then the non-empty text before the first '@', then `User` |
| Dashboard.ThisMonthExpenses | src/components/Dashboard.tsx:35-38 | a subsequence of the expenses holding exactly those dated in the month and year of now, as many as there are such entries |
| Dashboard.ThisMonthTotal | src/components/Dashboard.tsx:35-39 | the total equals the month's spending the savings-goals card shows for the same instant |
| Dashboard.ThisMonthTotalSnoc | src/components/Dashboard.tsx:39 | each expense adds its amount to the total exactly when it is dated in the month of now |
| Dashboard.RecentExpenses | src/components/Dashboard.tsx:41 | the recent expenses are the prefix of the list of length min(3, n) |
| Dashboard.AddedExpenseIsRecent | src/components/Dashboard.tsx:41 | a newly prepended expense is the first recent expense, and the older ones move down one place |
| Dashboard.NudgeBanners | src/components/Dashboard.tsx:82-91 | the banners are a subsequence of the notifications; a notification has a banner exactly when it is an unread nudge whose key is not among the dismissed pairs, and there are as many banners as such entries |
| Dashboard.BannersAreUnreadNudgesOfPanel | src/components/Dashboard.tsx:82-91 | the banners are exactly the unread nudges of the notification panel's list, in the same order |
| Dashboard.BannerIconMatchesPanel | src/components/Dashboard.tsx:94 | a nudge's banner shows the icon the notification panel shows for it |
| Dashboard.DismissBanner | src/components/Dashboard.tsx:101-104 | the id joins the dismissed ids; the nudge is marked read when signed in and the call succeeds, otherwise the list is unchanged; afterwards no banner has that id |
| NotificationContext.UnreadCount | src/contexts/NotificationContext.tsx:233 | the unread count is the number of notifications not yet read, and never more than the list's length |
| NotificationContext.CountAppend | src/contexts/NotificationContext.tsx:233 | the count over two lists put together is the sum of their counts |
| NotificationContext.MarkReadById | src/contexts/NotificationContext.tsx:177-181 | the length and order are kept; entries with the id become read and every other entry is unchanged |
| NotificationContext.MarkAllRead | src/contexts/NotificationContext.tsx:197-199 | the length and order are kept and every entry becomes read, with its other fields unchanged |
| NotificationContext.ClearById | src/contexts/NotificationContext.tsx:214 | the result is a subsequence with no entry of that id that keeps every entry with another id, and is exactly as long as the number of entries with another id |
| NotificationContext.MarkAllReadClearsUnread | src/contexts/NotificationContext.tsx:197-199 | after marking all read, the unread count is 0 |
| NotificationContext.MarkReadLowersUnread | src/contexts/NotificationContext.tsx:177-181 | marking an id read lowers the unread count by the number of unread entries with that id, and never raises it |
| NotificationContext.AddRaisesUnread | src/contexts/NotificationContext.tsx:157-162 | a new notification raises the unread count by one unless the store returned it as read |
| NotificationContext.NotificationProvider.constructor | src/contexts/NotificationContext.tsx:106-108 | the store starts for the given user with an empty list |
| NotificationContext.NotificationProvider.SignOut | src/contexts/NotificationContext.tsx:130-136 | without a user the list is emptied |
| NotificationContext.NotificationProvider.FetchNotifications | src/contexts/NotificationContext.tsx:111-128 | with a user and a successful query the list becomes the stored list; otherwise it is unchanged |
| NotificationContext.NotificationProvider.AddNotification | src/contexts/NotificationContext.tsx:138-164 | with a user and a successful insert exactly one notification, the stored row with the given icon, is put in front; otherwise the list is unchanged |
| NotificationContext.NotificationProvider.MarkAsRead | src/contexts/NotificationContext.tsx:166-183 | with a user and a successful update the list is marked read by id; otherwise it is unchanged |
| NotificationContext.NotificationProvider.MarkAllAsRead | src/contexts/NotificationContext.tsx:185-201 | with a user and a successful update every entry is marked read; otherwise the list is unchanged |
| NotificationContext.NotificationProvider.ClearNotification | src/contexts/NotificationContext.tsx:203-216 | with a user and a successful delete the entries with that id are removed; otherwise the list is unchanged |
| NotificationContext.NotificationProvider.ClearAllNotifications | src/contexts/NotificationContext.tsx:218-231 | with a user and a successful delete the list is emptied; otherwise it is unchanged |
| NotificationContext.HalfwayBandForPositiveTarget | src/contexts/NotificationContext.tsx:57-60 | for a positive target, 0.45 < (target − spent)/target ≤ 0.5 holds exactly when half to just under 55% of the target is spent |
| NotificationContext.NoSpendDayIff | src/contexts/NotificationContext.tsx:85-92 | there is no no-spend day exactly when each of the last seven days, today included, has an expense |
| NotificationContext.TitlesDistinct | src/contexts/NotificationContext.tsx:58-93 | the three nudge titles are pairwise distinct |
| NotificationContext.NudgesNeverDuplicate | src/contexts/NotificationContext.tsx:51-95 | the rules issue at most three nudges, all of type `nudge`, none already in the list by title and message, and no title twice |
| NotificationContext.NudgeConditions | src/contexts/NotificationContext.tsx:54-102 | each rule fires exactly under its own condition and only when its nudge is not already in the list |
| NotificationContext.SendNudgesRules | src/contexts/NotificationContext.tsx:41-102 | nothing is issued without a user or twice; the halfway nudge needs this month's goal and 0.45 < (target − spent)/target ≤ 0.5; the entertainment nudge needs last week positive and this week more than double; the no-spend nudge needs an expense on each of the last seven days |
| NotificationContext.AchievementBands | src/contexts/NotificationContext.tsx:240-259 | for a positive target, "Halfway There" means 50% to just under 55% saved, and "Goal Achieved" means the target is reached |
| NotificationContext.NegativeTargetNeverHalfway | src/contexts/NotificationContext.tsx:241-243 | a negative target is never in the halfway band |
| NotificationContext.BandsExclusive | src/contexts/NotificationContext.tsx:241-259 | no goal is both halfway and achieved |
| NotificationContext.GoalAchievements | src/contexts/NotificationContext.tsx:240-260 | a goal gets at most one achievement, exactly when it is halfway or achieved, and the title is "Goal Achieved" exactly when it is achieved |
| NotificationContext.Achievements | src/contexts/NotificationContext.tsx:236-261 | nothing is issued without a user, at most one achievement per goal, and all are of type `achievement` |
| SavingsGoals.Remaining | src/components/SavingsGoals.tsx:32 | what remains is never negative and never below target − spent; it is 0 exactly when the target has been spent |
| SavingsGoals.Progress | src/components/SavingsGoals.tsx:33 | progress always lies in 0..100, and is 0 when the target is not positive |
| SavingsGoals.ProgressMeaning | src/components/SavingsGoals.tsx:33 | for a positive target the bar is empty exactly when the target is spent, full exactly when nothing is, and in between progress × target = 100 × (target − spent) |
| SavingsGoals.ProgressMonotone | src/components/SavingsGoals.tsx:33 | spending more never raises the progress |
| SavingsGoals.OverspendingMeans | src/components/SavingsGoals.tsx:32-34 | overspending leaves nothing remaining and an empty bar; for a positive target it holds exactly when the bar is empty and the target was not met exactly |
| SavingsGoals.StatusOf | src/components/SavingsGoals.tsx:16-34 | the card's goal is the month's goal, the spending is the month's, the target is the goal's or 0; remaining ≥ 0, progress in 0..100, and overspending exactly when spent > target > 0 |
| SavingsGoals.TargetOnly | src/components/SavingsGoals.tsx:40 | merging the patch into any goal changes its target and nothing else |
| SavingsGoals.MonthlyGoal | src/components/SavingsGoals.tsx:42-47 | the new goal has the amount as target, nothing saved, no colour, and is due on the month's last day |
| SavingsGoals.AddedGoal | src/contexts/ExpenseContext.tsx:242-257 | the stored goal takes the store's id, the amount as target, nothing saved and no colour, and is due on the month's last day |
| SavingsGoals.RetargetKeepsCurrentGoal | src/components/SavingsGoals.tsx:17-40 | changing only the target of the month's goal keeps it the month's goal, now with the new target |
| SavingsGoals.AddedGoalBecomesCurrent | src/components/SavingsGoals.tsx:17-47 | a goal due in the month, appended when the month has none, becomes the month's goal |
| SavingsGoals.Card.constructor | src/components/SavingsGoals.tsx:27-28 | the card is not editing, and the field holds the current target's text or nothing |
| SavingsGoals.Card.StartEditing | src/components/SavingsGoals.tsx:67-70 | the field is reset to the current target's text and editing starts |
| SavingsGoals.Card.SetGoalAmount | src/components/SavingsGoals.tsx:112 | the field takes the text and editing is unchanged |
| SavingsGoals.Card.HandleSaveGoal | src/components/SavingsGoals.tsx:36-50 | a non-positive or unparsable amount does nothing; otherwise the month's goal only gets the new target, or a new monthly goal is appended; the dialog closes unless the call throws; expenses never change |
| SavingsGoals.RetargetCurrentGoal | src/components/SavingsGoals.tsx:39-40 | on success the month's goal keeps its place with only the target changed and stays the month's goal; otherwise nothing changes |
| SavingsGoals.AddMonthlyGoal | src/components/SavingsGoals.tsx:41-47 | on success the goal is appended, and when its deadline falls in the month it becomes the month's goal; otherwise nothing changes |
| ExpenseContext.KeyInjective | src/contexts/ExpenseContext.tsx:8 | two categories have the same key exactly when they are the same category |
| ExpenseContext.GoalOfMonth | src/components/SavingsGoals.tsx:17-20 | no goal is found exactly when no goal's deadline is in that month of that year; a found goal is one of the list's goals |
| ExpenseContext.MergeExpenseIdempotent | src/contexts/ExpenseContext.tsx:209 | spreading the same patch twice gives what spreading it once gives, and a patch carrying all of an expense's own fields leaves it unchanged |
| ExpenseContext.UpdateExpenseById | src/contexts/ExpenseContext.tsx:207-211 | the list keeps its length and order; each entry with the id takes the patch's fields and every other entry is unchanged |
| ExpenseContext.DeleteExpenseById | src/contexts/ExpenseContext.tsx:227 | the result is a subsequence of the list with no entry of that id, keeps every entry of another id, and is shorter by the number of entries with the id |
| ExpenseContext.UpdateGoalById | src/contexts/ExpenseContext.tsx:279-283 | the goal list keeps its length and order; each goal with the id takes the patch's fields and every other goal is unchanged |
| ExpenseContext.DeleteGoalById | src/contexts/ExpenseContext.tsx:299 | the result is a subsequence of the goals with no goal of that id, keeps every goal of another id, and is shorter than the goals by exactly the number of goals of that id |
| ExpenseContext.June1st2025Value | src/contexts/ExpenseContext.tsx:149-158 | the date new expenses are stored with is day 20240 of the epoch, the civil date 2025-06-01 |
| ExpenseContext.JuneCivil | src/contexts/ExpenseContext.tsx:86-90 | day 20239 + k is the civil date 2025-06-k for every k from 1 to 30 |
| ExpenseContext.JuneDayNumber | src/contexts/ExpenseContext.tsx:90 | `new Date(2025, 5, day)` is day 20239 + day for any day of month, including ones past the month's end |
| ExpenseContext.July1st2025 | src/contexts/ExpenseContext.tsx:90-93 | day 20270, which `new Date(2025, 5, 31)` gives, is 2025-07-01, so the month check fires for the 31st |
| ExpenseContext.MoveToJuneUpTo30 | src/contexts/ExpenseContext.tsx:88-90 | days 1 to 30 of a month are moved to the same day of June 2025 |
| ExpenseContext.MoveToJune31 | src/contexts/ExpenseContext.tsx:90-96 | the 31st runs into July 1st and `setMonth(5)` brings it back to June 1st 2025 |
| ExpenseContext.MoveToJuneLandsInJune | src/contexts/ExpenseContext.tsx:86-96 | every day of month lands on a day of June 2025, keeping its number unless it is the 31st, which becomes the 1st |
| ExpenseContext.RemapToJuneSpec | src/contexts/ExpenseContext.tsx:76-100 | a fetched row is shown at midnight of a day of June 2025 whose day of month is the stored one (or today's when the stored date is invalid), except that the 31st becomes the 1st |
| ExpenseContext.InJune2025IsJune | src/contexts/ExpenseContext.tsx:87-90 | the days 20240 to 20269 are exactly month 5 of 2025, day of month d − 20239 |
| ExpenseContext.ExpenseFromRow | src/contexts/ExpenseContext.tsx:76-105 | the expense keeps every field of the row; its date is midnight of a day in June 2025 with the stored date's day of the month (today's when the stored date does not parse), the 31st becoming June 1st |
| ExpenseContext.ExpensesFromRows | src/contexts/ExpenseContext.tsx:74-106 | one expense per row, in the rows' order, each keeping its row's fields and dated at midnight in June 2025 on the row's own day of the month (the 31st becoming the 1st) |
| ExpenseContext.ExpenseProvider.constructor | src/contexts/ExpenseContext.tsx:55-56 | the provider starts with no expenses and no goals |
| ExpenseContext.ExpenseProvider.SignOut | src/contexts/ExpenseContext.tsx:139-142 | with nobody signed in both lists are emptied |
| ExpenseContext.ExpenseProvider.FetchExpenses | src/contexts/ExpenseContext.tsx:60-112 | without a user or on an error the list is kept; on success it becomes ExpensesFromRows of the rows, each dated on its own day of the month in June 2025; the user and goals never change |
| ExpenseContext.ExpenseProvider.AddExpense | src/contexts/ExpenseContext.tsx:145-188 | without a user nothing is sent or changed; an error is thrown and changes nothing; on success the stored expense, dated 2025-06-01 with the store's id, is put in front |
| ExpenseContext.ExpenseProvider.UpdateExpense | src/contexts/ExpenseContext.tsx:190-213 | without a user or on an error nothing changes; on success the entries with the id take the patch |
| ExpenseContext.ExpenseProvider.DeleteExpense | src/contexts/ExpenseContext.tsx:215-229 | without a user or on an error nothing changes; on success the entries with the id are dropped |
| ExpenseContext.ExpenseProvider.AddSavingsGoal | src/contexts/ExpenseContext.tsx:231-260 | without a user or on an error nothing changes; on success the stored goal, due at midnight of the deadline's day and with the store's id and creation time, is appended |
| ExpenseContext.ExpenseProvider.UpdateSavingsGoal | src/contexts/ExpenseContext.tsx:262-285 | without a user or on an error nothing changes; on success the goals with the id take the patch |
| ExpenseContext.ExpenseProvider.DeleteSavingsGoal | src/contexts/ExpenseContext.tsx:287-301 | without a user or on an error nothing changes; on success the goals with the id are dropped |
| ExpenseContext.TotalExpensesIsSum | src/contexts/ExpenseContext.tsx:309-311 | the left fold from 0 equals the sum of the amounts, and is 0 for no expenses |
| ExpenseContext.TotalPrepend | src/contexts/ExpenseContext.tsx:309-311 | putting an expense in front raises the total by its amount |
| ExpenseContext.TotalSplit | src/contexts/ExpenseContext.tsx:309-311 | the total is the total of the entries meeting a condition plus the total of the others |
| ExpenseContext.TotalAfterDelete | src/contexts/ExpenseContext.tsx:227 | a delete lowers the total by exactly the amounts of the entries with the id |
| ExpenseContext.ExpensesByCategory | src/contexts/ExpenseContext.tsx:304-307 | with no category or an empty one the whole list; otherwise a subsequence holding exactly the expenses whose category key is the given one, as many as there are such expenses |
| ExpenseContext.FilterExpenses | src/contexts/ExpenseContext.tsx:313-320 | a subsequence holding exactly the expenses that meet the category, start and end conditions, as many as there are such expenses |
| ExpenseContext.FilterWithoutDatesIsByCategory | src/contexts/ExpenseContext.tsx:304-320 | with no start and no end date the filter is the by-category selection |
| ExpenseContext.MonthlyExpenses | src/contexts/ExpenseContext.tsx:322-327 | a subsequence holding exactly the expenses dated in that month of that year, as many as there are such expenses; none for a month outside 0..11 |
| ExpenseContext.CategorySumSnoc | src/contexts/ExpenseContext.tsx:331-333 | visiting one more expense raises its category's sum by its amount and leaves the others |
| ExpenseContext.PresentSnoc | src/contexts/ExpenseContext.tsx:331-333 | a category occurs after one more expense exactly when it occurred before or is that expense's |
| ExpenseContext.TallyAddKeys | src/contexts/ExpenseContext.tsx:332 | a step keeps the object's keys distinct, its values defined exactly on its keys, and its keys exactly the categories seen so far |
| ExpenseContext.TallyAddAmounts | src/contexts/ExpenseContext.tsx:332 | after a step every value is its category's sum over the expenses seen so far, a missing key reading as 0 |
| ExpenseContext.CategorySumAbsent | src/contexts/ExpenseContext.tsx:332 | a category that does not occur sums to 0 (`|| 0`) |
| ExpenseContext.TallyAddSpec | src/contexts/ExpenseContext.tsx:331-333 | one step of the loop keeps the object the totals of the expenses visited |
| ExpenseContext.CategoryTotalsSpec | src/contexts/ExpenseContext.tsx:329-335 | the totals object has one key per category present, in order of first occurrence, each holding that category's sum |
| ExpenseContext.TallyAddOrder | src/contexts/ExpenseContext.tsx:331-333 | one step of the `forEach` keeps the keys in order of first occurrence: a category seen for the first time is appended after the others |
| ExpenseContext.GetCategoryTotals | src/contexts/ExpenseContext.tsx:329-335 | the loop builds the totals object of the whole list |
| ExpenseContext.SumOfValuesAppend | src/contexts/ExpenseContext.tsx:330-333 | a new key adds its value to the sum of the object's values |
| ExpenseContext.SumOfValuesBump | src/contexts/ExpenseContext.tsx:332 | raising one key's value raises the sum of the values by as much |
| ExpenseContext.SumOfValuesUnchanged | src/contexts/ExpenseContext.tsx:332 | objects that agree on the keys have the same sum of values |
| ExpenseContext.TallyAddSum | src/contexts/ExpenseContext.tsx:332 | each step raises the sum of the object's values by the expense's amount |
| ExpenseContext.CategoryTotalsAddUp | src/contexts/ExpenseContext.tsx:329-335 | the category totals add up to the total of all expenses |
| ExpenseContext.TopFromSpec | src/contexts/ExpenseContext.tsx:345-347 | the reduce keeps its start value only when it beats every key; otherwise it ends on a key of maximal total that strictly beats every later key |
| ExpenseContext.FoldEndStep | src/contexts/ExpenseContext.tsx:345-347 | one step of the reduce: where the rest of the fold ends from the step's winner is where the whole fold ends |
| ExpenseContext.FirstBeatsRest | src/contexts/ExpenseContext.tsx:345-347 | a first step whose winner beats every later key is where the fold ends |
| ExpenseContext.LaterMaximal | src/contexts/ExpenseContext.tsx:345-347 | a later key that is maximal over the rest and not beaten by the first step's winner is where the fold ends |
| ExpenseContext.TopCategoryIsMaximal | src/contexts/ExpenseContext.tsx:343-349 | `'other'` for no expenses; otherwise a category that occurs, whose total is at least every other category's, the last maximal one in key order, and so, of the categories with the largest total, the one whose first expense comes latest in the list |
| ExpenseContext.LastMaximalFirstOccursLast | src/contexts/ExpenseContext.tsx:343-349 | with keys in order of first occurrence, the last maximal key first occurs no earlier than any other key with the same total |
| ExpenseList.Insert | src/components/ExpenseList.tsx:97-106 | inserting adds exactly that expense: the result is one longer and a permutation of the list plus the expense |
| ExpenseList.InsertAtMost | src/components/ExpenseList.tsx:97-106 | inserting an expense whose key is at most k into a list of keys at most k keeps every key at most k |
| ExpenseList.InsertSorted | src/components/ExpenseList.tsx:97-106 | inserting into a list in non-increasing key order keeps it in that order |
| ExpenseList.SortDescending | src/components/ExpenseList.tsx:97-106 | the sort returns a permutation of its input, newest first by date or highest first by amount |
| ExpenseList.VisibleExpenses | src/components/ExpenseList.tsx:73-109 | the list shows exactly the expenses that pass the category and the date range tests, as often as they occur, in non-increasing order of the chosen key, and never more than there are |
| ExpenseList.ShownIsBothFilters | src/components/ExpenseList.tsx:77-95 | the category filter followed by the date filter keeps the same entries, in the same order, as one filter on both tests |
| ExpenseList.ShownCountBounded | src/components/ExpenseList.tsx:212-214 | the "n of m" badge never shows n above m, and with `'all'` and every date in range the list is a permutation of all expenses |
| ExpenseList.PresetsAsWrittenOverreach | src/components/ExpenseList.tsx:154-160 | with the presets as written, "This Month" also shows an expense at midnight of the next month's first day, and unless it is exactly midnight "Last 7 Days" shows one at midnight tomorrow and drops one at midnight six days back |
| ExpenseList.Last7AsWrittenExample | src/components/ExpenseList.tsx:157 | day 20249 is 2025-06-10, and at 09:00 on it the "Last 7 Days" range as written leaves out midnight of June 4th and takes in midnight of June 11th |
| ExpenseList.Last7RangeAsWritten | src/components/ExpenseList.tsx:157 | the preset as written, with the date test's one-day extension, shows an instant exactly when it lies from six days before now up to, not including, one day after now |
| ExpenseList.ThisMonthRangeAsWritten | src/components/ExpenseList.tsx:159 | the preset as written, with the date test's one-day extension, shows an instant exactly when it lies from midnight of the month's first day up to, not including, the last millisecond of the next month's first day |
| ExpenseList.Last7Range | src/components/ExpenseList.tsx:157 | the intended preset, not used by the view, shows an instant exactly when its day is today or one of the six days before |
| ExpenseList.ThisMonthRange | src/components/ExpenseList.tsx:159 | the intended preset, not used by the view, shows an instant exactly when its day is in the current month |
| ExpenseList.View.constructor | src/components/ExpenseList.tsx:24-31 | the list starts on all categories, newest first, with the "This Month" preset chosen and its range as written |
| ExpenseList.View.Visible | src/components/ExpenseList.tsx:73-109 | the view shows the list's filtered and sorted expenses for its own category, order and range: exactly the expenses passing both tests, in non-increasing order of its key, never more than there are |
| ExpenseList.View.SetFilterCategory | src/components/ExpenseList.tsx:236 | only the category changes |
| ExpenseList.View.SetSortBy | src/components/ExpenseList.tsx:331 | only the sort order changes |
| ExpenseList.View.SetCustomRange | src/components/ExpenseList.tsx:311-317 | a complete picked range becomes the date range and the filter becomes 'custom'; the category and the sort are kept |
| ExpenseList.View.HandleDateFilter | src/components/ExpenseList.tsx:154-161 | the chosen preset is recorded; "Last 7 Days" and "This Month" set their ranges as written, so "Last 7 Days" shows the instants from six days before now to just under one day after now; "custom" keeps the range; category and sort are unchanged |
| ExpenseList.View.ResetDateRange | src/components/ExpenseList.tsx:186-194 | the range goes back to the "This Month" range as written, with "This Month" chosen; category and sort are unchanged |
| ExpenseCalendar.DaysBetween | src/components/ExpenseCalendar.tsx:22 | every day from the start to the end, one after another, and none when the end is before the start |
| ExpenseCalendar.WholeWeeks | src/components/ExpenseCalendar.tsx:24-46 | a run of days from a Sunday to a Saturday covers a whole number of weeks |
| ExpenseCalendar.CalendarDays | src/components/ExpenseCalendar.tsx:17-47 | the grid runs day by day from the Sunday on or before the month's first day to the Saturday on or after its last, holds the month's days after as many padding days as the first day's weekday, and covers whole weeks |
| ExpenseCalendar.PaddedToWeeks | src/components/ExpenseCalendar.tsx:22-46 | the padding before, the days and the padding after run on day by day from the Sunday before the start to the Saturday after the end, and their number is a multiple of seven |
| ExpenseCalendar.GridDays | src/components/ExpenseCalendar.tsx:25-46 | the padding before has as many days as the start's weekday, the padding after 6 minus the end's weekday, and together with the days they run on day by day |
| ExpenseCalendar.GridShape | src/components/ExpenseCalendar.tsx:46 | such a grid begins on a Sunday, ends on a Saturday, holds the days themselves at the right place and covers whole weeks |
| ExpenseCalendar.Consecutive | src/components/ExpenseCalendar.tsx:46 | three runs of days, each continuing where the previous one stops, joined make one run |
| ExpenseCalendar.ExpensesForDate | src/components/ExpenseCalendar.tsx:50-52 | a subsequence of the expenses holding exactly those dated on that day, as many as there are such expenses |
| ExpenseCalendar.TotalForDateSnoc | src/components/ExpenseCalendar.tsx:55-57 | one more expense raises a day's total by its amount exactly when it is dated that day |
| ExpenseCalendar.TotalForEmptyDate | src/components/ExpenseCalendar.tsx:50-57 | a day with no expenses has none listed and totals 0 |
| ExpenseCalendar.IntensityBand | src/components/ExpenseCalendar.tsx:60-67 | one of six bands, band 0 exactly for a total of 0 |
| ExpenseCalendar.IntensityMonotone | src/components/ExpenseCalendar.tsx:60-67 | for non-negative totals a larger total never gets a lower band |
| ExpenseCalendar.IntensityColorSameBand | src/components/ExpenseCalendar.tsx:60-67 | two totals get the same colour exactly when they fall in the same band |
| ExpenseCalendar.BandColorInjective | src/components/ExpenseCalendar.tsx:61-66 | the six colours are pairwise different |
| ExpenseCalendar.BandOfColorInverts | src/components/ExpenseCalendar.tsx:61-66 | each band can be read back from its colour |
| ExpenseCalendar.DotsFor | src/components/ExpenseCalendar.tsx:176-192 | at most three dots, for the day's first expenses in order, and a "+n" marker exactly when there are more than three, so that dots and n together count every expense of the day |
| ExpenseCalendar.View.constructor | src/components/ExpenseCalendar.tsx:13-14 | no day is selected and the details are closed |
| ExpenseCalendar.View.HandleDateClick | src/components/ExpenseCalendar.tsx:84-87 | the clicked day is selected and its details open |
| ExpenseCalendar.View.SelectedExpenses | src/components/ExpenseCalendar.tsx:69 | nothing until a day is selected, then the day's expenses: a subsequence holding exactly the expenses of that day |
| ExpenseCalendar.View.SelectedTotal | src/components/ExpenseCalendar.tsx:70 | the total is the sum of the amounts of the listed expenses, 0 when no day is selected |
| AnalyticsDashboard.WholeDays | src/components/AnalyticsDashboard.tsx:62-65 | an instant lies between the midnight of one day and the last millisecond of another exactly when its day lies between the two |
| AnalyticsDashboard.SpentBetweenWholeDays | src/components/AnalyticsDashboard.tsx:64-66 | filtering on `>=` a midnight and `<=` an end of day, then adding up, gives the spending on those whole days |
| AnalyticsDashboard.SpentOnDaysSplit | src/components/AnalyticsDashboard.tsx:97-113 | the spending on a run of days is the spending on its first part plus that on the rest |
| AnalyticsDashboard.SpentOnOneDay | src/components/AnalyticsDashboard.tsx:84-87 | the spending on a single day is that day's calendar total |
| AnalyticsDashboard.SpentOnNoDays | src/components/AnalyticsDashboard.tsx:97-113 | an empty run of days holds no spending |
| AnalyticsDashboard.SliceOf | src/components/AnalyticsDashboard.tsx:49-55 | a slice carries the category's display name, the amount, and the category's bare key both as colour and as category |
| AnalyticsDashboard.StripColorPrefixes | src/components/AnalyticsDashboard.tsx:53 | removing `text-` and then `category-` from a category's text class leaves exactly its key |
| AnalyticsDashboard.KeysDistinct | src/components/AnalyticsDashboard.tsx:48 | distinct categories in the totals object have distinct keys |
| AnalyticsDashboard.PieChartData | src/components/AnalyticsDashboard.tsx:47-57 | one slice per key of the category totals, in key order, each with that key's config and total |
| AnalyticsDashboard.PieChartDataSpec | src/components/AnalyticsDashboard.tsx:47-57 | each slice is a category present in the list, with its display name, its key as colour and its sum; every present category has a slice, and no category has two |
| AnalyticsDashboard.PieAddsUp | src/components/AnalyticsDashboard.tsx:47-57 | the slices' values add up to the total of all expenses |
| AnalyticsDashboard.SlicesAddUp | src/components/AnalyticsDashboard.tsx:48-52 | slices holding a tally's values one by one add up to the sum of that tally's values |
| AnalyticsDashboard.CurrentMonthTotal | src/components/AnalyticsDashboard.tsx:60-67 | the spending on the days of the current month |
| AnalyticsDashboard.LastMonthTotal | src/components/AnalyticsDashboard.tsx:69-76 | the spending on the days of the month of `new Date(year, month - 1)` |
| AnalyticsDashboard.MonthOverMonthChange | src/components/AnalyticsDashboard.tsx:78 | 0 without spending last month; otherwise positive exactly when this month is higher, negative exactly when it is lower, and the change times last month is 100 times the difference |
| AnalyticsDashboard.DailySpending | src/components/AnalyticsDashboard.tsx:81-94 | thirty bars, oldest first, bar i for the day 29 − i days before today |
| AnalyticsDashboard.DayBar | src/components/AnalyticsDashboard.tsx:82-92 | bar i is dated on the day 29 − i days before today and holds that day's calendar total |
| AnalyticsDashboard.DailyAddsUp | src/components/AnalyticsDashboard.tsx:81-94 | the thirty bars add up to the spending on the last thirty days |
| AnalyticsDashboard.DayBarsAddUp | src/components/AnalyticsDashboard.tsx:81-94 | bars each holding one consecutive day's spending add up to the spending on those days |
| AnalyticsDashboard.WeeksAsWrittenLeaveGaps | src/components/AnalyticsDashboard.tsx:99-104 | with the windows as written, the instant just before the start of each of the three later weeks lies in the four weeks' span but in no week's window |
| AnalyticsDashboard.WeeksAsWrittenExample | src/components/AnalyticsDashboard.tsx:99-104 | at 09:00 on 2025-06-28 an expense dated midnight of June 22nd is in no weekly bar |
| AnalyticsDashboard.WeekWindowWholeDays | src/components/AnalyticsDashboard.tsx:100-103 | in the intended window of week w an instant lies exactly when its day is one of the seven days ending w × 7 days before today |
| AnalyticsDashboard.WholeWeekOfSpec | src/components/AnalyticsDashboard.tsx:100-108 | the intended bar of week w, which the chart does not use, is labelled `Week ${4 - w}`, runs from midnight of its first day to the end of its last, and holds the spending on its seven days |
| AnalyticsDashboard.WeeksAddUp | src/components/AnalyticsDashboard.tsx:97-113 | the four intended weeks, which the chart does not use, add up to the spending on the last 28 days |
| AnalyticsDashboard.FourWeeksSplit | src/components/AnalyticsDashboard.tsx:97-113 | four amounts, each the spending on one of four consecutive seven-day runs, add up to the spending on the 28 days |
| AnalyticsDashboard.WeeklySpending | src/components/AnalyticsDashboard.tsx:97-113 | four bars, oldest first, bar k being week 3 − k labelled `Week ${k + 1}`; bar k ends (3 − k) × 7 days before the current moment, starts six days before its end at the same time of day, and holds the spending between the two; each bar starts one whole day after the previous one ends, so the instants in between are in no bar |
| AnalyticsDashboard.PushLatestWeeks | src/components/AnalyticsDashboard.tsx:99-111 | the loop pushes the bars of week 0 (the latest) to week 3, in that order, each over its window as written |
| AnalyticsDashboard.LatestWeeks | src/components/AnalyticsDashboard.tsx:99-111 | the first n pushed bars are those of weeks 0 to n − 1, each over its window as written |
| AnalyticsDashboard.MaxFrom | src/components/AnalyticsDashboard.tsx:127 | the reduce ends at least at its start and at every amount, and on its start or one of the amounts |
| AnalyticsDashboard.MaxAmount | src/components/AnalyticsDashboard.tsx:127 | the highlighted amount is at least 0 and every bar's amount; it is some bar's amount as soon as one is positive, and 0 when none is |
| AnalyticsDashboard.BarAmounts | src/components/AnalyticsDashboard.tsx:127 | the amounts of the daily bars in daily mode and of the weekly bars in weekly mode, in order |
| Prelude.Filter | src/contexts/ExpenseContext.tsx:306 | `Array.filter`: never longer than the input, every kept entry is an entry of the input meeting the test, and every entry meeting it is kept |
| Prelude.FilterMembers | src/contexts/ExpenseContext.tsx:306 | a value is in the filtered list exactly when it is in the list and meets the test |
| Prelude.FilterLength | src/contexts/ExpenseContext.tsx:227 | the filtered list is as long as the number of entries meeting the test |
| Prelude.Find | src/components/SavingsGoals.tsx:17 | `Array.find`: nothing exactly when no entry meets the test, otherwise an entry that meets it |
| Prelude.Reverse | src/components/AnalyticsDashboard.tsx:112 | `Array.reverse`: the same length with entry i taken from position length − 1 − i |
| Prelude.Split | src/components/AddExpenseForm.tsx:111 | `String.split` on one character: at least one piece and no piece holds the separator |
| Prelude.JoinSplit | src/components/AddExpenseForm.tsx:111-113 | joining the pieces of a split with the separator gives the text back |
| Prelude.SplitLength | src/components/AddExpenseForm.tsx:111-112 | a split has one piece more than the separator has occurrences |
| Calendar.DayOf | src/components/ExpenseCalendar.tsx:51 | the day of an instant starts at or before it and ends after it, which is what `isSameDay` compares |
| Calendar.SubDays | src/components/AnalyticsDashboard.tsx:100-101 | `subDays` moves n days back and keeps the time of day |
| Calendar.Weekday | src/components/ExpenseCalendar.tsx:25 | `getDay` lies in 0..6 |
| Calendar.StartOfMonth | src/components/ExpenseCalendar.tsx:18 | `startOfMonth` is at most 30 days back and not after the day |
| Calendar.EndOfMonth | src/components/ExpenseCalendar.tsx:19 | `endOfMonth` is between 27 and 30 days after the month's first day |
| Calendar.StartOfWeek | src/components/ExpenseCalendar.tsx:25-32 | the Sunday on or before a day, at most six days back |
| Calendar.EndOfWeek | src/components/ExpenseCalendar.tsx:36-43 | the Saturday six days after that Sunday |
| Calendar.CivilFromDays | src/contexts/ExpenseContext.tsx:324-325 | a day number's civil date has a month in 1..12 and a day in 1..31 |
| Calendar.MonthOf | src/contexts/ExpenseContext.tsx:325 | `getMonth` lies in 0..11 |
| Calendar.DayOfMonth | src/contexts/ExpenseContext.tsx:88 | `getDate` lies in 1..31 |

## Left out

- The remote data store and the authentication service. Every query, insert, update and delete is a `Response` parameter. The signed-in user is a field of the store. Polling and the simulated delays are not modelled (`setTimeout`, `setInterval`, effect scheduling), and neither are the loading flags (`isLoading`, `isSubmitting` beyond its final value), toasts and console output.
- EditExpenseForm.Form.HandleSubmit: `response` is how the `onUpdate` callback ends, not how the store's update ends. The list view's callback (src/components/ExpenseList.tsx:137-152) catches the store's error and shows a toast, so in the app the promise always resolves and the dialog closes even after a failed update; that wiring between the two components is not modelled.
- The clock. The current moment `now` is a parameter everywhere. The local time zone is fixed at UTC, so daylight-saving shifts are not modelled.
- `getAverageDailySpending` (src/contexts/ExpenseContext.tsx:337-341): it divides by a ceiling of a floating-point day count taken from `Date.now()`.
- `fetchSavingsGoals` (src/contexts/ExpenseContext.tsx:115-133): it only parses the rows' dates and replaces the list. The goal list is set by the add, update and delete methods.
- Floating-point arithmetic. Amounts are exact reals, and `toFixed`, `Math.round` and the chart labels (`format(..., 'MMM dd')`, the `MMMM yyyy` goal name, which is the `monthLabel` parameter) are not computed.
- `parseFloat` in the goal card is the `parsed` parameter. `Number` is computed only for text made of digits and at most one point, which is all the amount field can hold after the amount filter. Any other text counts as not a number.
- The edit dialog's initial amount text (`expense.amount.toString()`) is a parameter of its constructor.
- The browser. The saved theme and dismissed list (`localStorage`) and `matchMedia` are parameters. The write of the dismissed list to `localStorage` is not modelled, and the theme's save is a field.
- `navigateMonth` in the calendar, and the colour of a day's dots, which is chosen from the category's class names.
- `filteredAndSortedExpenses` sorts a copy in place with `Array.sort`. Here the copy is sorted as a value by a stable insertion sort, which gives the same result for a consistent comparator. The in-place steps are not modelled.
- Rendering, charts, the pages, Settings, the landing page and the error boundary.
- The `setIsLoading(false)` in the `finally` clause of the register form (src/components/RegisterForm.tsx:87) refers to state that component does not define. The model ignores that clause.
- `setErrors` writing `undefined` for one field is modelled as removing that field's message.
- SavingsGoals.Card.HandleSaveGoal: the new monthly goal is shown to become the month's goal only under the hypothesis that its deadline lies in the current month. That `endOfMonth` keeps the month is not proved.
- SavingsGoals.AddMonthlyGoal: as above, the appended goal becomes the month's goal only under the hypothesis that its deadline lies in the month.
- CategoryIcon.GetCategoryConfig: a key naming a property that every JavaScript object inherits (`constructor`, `toString`, `__proto__`, `hasOwnProperty` and the like) makes `categoryConfig[key]` return that inherited value, so the source does not fall back to `other` for it. The model treats such keys as unknown and returns the `other` entry.
- DismissedNudges.InitialDismissed: a saved value whose JSON is not an array of strings (an object, a number, `null`) becomes the list as it is in the source. The `parse` parameter yields only lists of strings or a parse error, so that case is not modelled.
- AnalyticsDashboard.WeeklySpending: the four bars as written do not add up to the spending on the last 28 days, because of the gaps between their windows. That total is proved only for the intended bars (`WholeWeekOf`, `WeeksAddUp`), which the chart does not use.
- ExpenseList.View.HandleDateFilter: the presets as written do not select whole calendar days. Whole days are proved only for the intended `Last7Range` and `ThisMonthRange`, which the view does not use.
- AddExpenseForm.Form.SetAmount: the field has at most two digits after the point only when the typed text has at most one point. A canonical field for every input is proved only for the intended `FormatAmount`, which the form does not use.
- EditExpenseForm.Form.SetAmount: the same as for the add form.
- A collision-free key for the panel and the dashboard banners. The `title||message` key joins two texts without escaping, so two different pairs can share a key. The model keeps the key as written, and `PairKeysCanCollide` exhibits such a pair.

## Findings

In each row the operation the user sees (the amount fields of both forms, the list's date presets, the weekly chart) keeps the code as written, and its contract states what that code does. The corrected member beside it defines what was evidently intended and carries the intended property.

| source | as written | input that shows it | evidently intended | confidence | as-written member | corrected member |
|---|---|---|---|---|---|---|
| src/components/AddExpenseForm.tsx:111-119 | with more than one point (here and in the same filter at src/components/EditExpenseForm.tsx:88-96), every part after the first point is joined onto the fraction and the two-digit limit is not applied | `1.2.34` becomes `1.234`, which has three decimals and is changed again by a second pass | at most one point and at most two decimals, for every input | not executed | AddExpenseForm.FormatAmountAsWritten (AddExpenseForm.FormatAmountAsWrittenNotIdempotent, AddExpenseForm.AsWrittenTwoPoints) | AddExpenseForm.FormatAmount (AddExpenseForm.FormatAmountIdempotent, AddExpenseForm.CorrectedTwoPoints) |
| src/components/ExpenseList.tsx:154-160 | the end bound is moved one day on from an instant that is already the end of the day or the current moment, and "Last 7 Days" starts at the current time of day | at 09:00 on 2025-06-10, "Last 7 Days" leaves out midnight of June 4th and takes in midnight of June 11th; "This Month" takes in midnight of the next month's first day | today and the six days before, and the current month, as whole days | not executed | ExpenseList.Last7RangeAsWritten (ExpenseList.PresetsAsWrittenOverreach, ExpenseList.Last7AsWrittenExample) | ExpenseList.Last7Range, ExpenseList.ThisMonthRange |
| src/components/AnalyticsDashboard.tsx:99-104 | each week runs from six days before `weekEnd` at the same time of day, so about a day between two weeks falls in neither | at 09:00 on 2025-06-28, an expense dated midnight of June 22nd is in no weekly bar | four weeks of seven whole days that together cover the last 28 days | not executed | AnalyticsDashboard.WeeklySpending (AnalyticsDashboard.WeeksAsWrittenLeaveGaps, AnalyticsDashboard.WeeksAsWrittenExample) | AnalyticsDashboard.WholeWeekOf (AnalyticsDashboard.WeekWindowWholeDays, AnalyticsDashboard.WeeksAddUp) |
