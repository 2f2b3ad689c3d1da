# Trading-signal front end: a verified model of its logic

This project models the deterministic logic of a mock trading-signal web
front end: a React/Next.js application in which traders browse strategies and
signals, manage their account, choose a plan and read notifications, and in
which administrators edit the strategy and user tables and broadcast signals.
The model leaves out rendering and keeps what the components compute:

- **List derivations.** It covers:
  - the public strategy listing: the category filter, the sort by win rate, profit factor or name, and the category option list;
  - the signal history: the asset, strategy and date-window filter, the newest-first order and the option lists;
  - the case-insensitive user search of the admin table.
- **In-memory CRUD and page state.** It covers:
  - add, update and delete on the admin strategy table, together with its dialog, editing and submitting flags;
  - update and delete on the admin user table;
  - the notification panel's mark-read, mark-all-read and clear operations, and its unread counter;
  - the account page's preference switches, profile edit dialog, highest-tier test and avatar initials.
- **Validators.** It covers the three form schemas (strategy, user edit, signal broadcast). Each is modelled with its accepted inputs, its normalisation, its exact error messages and its default values.
- **Small rules.** It covers:
  - the plan table of the upgrade page, its paid/trial split and its labels;
  - the header slot that is hidden on the sign-in pages;
  - the mock signal generator, whose random draws are passed in.

## Layout

The project has one Dafny module per source file, plus four shared modules.

| file | module | models |
|---|---|---|
| basics.dfy | `Basics` | optional values, validation results and issues, ASCII case mapping, `includes`, the code-unit order of `sort()`, decimal printing |
| seqs.dfy | `Seqs` | `Array.prototype.filter`, subsequences, `Array.from(new Set(...))` |
| sorting.dfy | `Sorting` | the stable `Array.prototype.sort`: a reference insertion sort `SortBy`, and an in-place array sort proved equal to it |
| filter_options.dfy | `FilterOptions` | the `['all', ...sorted distinct values]` option lists |
| strategies.dfy, users.dfy | `Strategies`, `Users` | the record types of src/services/strategies.ts and src/services/users.ts |
| trading_signals.dfy | `TradingSignals` | src/services/trading-signals.ts |
| strategy_listing.dfy | `StrategyListing` | src/app/strategies/page.tsx |
| signal_history.dfy | `SignalHistory` | src/components/signal-history.tsx |
| admin_users.dfy | `AdminUsers` | src/app/admin/users/page.tsx |
| admin_strategies.dfy | `AdminStrategies` | src/app/admin/strategies/page.tsx |
| notifications_panel.dfy | `NotificationsPanel` | src/components/notifications-panel.tsx |
| account.dfy | `Account` | src/app/account/page.tsx |
| strategy_form.dfy | `StrategyForm` | src/components/admin/strategy-form.tsx |
| user_edit_form.dfy | `UserEditForm` | src/components/admin/user-edit-form.tsx |
| broadcast_form.dfy | `BroadcastForm` | src/components/admin/broadcast-form.tsx |
| upgrade.dfy | `Upgrade` | src/app/upgrade/page.tsx |
| header_content.dfy | `HeaderContent` | src/components/header-content.tsx |

### Modelling conventions

- **State.** Page state that the handlers update step by step is a `class`: its fields are the `useState` variables and its methods are the handlers. Pure derivations are functions.
- **Asynchronous handlers.** Each one is split at its `await`. `Begin...` is what runs before it and `End...` what runs after it. The parameter `ok` says whether the awaited call succeeded.
- **Sorting.** `Array.prototype.sort` is stable, so with a comparator that is a total preorder its result is unique. That result is `Sorting.SortBy`. The two sorts that work in place on a copy call `Sorting.SortInPlace`, which is proved to leave exactly `SortBy` of the old contents.
- **Time.** Timestamps and dates are integer epoch milliseconds. Prices and metrics are `real`.
- **Outside inputs.** The following become parameters:
  - `localeCompare` becomes `collate`, required to be a total preorder;
  - the schema library's e-mail check becomes `isEmail`;
  - `Date.now()` becomes `now`;
  - each `Math.random()` becomes a field of a `Draw` record.
- **Validators.** Schema validation returns `Result<record, seq<Issue>>`. Every issue is a field path with its message. The messages the schema library itself supplies are written out as that library produces them: "Required", the `.min`/`.max` number messages and the invalid-enum message.

### Where the intended design and the code differ (the model follows the code)

Each item states a behaviour the system's design intends, then what the code does instead.

- **Signal prices.** The intended signal has a `stopLoss` and a `targetPrice` on the sides its direction implies. The `TradingSignal` interface instead declares a single `exitPrice: number | string`. No code enforces a side rule. The model uses `exitPrice` and has no side rule; the broadcast validator accepts a Buy whose stop lies above its entry.
- **Broadcast strategy.** A broadcast is meant to name an existing strategy. The schema only demands a non-empty string.
- **End date.** The end date is meant to include that whole calendar day. The code adds a fixed 86 400 000 ms.
- **Strategy id on update.** An update is meant never to alter a record's id. The strategy update spreads the submitted data over the stored record, so a submitted `id` would win. The form always submits the stored id.

## Model

| member | source | states |
|---|---|---|
| Basics.Lower | src/app/admin/users/page.tsx:82-85 | lower-casing keeps the length and maps each character on its own: ASCII capitals to small letters, everything else unchanged |
| Basics.Upper | src/components/admin/broadcast-form.tsx:35 | upper-casing keeps the length and maps each ASCII small letter to its capital, everything else unchanged |
| Basics.UpperIdempotent | src/components/admin/broadcast-form.tsx:35 | upper-casing an upper-cased string changes nothing |
| Basics.ContainsIff | src/app/admin/users/page.tsx:84-85 | `includes` holds exactly when the needle occurs at some position of the haystack |
| Basics.ContainsEmpty | src/app/admin/users/page.tsx:82-86 | every string includes the empty string |
| Basics.StrLeTotal | src/app/strategies/page.tsx:59 | any two strings are comparable in the code-unit order of `sort()` |
| Basics.StrLeAntisymmetric | src/app/strategies/page.tsx:59 | two strings each no later than the other are equal, so the order has no ties between distinct values |
| Basics.StrLeTransitive | src/app/strategies/page.tsx:59 | the code-unit order is transitive |
| Basics.NatToString | src/app/admin/strategies/page.tsx:81 | the printed clock value is a non-empty string of decimal digits without a leading zero |
| Basics.NatToStringRoundTrip | src/app/admin/strategies/page.tsx:81 | reading the printed digits back gives the number |
| Basics.NatToStringInjective | src/app/admin/strategies/page.tsx:81 | different numbers print differently |
| Seqs.Filter | src/app/admin/users/page.tsx:83-86 | the result is no longer than the input, and a value is in it iff it is in the input and passes the test |
| Seqs.FilterMultiset | src/app/admin/users/page.tsx:83-86 | each passing value occurs as often as in the input, each failing one not at all |
| Seqs.FilterIsSubseq | src/app/admin/users/page.tsx:83-86 | the kept elements are an order-preserving subsequence of the input |
| Seqs.FilterKeepsAll | src/app/admin/users/page.tsx:83-86 | when every element passes, the filter returns the input |
| Seqs.FilterDropsHead | src/app/upgrade/page.tsx:81 | when only the first element fails, the filter returns the rest |
| Seqs.Dedup | src/app/strategies/page.tsx:58-59 | `Array.from(new Set(s))` has no repeated value and exactly the values of s |
| Sorting.SortByMultiset | src/app/strategies/page.tsx:73-81 | the stable sort returns a permutation of its input |
| Sorting.SortBySorted | src/app/strategies/page.tsx:73-81 | under a total-preorder comparator every earlier element may precede every later one |
| Sorting.SortByStable | src/app/strategies/page.tsx:73-81 | elements the comparator ranks equal keep their input order |
| Sorting.SortByDistinct | src/app/strategies/page.tsx:59 | sorting a list without repeats leaves it without repeats |
| Sorting.SortInPlace | src/services/trading-signals.ts:78 | the in-place sort leaves the array holding exactly the stable sort of its old contents |
| FilterOptions.StrLeTotalPreorder | src/app/strategies/page.tsx:59 | the comparator-less `sort()` order is total and transitive |
| FilterOptions.OptionList | src/components/signal-history.tsx:60-63 | the option list starts with 'all', followed by every input value exactly once, ascending |
| TradingSignals.NewerOrSameTotalPreorder | src/services/trading-signals.ts:78 | the newest-first comparator is a total preorder |
| TradingSignals.GeneratedSignal | src/services/trading-signals.ts:56-75 | signal i has asset i mod 9 and strategy i mod 5; a Buy's exit lies 1 to 11 above entry, a Sell's 1 to 11 below; entry lies in [50, 550); RSI lies in [0, 100) and ATR in [0.5, 5.5); MACD_Signal is present iff its coin draw exceeds 0.5 and then lies in [-1, 1) |
| TradingSignals.GetTradingSignals | src/services/trading-signals.ts:40-84 | exactly 25 signals, a permutation of the generated ones, sorted newest first |
| StrategyListing.TruthyCategories | src/app/strategies/page.tsx:58 | a category is collected iff it is non-empty and some strategy has it |
| StrategyListing.UniqueCategories | src/app/strategies/page.tsx:57-59 | 'all' first, then every non-empty present category exactly once, ascending; undefined and '' never appear |
| StrategyListing.PerformanceOrderTotal | src/app/strategies/page.tsx:73-81 | each of the three comparators is a total preorder |
| StrategyListing.StrategyViewSpec | src/app/strategies/page.tsx:64-84 | only the chosen category is shown; each strategy of it is shown as often as it occurs; with 'all' the view is a permutation of all strategies; the order is non-increasing in win rate or profit factor when chosen, otherwise ascending by name |
| StrategyListing.StrategyViewStable | src/app/strategies/page.tsx:73-81 | strategies ranked equal keep their relative order |
| StrategyListing.ClearedViewIsAllByName | src/app/strategies/page.tsx:64-89 | with both filters at 'all' the view is every strategy, ordered by name |
| StrategyListing.WinRateVariant | src/app/strategies/page.tsx:164 | the badge is 'default' iff win rate > 60, 'secondary' iff 40 < win rate <= 60, 'destructive' iff win rate <= 40 |
| StrategyListing.WinRateHighlightMatchesVariant | src/app/strategies/page.tsx:164-167 | the green class appears exactly with the 'default' badge, the red one exactly with the 'destructive' badge |
| StrategyListing.ProfitFactorColour | src/app/strategies/page.tsx:173 | green iff profit factor >= 1.5, red iff < 1, no colour iff in [1, 1.5) |
| StrategyListing.StrategiesPage.constructor | src/app/strategies/page.tsx:30-36 | the fetched strategies, both filters 'all' |
| StrategyListing.StrategiesPage.SetPerformanceFilter | src/app/strategies/page.tsx:116 | only the performance filter changes |
| StrategyListing.StrategiesPage.SetCategoryFilter | src/app/strategies/page.tsx:129 | only the category filter changes |
| StrategyListing.StrategiesPage.ClearFilters | src/app/strategies/page.tsx:86-89 | both filters become 'all'; the list is untouched |
| StrategyListing.StrategiesPage.FilteredStrategies | src/app/strategies/page.tsx:64-84 | filtering and sorting a copy in place yields the specified view, and the page's own list is not changed |
| StrategyListing.ClearFiltersTwice | src/app/strategies/page.tsx:86-89 | after clearing twice both filters are 'all' and the list is unchanged |
| SignalHistory.AssetsOf | src/components/signal-history.tsx:61 | position i holds the asset of signal i |
| SignalHistory.StrategyIdsOf | src/components/signal-history.tsx:66 | position i holds the strategy id of signal i |
| SignalHistory.UniqueAssets | src/components/signal-history.tsx:60-63 | 'all' first, then each asset of some signal exactly once, ascending; an empty asset is kept |
| SignalHistory.UniqueStrategies | src/components/signal-history.tsx:65-68 | 'all' first, then each strategy id of some signal exactly once, ascending |
| SignalHistory.FilteredSignalsSpec | src/components/signal-history.tsx:71-83 | every shown signal matches the asset, the strategy, timestamp >= start and timestamp < end + 86 400 000; every matching signal is shown as often as it occurs and no other; timestamps never increase along the view |
| SignalHistory.ClearedFiltersKeepAll | src/components/signal-history.tsx:72-81 | with every control at its default the view is a permutation of all signals |
| SignalHistory.FilteredSignalsStable | src/components/signal-history.tsx:82 | signals with equal timestamps keep their relative order |
| SignalHistory.SignalHistoryView.constructor | src/components/signal-history.tsx:31-38 | the fetched signals, every control at its default |
| SignalHistory.SignalHistoryView.SetAssetFilter | src/components/signal-history.tsx:121 | only the asset control changes |
| SignalHistory.SignalHistoryView.SetStrategyFilter | src/components/signal-history.tsx:134 | only the strategy control changes |
| SignalHistory.SignalHistoryView.SetStartDate | src/components/signal-history.tsx:147 | only the start date changes |
| SignalHistory.SignalHistoryView.SetEndDate | src/components/signal-history.tsx:151 | only the end date changes |
| SignalHistory.SignalHistoryView.ClearFilters | src/components/signal-history.tsx:85-90 | asset and strategy become 'all', both dates become unset, the signals are untouched |
| SignalHistory.ClearFiltersTwice | src/components/signal-history.tsx:85-90 | after clearing twice every control is at its default, the signals are unchanged and the view is a permutation of them |
| UserEditForm.ParseStatus | src/components/admin/user-edit-form.tsx:27 | a status string is accepted iff it is one of Active, Inactive, Trial, Expired |
| UserEditForm.StatusName | src/components/admin/user-edit-form.tsx:27 | every status is written as one of the four literals and parses back to itself |
| UserEditForm.ParseStatusInverse | src/components/admin/user-edit-form.tsx:27 | writing a parsed literal gives it back |
| UserEditForm.ValidateUser | src/components/admin/user-edit-form.tsx:23-30 | accepted iff name length >= 2, the e-mail passes the format test and a known status is chosen; then id, name, e-mail, status and admin flag are carried over; if rejected, the name, e-mail and status messages each appear iff their field fails |
| UserEditForm.DefaultsValidate | src/components/admin/user-edit-form.tsx:44-50 | the prefilled form of a user meeting the constraints is accepted with that user's id, fields and status, and an admin flag that defaults to false |
| AdminUsers.SearchUsersSpec | src/app/admin/users/page.tsx:81-88 | a user is shown iff the lower-cased name or e-mail includes the lower-cased term; matching users keep their multiplicity and their order |
| AdminUsers.EmptySearchKeepsAll | src/app/admin/users/page.tsx:82-86 | an empty term shows every user |
| AdminUsers.EmptyTableMessage | src/app/admin/users/page.tsx:299 | 'No users match your search.' iff the term is non-empty, 'No users found.' iff it is empty |
| AdminUsers.UpdateUsers | src/app/admin/users/page.tsx:100 | the length and every id are kept; users with another id are unchanged; the matching ones take the submitted name, e-mail and status, take the submitted admin flag when one is given (else keep their own), and keep their joined date, avatar and plan |
| AdminUsers.UpdateUsersIdempotent | src/app/admin/users/page.tsx:100 | submitting the same data twice changes nothing more |
| AdminUsers.UpdateAbsentIsNoop | src/app/admin/users/page.tsx:100 | updating an id no user has leaves the list unchanged |
| AdminUsers.DeleteUsersSpec | src/app/admin/users/page.tsx:122 | no user with the id remains; every other user keeps its multiplicity and its order |
| AdminUsers.DeleteAbsentIsNoop | src/app/admin/users/page.tsx:122 | deleting an id no user has leaves the list unchanged |
| AdminUsers.AdminUsersPage.constructor | src/app/admin/users/page.tsx:49-68 | the fetched users, all of them shown, empty search, no dialog, not submitting |
| AdminUsers.AdminUsersPage.SetSearchTerm | src/app/admin/users/page.tsx:163 | the term changes and the table is the search result for it; nothing else changes |
| AdminUsers.AdminUsersPage.OpenEditDialog | src/app/admin/users/page.tsx:132-135 | the user is being edited and the dialog is open |
| AdminUsers.AdminUsersPage.OpenViewDialog | src/app/admin/users/page.tsx:137-140 | only the viewed user changes |
| AdminUsers.AdminUsersPage.CloseEditDialog | src/app/admin/users/page.tsx:261 | the dialog closes and no user is being edited |
| AdminUsers.AdminUsersPage.BeginUpdateUser | src/app/admin/users/page.tsx:91-93 | submitting starts and the error is cleared |
| AdminUsers.AdminUsersPage.EndUpdateUser | src/app/admin/users/page.tsx:99-110 | on success the list is updated, the dialog closed and editing cleared; on failure the list is unchanged and the update error is shown; submitting ends either way and the table matches the search |
| AdminUsers.AdminUsersPage.BeginDeleteUser | src/app/admin/users/page.tsx:113-115 | the error is cleared; the submitting flag is not touched |
| AdminUsers.AdminUsersPage.EndDeleteUser | src/app/admin/users/page.tsx:121-128 | on success the users with the id are removed, on failure the delete error is shown; the submitting flag is never touched |
| AdminUsers.AdminUsersPage.RefreshSearch | src/app/admin/users/page.tsx:81-88 | the table is recomputed from the list and the term; nothing else changes |
| StrategyForm.ValidateStrategy | src/components/admin/strategy-form.tsx:24-37 | accepted, unchanged, iff name length >= 3, description length >= 10, 0 <= win rate <= 100 and profit factor >= 0; if rejected, each field's message appears iff that field fails |
| StrategyForm.OptionalFieldsIrrelevant | src/components/admin/strategy-form.tsx:25-36 | id, category, indicators, Sharpe ratio and maximum drawdown never change an issue or the verdict |
| StrategyForm.NewDefaultsRejected | src/components/admin/strategy-form.tsx:51-57 | the untouched add form is rejected with exactly the name and description messages |
| StrategyForm.EditDefaultsValidate | src/components/admin/strategy-form.tsx:51-57 | the unchanged edit form of a strategy meeting the constraints is accepted as submitted, with the strategy's own id and a value for every optional field (an absent one submits "" or 0) |
| StrategyForm.DeleteTarget | src/components/admin/strategy-form.tsx:64-69 | the delete handler is called, with the strategy's id, iff the id is non-empty, a handler is given and the user confirms |
| AdminStrategies.MergeEditDefaults | src/app/admin/strategies/page.tsx:77 | merging the unchanged edit form over a strategy keeps its id, name, description, win rate, profit factor, backtest statistics and every optional field it has; an absent category or indicator list becomes "" and an absent Sharpe ratio or drawdown becomes 0; the strategy comes back unchanged iff it has all four optional fields |
| AdminStrategies.NewIdInjective | src/app/admin/strategies/page.tsx:81 | different clock readings give different new ids |
| AdminStrategies.UpdateStrategies | src/app/admin/strategies/page.tsx:77 | the length is kept; strategies with another id are unchanged; the matching ones take the submitted name, description and performance; the submitted id, category and indicators each replace the stored one when given and are kept otherwise; the backtest statistics are kept |
| AdminStrategies.UpdateAbsentIsNoop | src/app/admin/strategies/page.tsx:77 | updating an id no strategy has leaves the list unchanged |
| AdminStrategies.UpdateWithOwnValues | src/app/admin/strategies/page.tsx:77 | saving a strategy's edit form unchanged replaces exactly the records with its id by that merge and keeps the length; the list is unchanged when the strategy has all four optional fields |
| AdminStrategies.SaveStrategies | src/app/admin/strategies/page.tsx:75-84 | the update path iff a strategy is being edited; otherwise exactly one record, with the new id, is appended after the unchanged list |
| AdminStrategies.DeleteStrategiesSpec | src/app/admin/strategies/page.tsx:110 | no strategy with the id remains; every other one keeps its multiplicity and its order |
| AdminStrategies.DeleteAbsentIsNoop | src/app/admin/strategies/page.tsx:110 | deleting an id no strategy has leaves the list unchanged |
| AdminStrategies.AdminStrategiesPage.constructor | src/app/admin/strategies/page.tsx:35-40 | the fetched strategies, form closed, nothing edited, not submitting |
| AdminStrategies.AdminStrategiesPage.OpenEditDialog | src/app/admin/strategies/page.tsx:128-131 | the form opens on the given strategy |
| AdminStrategies.AdminStrategiesPage.OpenAddDialog | src/app/admin/strategies/page.tsx:133-136 | the form opens with nothing being edited |
| AdminStrategies.AdminStrategiesPage.SetFormOpen | src/app/admin/strategies/page.tsx:151 | only the open flag changes |
| AdminStrategies.AdminStrategiesPage.BeginSave | src/app/admin/strategies/page.tsx:67-69 | submitting starts, the error is cleared, and the editing state at submission is recorded for the rest of the handler |
| AdminStrategies.AdminStrategiesPage.EndSave | src/app/admin/strategies/page.tsx:75-98 | the choice uses the editing state captured at submission, not the dialog's state when the await returns: on success the list is updated when a strategy was being edited, appended to otherwise, and the form closes; on failure the list is unchanged and the error names the attempted action; submitting ends either way |
| AdminStrategies.SaveSurvivesDialogSwitch | src/app/admin/strategies/page.tsx:67-98 | saving an edit, then closing the dialog and opening the add form before the save finishes, still updates the edited strategy and appends nothing |
| AdminStrategies.AdminStrategiesPage.BeginDelete | src/app/admin/strategies/page.tsx:101-103 | submitting starts and the error is cleared |
| AdminStrategies.AdminStrategiesPage.EndDelete | src/app/admin/strategies/page.tsx:109-124 | on success the strategies with the id are removed and the form closes; on failure the list is unchanged and the error shown; submitting ends either way |
| NotificationsPanel.UnreadCountZero | src/components/notifications-panel.tsx:45 | the unread counter is zero iff every notification is read |
| NotificationsPanel.MarkRead | src/components/notifications-panel.tsx:48-50 | the length is kept; items with the id become read and are otherwise unchanged; all other items are unchanged |
| NotificationsPanel.MarkReadCount | src/components/notifications-panel.tsx:45-50 | the counter drops by exactly the number of unread items with the id, so it never rises |
| NotificationsPanel.MarkReadAbsentIsNoop | src/components/notifications-panel.tsx:48-50 | marking an id no item has changes nothing |
| NotificationsPanel.MarkAllRead | src/components/notifications-panel.tsx:56-58 | every item becomes read and is otherwise unchanged |
| NotificationsPanel.MarkAllReadSpec | src/components/notifications-panel.tsx:56-58 | afterwards the counter is zero, and doing it again changes nothing |
| NotificationsPanel.MarkAllButtonSpec | src/components/notifications-panel.tsx:130-132 | 'Mark All Read' is disabled iff every item is read, is always disabled after being pressed, and the badge shows iff it is enabled |
| NotificationsPanel.NotificationsPanel.constructor | src/components/notifications-panel.tsx:44 | the panel starts with the given notifications |
| NotificationsPanel.NotificationsPanel.MarkAsRead | src/components/notifications-panel.tsx:47-53 | the list is marked for the id and the counter does not rise |
| NotificationsPanel.NotificationsPanel.MarkAllAsRead | src/components/notifications-panel.tsx:55-61 | every item is marked read and the counter is zero |
| NotificationsPanel.NotificationsPanel.ClearAllNotifications | src/components/notifications-panel.tsx:63-67 | the list is empty, the counter is zero and the footer is hidden |
| Account.IndexOf | src/app/account/page.tsx:142 | -1 iff the plan is not a tier; otherwise the first position holding it |
| Account.HighestTierIff | src/app/account/page.tsx:142-143 | the highest-tier test holds iff the plan is 'Ultimate'; an unknown plan still offers the upgrade |
| Account.SetPreference | src/app/account/page.tsx:106-112 | exactly the chosen switch takes the new value, the other keeps its own |
| Account.SetPreferenceUndo | src/app/account/page.tsx:106-112 | switching back to the previous value restores the preferences |
| Account.Capitalise | src/app/account/page.tsx:116 | only the first character changes, to its capital |
| Account.PreferenceToastTexts | src/app/account/page.tsx:116 | the four toast texts: "Email notifications enabled.", "Email notifications disabled.", "Push notifications enabled.", "Push notifications disabled." |
| Account.Split | src/app/account/page.tsx:156 | `split(' ')` gives at least one piece, and no piece contains a space |
| Account.SplitJoin | src/app/account/page.tsx:156 | joining the pieces with single spaces gives the name back |
| Account.FirstCharsSplit | src/app/account/page.tsx:156 | the first characters of the pieces are the characters that start a word |
| Account.InitialsAreWordStarts | src/app/account/page.tsx:156 | the initials are exactly the non-space characters at the front or right after a space; empty pieces contribute nothing |
| Account.AccountPage.constructor | src/app/account/page.tsx:48-51 | the initial user, dialog closed, edit buffers holding the user's name and e-mail |
| Account.AccountPage.HandleNotificationChange | src/app/account/page.tsx:105-118 | only the chosen preference changes and the toast text is produced; all other state is unchanged |
| Account.AccountPage.SetEditedName | src/app/account/page.tsx:189 | only the name buffer changes |
| Account.AccountPage.SetEditedEmail | src/app/account/page.tsx:202 | only the e-mail buffer changes |
| Account.AccountPage.SetEditModalOpen | src/app/account/page.tsx:166 | only the dialog flag changes |
| Account.AccountPage.HandleProfileUpdate | src/app/account/page.tsx:120-133 | name and e-mail take the buffers; avatar, subscription and preferences stay; the dialog closes; called only on buffers the browser accepts, so the stored name is non-empty and the stored e-mail well-formed |
| Account.AccountPage.SubmitProfileForm | src/app/account/page.tsx:180-212 | the submit goes through exactly when the `required` name box is non-empty and the `required` e-mail box holds a well-formed address; a blocked submit changes nothing and leaves the dialog open; a valid stored profile stays valid |
| Account.AccountPage.HandleOpenEditModal | src/app/account/page.tsx:136-140 | the buffers are reset from the stored user before the dialog opens |
| BroadcastForm.ParseDirection | src/components/admin/broadcast-form.tsx:36 | a direction is accepted iff it is Buy or Sell |
| BroadcastForm.DirectionName | src/components/admin/broadcast-form.tsx:36 | each direction's literal parses back to it |
| BroadcastForm.BroadcastIssuesEmpty | src/components/admin/broadcast-form.tsx:33-41 | no issue is reported iff the strategy is chosen and non-empty, the asset is non-empty, the direction is Buy or Sell and all three prices are positive |
| BroadcastForm.BroadcastIssuesText | src/components/admin/broadcast-form.tsx:34-36 | "Required" for the strategy appears iff none is chosen, "Please select a strategy." iff an empty one is; the asset and direction-required messages each appear iff their field fails in that way |
| BroadcastForm.BroadcastIssuesPrices | src/components/admin/broadcast-form.tsx:37-39 | each price message appears iff that price is not positive |
| BroadcastForm.DirectionIssuesSpec | src/components/admin/broadcast-form.tsx:36 | direction issues are reported under 'direction'; 'required' appears iff none is chosen; none is reported iff the direction is Buy or Sell |
| BroadcastForm.ValidateBroadcast | src/components/admin/broadcast-form.tsx:33-41 | accepted iff every field is acceptable; then the asset is upper-cased and every other field is carried over; if rejected, each field's message appears iff that field fails, including "Required" iff no strategy is chosen |
| BroadcastForm.ValidateIdempotent | src/components/admin/broadcast-form.tsx:35 | re-validating an accepted record gives the same record |
| BroadcastForm.BroadcastDefaultsRejected | src/components/admin/broadcast-form.tsx:57-60 | the default direction is valid; the untouched form is rejected with exactly the strategy, asset and three price issues |
| BroadcastForm.BuyWithStopAboveEntryAccepted | src/components/admin/broadcast-form.tsx:33-41 | no ordering of the prices is enforced: a Buy with its stop above its entry is accepted |
| Upgrade.FindPlan | src/app/upgrade/page.tsx:82 | none iff no plan has the id; otherwise the first plan with it |
| Upgrade.PriceSuffix | src/app/upgrade/page.tsx:131 | "/month" iff the price is positive |
| Upgrade.PaidButtonLabel | src/app/upgrade/page.tsx:148 | 'Get Started' iff the price is 0, otherwise 'Choose Plan' |
| Upgrade.TrialButtonLabel | src/app/upgrade/page.tsx:191 | 'Start Trial' iff the price is 0, otherwise 'Choose Plan' |
| Upgrade.PaidPlansSpec | src/app/upgrade/page.tsx:81 | the paid plans are the table without its trial row: Starter, Professional, Ultimate, in that order |
| Upgrade.PaidPlanLabels | src/app/upgrade/page.tsx:131-148 | every paid card shows "/month" and 'Choose Plan' |
| Upgrade.TrialPlanSpec | src/app/upgrade/page.tsx:82 | the trial plan is the only plan with id 'trial'; it is free, shows no suffix and reads 'Start Trial' |
| Upgrade.OnlyProfessionalRecommended | src/app/upgrade/page.tsx:21-79 | a plan is recommended iff it is Professional |
| Upgrade.PlansOrdered | src/app/upgrade/page.tsx:21-79 | prices strictly increase along the table, and the plan names are the account page's tiers in order |
| HeaderContent.HideContentIff | src/components/header-content.tsx:8-18 | the content is hidden iff the path is exactly '/login', '/signup' or '/forgot-password' |
| HeaderContent.SubpathNotHidden | src/components/header-content.tsx:18 | the match is exact: '/login/reset' is not hidden |
| HeaderContent.Render | src/components/header-content.tsx:20-24 | nothing is rendered iff the path is hidden; otherwise the children, unchanged |

## Left out

- **Data loading.** The `useEffect` fetches, the loading flags and the fetch-error banners are left out. Each page class is built from the fetched list.
- **Side effects.** Toasts, `console` output, the simulated `setTimeout` latency, routing (`router.push`, `window.location`) and the upgrade page's choose-plan toast have no state to model.
- **Rendering.** Dialog, sheet and select markup are left out. So are the notification type styles and labels, and date and number formatting (`format`, `formatDistanceToNow`, `toFixed`).
- **Floating point.** Prices and metrics are exact reals, so float rounding in the generator's arithmetic is not modelled.
- **Locale order.** `localeCompare` is the parameter `collate`, and only its being a total preorder is used.
- **E-mail syntax.** The schema library's e-mail syntax, and the browser's check of a box of type "email" on the account page, are the parameter `isEmail`.
- **Number coercion.** `z.coerce.number` string coercion is not modelled: numbers arrive already parsed. An empty number box is taken to read as 0, and an empty text box as "". This covers the unset optional boxes of both the add form and the edit form.
- **Generator timestamps.** The generator's random instant within the last seven days is passed in as the draw's `timestamp`. The wall-clock arithmetic around it is not modelled.
- **Generator draws.** The `Math.random()` draws form one record per signal rather than one stream. A draw the source makes only conditionally (the MACD value) is simply unused when the coin is at most 0.5.
- **Mock data.** The mock tables of src/services/strategies.ts and src/services/users.ts, the notifications panel's `mockNotifications` and the account page's `initialUser` are left out; only their record types are modelled, and the account page is built from any initial user.
- Account.AccountPage.HandleNotificationChange: the page renders the Push switch `disabled` (src/app/account/page.tsx:281), so the Push path of this handler and the two Push toast texts cannot be reached from the page; the model keeps the handler as written, for both kinds.
- **Strings.** They are sequences of characters, with no UTF-16 surrogate pairs. Case mapping covers ASCII letters only.
- **Backtest statistics.** The interface allows `string | object`; the model carries it as an optional string, because no modelled operation reads it.
- **Spread merges.** A merge copies a submitted optional field only when it is present. A key explicitly set to `undefined` is treated as absent.
- SignalHistory.Matches: the end bound adds a fixed 24 hours, as the code does, so a day with a daylight-saving shift is not a calendar day.
- AdminUsers.AdminUsersPage.EndUpdateUser: the search effect that React runs after the state change is run at the end of the handler (`RefreshSearch`), so the in-between render with a stale table is not modelled.
- UserEditForm.ValidateUser: the contract names the required-status message but not the text of the invalid-enum message for an unknown status literal. The text is built by `Basics.InvalidEnumMessage` and is not stated in any ensures.
- BroadcastForm.ValidateBroadcast: likewise, the invalid-enum message for an unknown direction literal is built but not stated in any ensures.
- AdminStrategies.SaveFailedMessage: it carries no contract. Its only variation is `SaveAction`, "update" when editing and "add" otherwise.
