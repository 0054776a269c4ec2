# MetaBox-Budget in Dafny

A verified model of the logic behind MetaBox-Budget, a browser app for
planning and tracking a film's budget. It covers:

- **The ledger.** Line items, three running totals (budget, spent, variance)
  and a category/subcategory taxonomy, changed only through a six-action
  reducer. The central invariant is that each running total equals the sum
  of its column over the items. It is proved for every state reachable from
  the initial state by any sequence of actions. `ADD_ITEM` keeps the totals
  incrementally; the other item actions recompute them.
- **The chat assistant's dispatcher.** It classifies a message by ordered
  keyword rules, then does one of four things:
  - lists one of three built-in budget templates and keeps it in a single
    pending-template slot;
  - reports on the ledger;
  - applies the pending template as one `ADD_ITEM` per template line;
  - or passes the message to the language-model client.
- **The language-model client.** Its two settings, the prompt it wraps
  around the user's words, and the canned offline replies it falls back to
  whenever the call does not succeed.
- **The pages.**
  - The budget page: validating the form, building an item, and adding it
    or replacing the edited item.
  - The reports page: the category breakdown with percentages, the ten
    largest variances, the over-budget categories and the notices shown.
  - The dashboard: its charts, recent items and summary cards.
  - The schedule page: adding events, status colours, and the timeline
    sorted by date in place.

Money is an exact integer. The things the program gets from outside are
parameters of the operations that use them:

- fresh ids and today's date;
- the user's answer to a confirmation dialog;
- the outcome of the HTTP call;
- whether an exception escaped a chat branch.

Stateful parts are classes whose methods are proved against the pure
functions that specify them:

- the ledger store (`Ledger.Store`);
- the chat panel (`Chat.ChatSession`);
- the language-model client (`Ollama.OllamaService`);
- the budget page (`Budget.BudgetPage`);
- the schedule page (`Schedule.SchedulePage`).

Files:

- `util.dfy`: option type, `filter`, `slice`.
- `text.dfy`: lower-casing, substring search, the blank test.
- `ledger.dfy`: the reducer and the store.
- `breakdown.dfy`: the per-category aggregation shared by chat, reports and
  dashboard.
- `ollama.dfy`: the language-model client.
- `chat.dfy`: the chat panel.
- `budget_page.dfy`, `reports.dfy`, `dashboard.dfy` and `schedule.dfy`:
  the pages.

## Model

| member | source | states |
|---|---|---|
| Ledger.InitialState | src/contexts/BudgetContext.tsx:35-54 | no items, all three totals 0, five distinct categories each with a subcategory list, and the totals invariant holds |
| Ledger.WithItems | src/contexts/BudgetContext.tsx:68-109 | recomputing the totals from an item list yields exactly that list with consistent totals and the taxonomy untouched |
| Ledger.AddItemEffect | src/contexts/BudgetContext.tsx:59-66 | ADD_ITEM appends the payload at the end, raises each total by the payload's own figure, leaves the taxonomy alone, and on a consistent state equals recomputing from scratch |
| Ledger.ReducePreservesConsistent | src/contexts/BudgetContext.tsx:57-136 | every action keeps "totals equal column sums" |
| Ledger.RunPreservesConsistent | src/contexts/BudgetContext.tsx:57-136 | any sequence of actions from a consistent state ends consistent |
| Ledger.EveryReachableStateConsistent | src/contexts/BudgetContext.tsx:35-136 | every state reachable from the initial state is consistent |
| Ledger.TotalVarianceIsDifference | src/contexts/BudgetContext.tsx:72-74 | when every item's variance is actual minus amount, the variance total is the spent total minus the budget total |
| Ledger.ReplaceAt | src/contexts/BudgetContext.tsx:69-71 | the update map keeps length and position, swapping in the payload exactly where the id matches |
| Ledger.UpdateItemEffect | src/contexts/BudgetContext.tsx:68-82 | UPDATE_ITEM keeps length and order, replaces every item with the payload's id (all duplicates), keeps the others, recomputes consistent totals, keeps the taxonomy |
| Ledger.UpdateAbsentIsNoop | src/contexts/BudgetContext.tsx:69-74 | an id no item carries leaves the items identical, and a consistent state entirely unchanged |
| Ledger.DeleteItemEffect | src/contexts/BudgetContext.tsx:84-96 | DELETE_ITEM removes every item with that id and keeps every other item as often as it occurred; totals consistent, taxonomy kept |
| Ledger.DeleteKeepsOrder | src/contexts/BudgetContext.tsx:85 | the survivors keep their relative order |
| Ledger.DeleteAbsentIsNoop | src/contexts/BudgetContext.tsx:84-96 | deleting an absent id changes nothing on a consistent state |
| Ledger.SetItemsEffect | src/contexts/BudgetContext.tsx:98-109 | SET_ITEMS installs the payload verbatim, with totals that are the payload's sums whatever the prior state |
| Ledger.AddCategoryEffect | src/contexts/BudgetContext.tsx:111-119 | ADD_CATEGORY appends the name without de-duplication (its count rises by one), resets its subcategory list to empty, keeps other lists, items and totals |
| Ledger.AddSubcategoryEffect | src/contexts/BudgetContext.tsx:121-131 | ADD_SUBCATEGORY appends to the named list (a missing list counts as empty), keeps other lists, never changes the categories or items |
| Ledger.Store.constructor | src/contexts/BudgetContext.tsx:151-152 | the store starts at the initial state |
| Ledger.Store.Dispatch | src/contexts/BudgetContext.tsx:152 | dispatch replaces the state by the reducer's result and preserves consistency |
| Breakdown.RowsExactly | src/components/AIChat.tsx:161-166 | every breakdown row is the aggregate of a taxonomy category with positive summed amount, and every such category has its row |
| Breakdown.RowsFollowTaxonomyOrder | src/components/AIChat.tsx:161-166 | rows appear in taxonomy order |
| Breakdown.RowIgnoresOtherCategories | src/components/AIChat.tsx:162-165 | a row's variance is its actual minus its budget, and items of other categories do not affect it |
| Breakdown.CategoriesPartitionTotal | src/pages/Reports.tsx:20-24 | with distinct categories covering every item, the per-category sums add up to the ledger's column total |
| Breakdown.RowsKeepSum | src/pages/Reports.tsx:20-32 | with non-negative amounts, dropping rows whose budget is not positive drops only zeros |
| Breakdown.BreakdownCoversTotalBudget | src/pages/Reports.tsx:20-32 | on a consistent, fully filed ledger the rows' budgets add up to the total budget |
| Text.Lower | src/components/AIChat.tsx:196 | lower-casing keeps the length and maps each character |
| Text.ContainsPart | src/components/AIChat.tsx:213 | whatever contains a string contains each of its pieces ("use template" contains "template") |
| Ollama.PromptRoundTrip | src/services/ollamaService.ts:79-93 | the prompt is preamble, the input verbatim, suffix: the input can be read back out |
| Ollama.FormatPromptInjective | src/services/ollamaService.ts:79-93 | different inputs give different prompts |
| Ollama.FallbackIdentifiesRule | src/services/ollamaService.ts:96-145 | each of the four canned replies is given exactly when its rule is the first to match the lower-cased input |
| Ollama.CatchAllQuotesInput | src/services/ollamaService.ts:135 | the catch-all reply quotes the original, not lower-cased, input |
| Ollama.PreambleSaysCreate | src/services/ollamaService.ts:80 | the prompt preamble holds "create" at offset 65 |
| Ollama.FormattedPromptAlwaysAsksForTemplate | src/services/ollamaService.ts:74 | the fallback must see the raw prompt: applied to the formatted prompt it would always give the template advice |
| Ollama.OllamaService.constructor | src/services/ollamaService.ts:21-24 | omitted arguments default to http://localhost:11434 and llama2 |
| Ollama.OllamaService.SetModel | src/services/ollamaService.ts:148-150 | replaces only the model |
| Ollama.OllamaService.SetBaseUrl | src/services/ollamaService.ts:153-155 | replaces only the base URL |
| Ollama.OllamaService.GenerateResponse | src/services/ollamaService.ts:50-76 | the request carries the formatted prompt, stream false, and the explicit model unless missing or empty; success returns the body's response unchanged, any failure the fallback for the raw prompt |
| Chat.CatalogTotals | src/components/AIChat.tsx:80-112 | feature film: 9 lines summing to 1,160,000; short film: 5 lines, 11,500; documentary: 5 lines, 85,000 |
| Chat.GenerateBudgetTemplate | src/components/AIChat.tsx:75-116 | the catalog under the key, and the feature-film catalog for any unknown key |
| Chat.ProjectType | src/components/AIChat.tsx:197-198 | "short" wins over "documentary"; anything else is a feature film |
| Chat.UseTemplateIsGeneration | src/components/AIChat.tsx:196-213 | input containing "use template" is always routed to generation: the second apply alternative never fires |
| Chat.ApplyRoute | src/components/AIChat.tsx:196-213 | the apply branch runs exactly when the input says "apply" and none of template/create/analyze/report |
| Chat.DelegatedFallback | src/components/AIChat.tsx:225-228 | input reaching the language model has none of the first four keywords, so on failure the reply is the recommendation list (iff it says recommend/advice) or the catch-all, never the other two |
| Chat.AnalyzeBudget | src/components/AIChat.tsx:135-173 | the report repeats the three ledger totals; utilization is spent times 100 over a positive budget, else 0; "over budget" label iff variance >= 0; overrun block iff > 0; good-status block iff < 0; breakdown is the shared category rows |
| Chat.AnalysisMeaning | src/components/AIChat.tsx:138-159 | on a consistent ledger of well-formed items the overrun block shows iff more was spent than budgeted, the good block iff less; at balance neither shows though the label says over budget |
| Chat.LineItems | src/components/AIChat.tsx:118-131 | one ledger line per template line, in order, with the line's category, subcategory, description and amount, actual 0, variance minus the amount, the fresh id, notes naming the template and today's date |
| Chat.ApplyTemplateEffect | src/components/AIChat.tsx:118-133 | applying a template appends exactly its lines in order, raises the budget total by the template's sum, keeps the spent total, lowers the variance total by the sum, keeps the taxonomy |
| Chat.RespondKeepsLedgerConsistent | src/components/AIChat.tsx:192-228 | no chat turn breaks the ledger invariant |
| Chat.SlotLifecycle | src/components/AIChat.tsx:209-224 | generation overwrites the slot and leaves the ledger; apply with an empty slot answers the no-template text and changes nothing; apply always leaves the slot empty |
| Chat.ShortFilmScenario | src/components/AIChat.tsx:196-224 | asking for a short-film template then applying adds exactly five unspent lines worth 11,500 and empties the slot, so a second apply only answers the no-template text |
| Chat.ChatSession.constructor | src/components/AIChat.tsx:44-63 | the log holds only the welcome message, the draft is empty, not busy, and the slot holds what browser storage held |
| Chat.ChatSession.SetInput | src/components/AIChat.tsx:62 | typing changes only the draft |
| Chat.ChatSession.ApplyTemplate | src/components/AIChat.tsx:118-133 | the loop dispatches one ADD_ITEM per template line in order, leaving the store at the run of those actions |
| Chat.ChatSession.HandleSendMessage | src/components/AIChat.tsx:178-252 | blank input or a send while busy changes nothing; otherwise exactly two messages are appended, user's then assistant's, the draft is cleared, busy is off, and ledger, slot and reply are those of the chosen branch, or the fixed apology with nothing changed when a branch throws |
| Budget.EmptyForm | src/pages/Budget.tsx:58-67 | the reset form has empty fields, amount and actual 0, and today's date |
| Budget.FormOf | src/pages/Budget.tsx:71-74 | editing loads every field of the item into the form |
| Budget.SubmitId | src/pages/Budget.tsx:37 | the edited item's id when editing, a fresh id otherwise |
| Budget.BuildItem | src/pages/Budget.tsx:36-46 | the built item copies the form, has variance actual minus amount, and today's date when the form's date is empty |
| Budget.SubmitEffect | src/pages/Budget.tsx:36-53 | a submitted add appends the built item; a submitted edit replaces in place every item with the edited id and keeps the rest; the ledger stays consistent |
| Budget.EditRoundTrip | src/pages/Budget.tsx:71-74 | editing a well-formed item and submitting unchanged writes back the same item |
| Budget.BudgetPage.constructor | src/pages/Budget.tsx:7-17 | the page starts with an empty form, not editing, not adding |
| Budget.BudgetPage.StartAdding | src/pages/Budget.tsx:95 | opens the add form, nothing else |
| Budget.BudgetPage.SetForm | src/pages/Budget.tsx:126 | typing changes only the form |
| Budget.BudgetPage.ResetForm | src/pages/Budget.tsx:58-69 | empty form, add form closed, edited id kept |
| Budget.BudgetPage.HandleSubmit | src/pages/Budget.tsx:28-56 | an empty category, subcategory or description changes nothing; otherwise UPDATE_ITEM under the edited id or ADD_ITEM under a fresh id, then the edited id is cleared (after an update) and the form reset and closed |
| Budget.BudgetPage.HandleEdit | src/pages/Budget.tsx:71-74 | remembers the item's id and loads the item into the form |
| Budget.BudgetPage.HandleDelete | src/pages/Budget.tsx:76-80 | DELETE_ITEM for that id exactly when confirmed |
| Budget.BudgetPage.HandleCancel | src/pages/Budget.tsx:82-85 | resets the form and stops editing |
| Reports.Percentage | src/pages/Reports.tsx:30 | 0 unless the total budget is positive, otherwise the budget's share of it times 100 |
| Reports.BreakdownMembership | src/pages/Reports.tsx:20-32 | a row is in the breakdown exactly when it is the row of a taxonomy category with positive summed amount |
| Reports.BreakdownAgreesWithRows | src/pages/Reports.tsx:20-32 | the reports breakdown is, row for row in taxonomy order, the shared category rows with a percentage attached |
| Reports.PercentagesAddUp | src/pages/Reports.tsx:20-32 | on a consistent, fully filed ledger with non-negative amounts and a positive total, the percentages add up to 100 |
| Reports.SortByMagnitudeRanked | src/pages/Reports.tsx:36 | the sort puts larger absolute variances first and only reorders |
| Reports.TopVariances | src/pages/Reports.tsx:34-42 | the table rows are the first (at most ten) ranked items, each as description, absolute variance and over flag |
| Reports.TopVariancesSpec | src/pages/Reports.tsx:34-42 | at most ten rows, all with positive variance, descending; isOver iff the item overspent; the ranking is the off-budget items reordered and nothing cut off is larger than anything shown |
| Reports.OverBudgetExactly | src/pages/Reports.tsx:271-280 | a category is listed as over budget exactly when it is in the taxonomy with a positive summed amount and a larger summed actual |
| Reports.ShownNotices | src/pages/Reports.tsx:251-280 | overrun notice iff total variance > 0, under-budget notice iff < 0, neither at 0; category alert iff some category is over budget |
| Dashboard.CategoryDataAgreesWithRows | src/pages/Dashboard.tsx:12-16 | the chart shows, in taxonomy order, exactly the shared rows' categories valued at their summed amounts |
| Dashboard.VarianceData | src/pages/Dashboard.tsx:18-26 | the bars copy the first off-budget items in ledger order, figures unchanged |
| Dashboard.VarianceDataSpec | src/pages/Dashboard.tsx:18-26 | at most ten bars, each copying an off-budget ledger item; all off-budget items shown when there are at most ten |
| Dashboard.VarianceDataIsFirstTen | src/pages/Dashboard.tsx:18-20 | the chart is not ranked: once ten off-budget items exist, appending another never changes it |
| Dashboard.RecentItems | src/pages/Dashboard.tsx:166 | the first five items in ledger order |
| Dashboard.SummaryCards | src/pages/Dashboard.tsx:53-91 | the variance card shows its magnitude in red when not negative, and the item card counts the items |
| Dashboard.SummaryCardsTrackLedger | src/pages/Dashboard.tsx:53-65 | on a consistent ledger the cards show the column sums, and ADD_ITEM raises the count by one |
| Schedule.StatusColor | src/pages/Schedule.tsx:61-70 | green for completed, blue for in progress, gray for anything else |
| Schedule.BuildEvent | src/pages/Schedule.tsx:80-89 | the event copies the form and an empty status becomes planned |
| Schedule.DateLeTotal | src/pages/Schedule.tsx:213 | any two dates are comparable |
| Schedule.DateLeTransitive | src/pages/Schedule.tsx:213 | the date order is transitive |
| Schedule.SwapStep | src/pages/Schedule.tsx:212-213 | one swap of the insertion keeps the partially sorted state |
| Schedule.InsertionDone | src/pages/Schedule.tsx:212-213 | when the insertion stops the prefix is sorted by date |
| Schedule.InsertIntoSorted | src/pages/Schedule.tsx:212-213 | inserting one event into the sorted prefix extends it, only permuting the array |
| Schedule.SchedulePage.constructor | src/pages/Schedule.tsx:15-59 | the page starts with the three sample events and the default form |
| Schedule.SchedulePage.StartAdding | src/pages/Schedule.tsx:112 | opens the form, nothing else |
| Schedule.SchedulePage.CancelAdding | src/pages/Schedule.tsx:197 | closes the form without resetting it |
| Schedule.SchedulePage.SetForm | src/pages/Schedule.tsx:133 | typing changes only the form |
| Schedule.SchedulePage.HandleSubmit | src/pages/Schedule.tsx:72-102 | without title or date nothing changes; otherwise a new array holds the old events followed by the built event, and the form is reset and closed |
| Schedule.SchedulePage.SortTimeline | src/pages/Schedule.tsx:212-213 | sorts the page's own array in place into ascending date order, keeping the same events |

## Left out

- Rendering: markup, CSS classes other than the status badge colours, charts, icons, navigation, routing, and the Markdown-to-HTML rewriting of chat messages.
- The settings page: a form with a simulated save and no ledger logic.
- Network I/O: availability checks, listing models, and the HTTP exchange itself. The outcome of the generate call is a parameter (`HttpReply`).
- Asynchrony and React's state batching: each handler runs to completion atomically. Scrolling to the newest message and the outside-provider error of the context hook are not modelled.
- Locale and floating-point formatting of money and percentages: the model states which rows, blocks and numbers appear, not their text. Percentages and utilization are exact reals, not floats.
- The chat replies for a generated template, an analysis and an applied template are structured values (`Content`), not their formatted text.
- Ids and timestamps: `Date.now()`/`Math.random()` ids, message ids and timestamps are not modelled. Fresh ids and today's date are parameters.
- Browser storage: JSON serialisation of the pending template is left out. The slot is an `Option<Template>` field, and the constructor takes what storage held.
- Chat.ChatSession.HandleSendMessage: an exception is a boolean parameter that takes effect before the branch changes anything. A throw part-way through applying a template is not modelled.
- The reports page's monthly chart: it groups by locale month strings that come from date parsing.
- Text.Lower: only A–Z are lower-cased. JavaScript's full Unicode case mapping is not modelled.
- Object keys: JavaScript property lookups such as a category named `__proto__` are not modelled. Subcategory lists are a plain map.
- The reducer's default case: it is unreachable with the six typed actions.
- Schedule.DateLe: dates are compared as strings, which is chronological order for the `YYYY-MM-DD` values the date input produces. Unparsable dates, whose timestamps are NaN, are not modelled.
- Reports.SortByMagnitude and Schedule.SchedulePage.SortTimeline: both are stable by construction (insertion that never passes an equal element), but stability is not proved. Their contracts state order and permutation.
