# Verified model of the CRM's engines

This project models the parts of the backend (`api/app`) whose behaviour depends
on long runs, interleavings or whole trees, and proves what they promise:

* **The filter compiler.** Filter trees, the SQL fragment the compiler emits, a
  three-valued evaluator with a fourth outcome for queries that raise, and a
  direct two-valued meaning of filter trees (`FilterDsl`, `FilterSql`,
  `FilterCompiler`, `FilterMeaning`, `FilterProofs`, `FilterBuilders`, `FilterLaws`,
  `FilterLawful`, `FilterWindows`, `FilterSelections`, `FilterErrors`, `LikePatterns`).
* **The transactional outbox.** One row's life, the dispatcher's code over row
  objects, the protocol of any number of workers, crashes, redrives and clock
  ticks, and the exact conditions under which its guarantees end (`Outbox`,
  `Dispatcher`, `OutboxProtocol`, `OutboxLimits`, `OutboxFinality`, `OutboxDeaths`).
* **Assignment.** One-query rule matching, the weighted deal list and the cursor
  under a row lock (`Assignment`, `RoundRobin`).
* **Recurring dates** on a real calendar (`Calendar`, `Recurrence`).
* **Sessions, credentials and throttling** (`Accounts`, `AccountRuns`, `RateLimit`).
* **The timeline**: the action log and its rollups, merging leads, handing over a
  pipeline, and field keys (`Timeline`, `MergeValues`, `Merge`, `MergeOrder`,
  `TimelineFilters`, `LeadOwnership`, `Slugs`).

Classes keep the fields that the services update; their methods are proved
against functions on values, and the lemmas about runs are about those functions.

## Assumptions

* `FilterMeaning.Lawful` collects what the filter compiler needs of PostgreSQL and
  Python: numbers and booleans survive their text form, the empty text is no number
  and no date, a rendered value is never empty, case folding works character by
  character and leaves the LIKE metacharacters alone, and a local day starts at its
  midnight. Operands are read at their value: a JSON text as it stands, a number or a
  flag as itself, and a text that both Python and the database read as a number or a
  day, as the same one. `FilterLawful.LawfulIsPossible` shows these can hold together.
* Stored values have the shape their field type normalises to (`WellStored`). Tags are
  absent, a list of texts, or the JSON null that clearing them stores
  (`api/app/fields/registry.py:332-346`).
* The fourth outcome, a fault, is that of a query that raises once the part in question
  is evaluated. SQL fixes no order of evaluation, so a conjunction or disjunction counts
  as raising when either side does.
* The outbox guarantees about exclusivity assume that a live worker commits within
  the claim timeout of its pass's clock, and that an operator does not redrive a row
  being delivered. A batch of 50 at ten seconds each can exceed the former; the
  redrive endpoint refuses only delivered rows. `OutboxLimits` says exactly when two
  workers can share a row without them. `NothingIsLost` needs neither; what a dead row
  has behind it (`OutboxDeaths`) needs only that redrives are safe, and exactly that;
  when a settled row is final (`OutboxFinality`) is said for every state and run.
* Claiming, `rotate` and each other service call are atomic transactions. Token
  hashes are injective; fresh tokens, families and event ids are unused before.
* Answers of SELECT statements are inputs constrained by what the query asks: the
  claim query, the rules query, the leads named in a merge (whose order is the
  database's), the open leads of a member.
* Clocks, transport results, password hashing and the random tail of a field key
  are parameters.

## Where the code and its documentation differ

The model follows the code.

* A window of the last n days is described as the customer's days
  (`api/app/filters/dsl.py:68-94`), and compiled as n times 24 hours before now
  (`api/app/filters/compiler.py:363-389`). `FilterWindows` says exactly when the two
  agree, and on which rows they differ.
* The emptiness test counts a JSON null as "no value"
  (`api/app/filters/compiler.py:206-221`), but on a tag field, where null is what
  cleared tags are stored as, its query asks for the length of a scalar and raises. One
  such lead is enough to fail the list, or the assignment of that lead.
* The key pattern's `$` also accepts one trailing newline (`api/app/filters/compiler.py:64`).
* A location column joins its address lines and is never NULL, so NOT_IN and the
  negative operators also select leads without an address.
* Scalar NOT_IN is not the complement of IN: a lead with no value is selected by
  neither (`FilterLaws.MembershipPartition` gives the exact condition).
* Eight attempts are documented to end in DEAD (`docs/07-runbook.md:58`). The
  dispatcher's exception path counts an attempt but never turns a row DEAD, so a row
  can reach any number of attempts (`OutboxLimits.AttemptsHaveNoBound`); the limit
  holds throughout a run exactly if no exception is committed at an eighth attempt
  (`OutboxLimits.LimitHoldsThroughoutIff`). Crashes are not counted. The same line
  speaks of roughly four hours; the schedule guarantees 182 minutes.
* An empty list or object is offered by a merged lead although it counts as a blank,
  so one key can be filled twice; the first non-blank value still wins.
* A merge does not carry the last contact over (`Merge.LastContactAfterMerge` says
  exactly when the rollup is right anyway).
* A merge is documented to take values in the order the caller gives, so that its outcome
  can be foreseen (`api/app/services/exporting.py:225-236`), but its query has no ORDER BY,
  so the order is the database's. `MergeOrder` says exactly when the merged values do not depend on it.
* Revoking all sessions is documented to happen on deactivation too
  (`api/app/services/auth.py:200-211`); the password change is its only caller.
  `AccountRuns.DeactivationSuspendsSessions` says what deactivation does to sessions.
* A rule that comes after a catch-all still makes matching fail when it does not
  parse or compile.

## Model

| member | source | states |
|---|---|---|
| FilterDsl.Walk | api/app/filters/dsl.py:231-241 | The loop returns the length of the list of all nodes of the subtree and the greatest depth that some node really reaches, no more and no less. |
| FilterDsl.ValidateShape | api/app/filters/dsl.py:244-254 | A tree is accepted exactly when it has at most 200 nodes and no node lies deeper than ten groups. |
| FilterDsl.FieldKeysIn | api/app/filters/dsl.py:257-271 | The collected keys are exactly those mentioned by some field rule anywhere in the tree. |
| LikePatterns.EscapeIsPerCharacter | api/app/filters/compiler.py:110-116 | The three ordered replacements put exactly one escape before each special character: no escape is itself escaped, none is missed. |
| LikePatterns.ContainsPattern | api/app/filters/compiler.py:297-312 | Under LIKE with escape backslash, the wrapped pattern matches a text exactly when the searched text occurs in it, for all texts. |
| LikePatterns.StartsWithPattern | api/app/filters/compiler.py:297-312 | The prefix pattern matches exactly the texts that begin with the searched text. |
| LikePatterns.EndsWithPattern | api/app/filters/compiler.py:297-312 | The suffix pattern matches exactly the texts that end with the searched text. |
| LikePatterns.ILikePatterns | api/app/filters/compiler.py:297-312 | All three patterns keep these meanings under ILIKE, up to the case fold. |
| FilterBuilders.BuildWindow | api/app/filters/compiler.py:363-389 | The bounds the code grows are TRUE of exactly the actions inside the window: from n times 24 hours ago on, or on whole local days with both ends included, or all. |
| FilterBuilders.BuildActionConditions | api/app/filters/compiler.py:391-426 | The conditions the code grows are TRUE of exactly the actions on the lead that answer the query in kind, type, actor, payload and window. |
| FilterBuilders.BuildTransition | api/app/filters/compiler.py:464-490 | The EXISTS the code builds is two-valued and says whether some action of that kind on the lead carries the asked old and new ids inside the window. |
| FilterProofs.AccessorReads | api/app/filters/compiler.py:228-249 | The accessor of a field, with its sub-key and cast, evaluates without error to the value its type reads from the stored document, NULL when there is none. |
| FilterProofs.BlankColumn | api/app/filters/compiler.py:206-221 | The emptiness test raises exactly on a tag slot that is present and no list, as cleared tags are; otherwise it is true or false, never unknown, and true exactly for blank fields. |
| FilterProofs.FieldRuleAgrees | api/app/filters/compiler.py:172-352 | Every accepted field rule, for every type, operator and operand, on every well-stored lead, cleared tags included, raises exactly if it asks for the emptiness of cleared tags, and otherwise is TRUE exactly when its two-valued meaning holds. |
| FilterProofs.RowsMean | api/app/filters/compiler.py:401-462 | Counting rows counts the actions that answer the query, and EXISTS asks whether there is at least one. |
| FilterProofs.TransitionPreserved | api/app/filters/compiler.py:464-510 | A transition predicate is true exactly when some action of that kind on the lead carries the asked old and new ids inside the window. |
| FilterProofs.MeaningPreserved | api/app/filters/compiler.py:142-510 | For every tree the compiler accepts, every well-stored lead and every log, the emitted SQL raises exactly if some rule of the tree asks for the emptiness of tags the lead has cleared, and otherwise is TRUE under three-valued logic exactly when the tree holds of the lead. |
| FilterProofs.AcceptedIffAcceptable | api/app/filters/compiler.py:162-274 | Compilation succeeds exactly when every field rule names a known, viewable field with a safe key, an operator of its type and operands that type can read. |
| FilterProofs.HiddenLooksAbsent | api/app/filters/compiler.py:172-182 | Fields the caller may not view compile as if they did not exist, down to the error reported. |
| FilterProofs.DependsOnMentionedOnly | api/app/filters/dsl.py:257-271 | The compiled predicate gives the same outcome on any two leads that agree on the mentioned keys, whatever and however malformed the rest is. |
| FilterSelections.CheckboxSelects | api/app/filters/compiler.py:264-316 | A checkbox holding b is selected by "equals x" exactly if b is x; an empty one never. |
| FilterSelections.CheckboxWords | api/app/filters/compiler.py:264-267 | The words for yes, and those for no, select like the flags. |
| FilterSelections.NumberSelects | api/app/filters/compiler.py:258-323 | A stored number, or the amount of a stored sum of money, is selected by each of the six comparisons exactly if it compares so with the asked number. |
| FilterSelections.NumberBetween | api/app/filters/compiler.py:286-288 | Between selects exactly the numbers from the lower to the upper end, both included. |
| FilterSelections.DaySelects | api/app/filters/compiler.py:260-323 | A stored day, or the next occurrence of a recurring one, is selected by each comparison exactly if it compares so with the asked day. |
| FilterSelections.DayBetween | api/app/filters/compiler.py:286-288 | Between selects exactly the days from the lower to the upper end, both included. |
| FilterSelections.DaysAroundToday | api/app/filters/compiler.py:290-295 | In the last and in the next n days select exactly the days from today minus n to today, and from today to today plus n. |
| FilterSelections.TextEquals | api/app/filters/compiler.py:314-317 | Equality on every text-like type, joined addresses included, is equality of the texts. |
| FilterSelections.TextMatching | api/app/filters/compiler.py:297-312 | Contains, not_contains, starts_with and ends_with select exactly the texts that, up to case, are the asked one with something before and after, and so on. |
| FilterSelections.TextIn | api/app/filters/compiler.py:282-284 | In and not_in select exactly the texts that are, or are not, among those asked. |
| FilterSelections.NothingSelects | api/app/filters/compiler.py:276-323 | An empty field is selected by not_equals and not_contains and by no other comparison. |
| FilterSelections.TagsSelect | api/app/filters/compiler.py:325-352 | has_any, has_all and not_in select exactly the leads that hold some, all, or none of the asked tags, cleared tags being none. |
| FilterErrors.TypesTaking | api/app/fields/operators.py:67-123 | Which field types take an operator, operator by operator. |
| FilterErrors.RuleErrors | api/app/filters/compiler.py:172-204 | Which error a refused rule gives: its first fault of field, operator and key, in this order, decides. |
| FilterErrors.KeysInSql | api/app/filters/compiler.py:64-64 | A key that reaches SQL text consists of 1 to 64 small letters, digits and underscores, and perhaps one final line break. |
| FilterLaws.OppositesPartition | api/app/filters/compiler.py:276-352 | equals and not_equals, contains and not_contains, is_empty and is_not_empty, and has_any and not_in on tags never select the same lead, and one of the two selects it, with the one exception of emptiness asked of cleared tags. |
| FilterLaws.HappenedPartition | api/app/filters/compiler.py:428-462 | Performed at least once and not performed split the leads. |
| FilterLaws.MembershipPartition | api/app/filters/compiler.py:276-296 | Scalar in and not_in split the leads exactly where the field holds a value. |
| FilterLaws.TagsEmptinessFault | api/app/filters/compiler.py:206-221 | The tags emptiness query raises exactly for leads whose slot is present and no list; a JSON null is enough. |
| FilterWindows.RelativeIsLocalDays | api/app/filters/compiler.py:376-379 | For any local day, the window of the last n days keeps exactly the rows from that day on if and only if n times 24 hours before now is that day's local midnight. |
| FilterWindows.WhereReadingsDiffer | api/app/filters/compiler.py:376-379 | A row on which the two readings differ is one between that instant and that midnight, and every such row is one. |
| FilterWindows.YesterdayMorningIsMissed | api/app/filters/dsl.py:68-76 | Counterexample: at noon on universal time, an action at eight the morning before is kept by the window since yesterday and not by the last day. |
| Outbox.BackoffSchedule | api/app/events/dispatcher.py:65-78 | The first seven delays add up to 182 minutes, and from the sixth on each is an hour. |
| Outbox.RecordIsRecorded | api/app/events/dispatcher.py:74-199 | What each outcome leaves of a row, with the codes, the attempt limit and the delays written out: 200 to 299 delivers, the eighth refusal kills, others wait 2, 4, 8, 16, 32 and then 60 minutes. |
| Outbox.ClaimableIff | api/app/events/dispatcher.py:202-236 | Some claim can take a row exactly if its time has come and it waits, or was claimed more than five minutes ago and never recorded. |
| Outbox.TakesAsManyAsItMay | api/app/events/dispatcher.py:202-236 | A claim takes the whole batch size, or all the due, unlocked rows there are. |
| Outbox.SpacedSpan | api/app/events/dispatcher.py:74-78 | Attempts spaced by the backoff span at least the sum of their delays. |
| Outbox.ClaimedInTurn | api/app/events/dispatcher.py:202-236 | A due row with fewer than a batch of rows ahead of it is taken by the next claim: earliest first starves nobody at the head. |
| Dispatcher.OutboxRow.DeliverOnce | api/app/events/dispatcher.py:146-199 | The row is delivered exactly if the answer is from 200 to 299; any other answer makes it dead from the eighth attempt on, and failed before, due after the delay; the other fields are written out, and the result says whether it was delivered. |
| Dispatcher.OutboxRow.Retry | api/app/routers/integrations.py:337-360 | A redrive is refused exactly for delivered rows, and otherwise makes the row pending with no attempts and no claim, due now; what was last answered stays. |
| Dispatcher.ClaimRows | api/app/events/dispatcher.py:202-236 | Every picked row becomes DELIVERING, stamped with the pass's clock. |
| Dispatcher.HandleRow | api/app/events/dispatcher.py:262-300 | One row of the pass records its outcome, on the normal, exception and missing-endpoint paths, and the totals stay a tally by final status. |
| Dispatcher.RunDispatch | api/app/events/dispatcher.py:239-308 | A whole pass leaves each row in exactly the state its own outcome leads to, and its totals count the rows by final status. |
| OutboxProtocol.RunKeeps | api/app/events/dispatcher.py:202-308 | In every run, disciplined or not, event ids never change, a DELIVERING row has a claim time no earlier than its due time, and a DELIVERED row's event was accepted. |
| OutboxProtocol.NothingIsLost | api/app/events/dispatcher.py:181-236 | From an empty start, whatever workers, crashes and operators do, every row is delivered, and then some send of it in the run was answered from 200 to 299, or dead, or due from a known instant on. |
| OutboxProtocol.RunOwned | api/app/events/dispatcher.py:202-308 | Every disciplined run keeps the ownership invariant: each worker's copies are the rows themselves, and counted attempts match the row and are spaced by the backoff. |
| OutboxProtocol.NoRowHeldTwice | api/app/events/dispatcher.py:202-236 | In every disciplined run from an empty start, no two live workers hold the same row. |
| OutboxFinality.DeliveredIsFinalIffReleased | api/app/events/dispatcher.py:181-236 | A delivered row stays as it is in every later run, with slow workers and any redrives, if and only if no live worker holds it, but for one whose outcome, already seen, would be recorded without changing the row; and then no run sends it again. |
| OutboxFinality.DeadMovesOnlyByRetryIffReleased | api/app/routers/integrations.py:337-360 | The same for a dead row in every later run without a redrive of it. |
| OutboxFinality.DeliveredIsFinal | api/app/events/dispatcher.py:181-236 | What a disciplined run from an empty start has delivered, no later run changes or sends again, whether that run is disciplined or not. |
| OutboxFinality.DeadLeavesOnlyByRetry | api/app/routers/integrations.py:337-360 | What a disciplined run from an empty start has declared dead, no later run without a redrive of it changes or sends, whether that run is disciplined or not. |
| OutboxDeaths.DeadAfterEightSpacedAttempts | api/app/events/dispatcher.py:181-199 | In every run from an empty start, with crashes, exceptions and workers past their claim timeout, but with safe redrives only, a row that a delivery turns DEAD has at least eight counted attempts since publish or redrive, and eight or more of them, up to the last, are spaced by the backoff and span at least 182 minutes. |
| OutboxDeaths.RetryKeepsDeathsEarnedIffSafe | api/app/routers/integrations.py:337-360 | After any such run, a redrive leaves that promise standing for every later such run if and only if every live worker that holds the row took it before any attempt was counted or has already seen it accepted or its endpoint gone. |
| OutboxDeaths.RetryInFlightShortensLife | api/app/routers/integrations.py:350-359 | Counterexample for every n: a run that meets all working assumptions, then a redrive of a row in flight with n attempts, then a run in which a delivery turns the row DEAD after fewer than eight counted attempts. |
| OutboxProtocol.DisciplinedDeath | api/app/events/dispatcher.py:181-199 | In a disciplined run all counted attempts of a row that a delivery turns DEAD, at least eight, are spaced by the backoff, the first and last at least 182 minutes apart. |
| OutboxLimits.PublishedCanBeDelivered | api/app/events/dispatcher.py:202-308 | What is published and due is delivered, under its event id and with one attempt, by one pass whose consumer accepts it. |
| OutboxLimits.CrashForgets | api/app/events/dispatcher.py:202-236 | A crash takes the worker and what it had seen, and leaves every row and every other worker as they are. |
| OutboxLimits.SharedIffTimeoutPassed | api/app/events/dispatcher.py:65-72 | Let the clock advance to any instant: another worker can then claim a row while its holder is alive, so that both hold it, if and only if that instant is past the holder's claim timeout. |
| OutboxLimits.RetrySharesIffHeld | api/app/routers/integrations.py:350-359 | After a redrive another worker can claim the row so that it and a given worker both hold it, if and only if that worker held it before. |
| OutboxProtocol.SlowWorkerSharesItsRow | api/app/events/dispatcher.py:65-72 | Counterexample run: a worker that outlives the claim timeout shares its row with the one that reclaims it. |
| OutboxProtocol.RetryInFlightOverwritesDelivery | api/app/routers/integrations.py:350-359 | Counterexample run: redriving a row in flight ends with a delivered row overwritten as failed. |
| OutboxLimits.LimitBreaksIffRaised | api/app/events/dispatcher.py:278-288 | One step of the protocol takes a row past eight attempts, or past seven while it may be sent again, if and only if it commits an exception at an eighth attempt. |
| OutboxLimits.AttemptsStayWithin | api/app/events/dispatcher.py:181-199 | Every run, disciplined or not, without such a commit keeps every row at eight attempts or fewer and every unsettled row at seven or fewer. |
| OutboxLimits.LimitHoldsThroughoutIff | api/app/events/dispatcher.py:181-288 | From an empty start, the limit holds at every point of a run if and only if the run has no such commit. |
| OutboxLimits.AttemptsHaveNoBound | api/app/events/dispatcher.py:278-288 | Counterexample for every n: a run that meets all working assumptions and leaves a row FAILED, due again, with n attempts. |
| Assignment.Collect | api/app/services/assignment.py:245-260 | Collecting fails exactly when some active rule does not parse or compile; otherwise it yields one column for each conditional rule and the first catch-all. |
| Assignment.Match | api/app/services/assignment.py:232-277 | When every active rule can be evaluated, the one query raises exactly if some rule asks for the emptiness of tags the lead has cleared, and otherwise matching equals sequential first match, rule by rule; when it fails earlier, some rule is at fault. |
| Assignment.PickedIsFirst | api/app/services/assignment.py:271-277 | Once the query has run without raising, choosing by matched ids and the first catch-all picks the first rule that wants the lead. |
| Assignment.FirstMatchIsLeast | api/app/services/assignment.py:182-193 | Over the table of rules the result is the least active rule, by priority and then id, that wants the lead; none is returned only if none wants it. |
| RoundRobin.BuildDeal | api/app/services/assignment.py:322-326 | The loop deals one block for each eligible listing in order, so that each member occurs as often as the clamped weights of its listings say. |
| RoundRobin.DealtAsDue | api/app/services/assignment.py:322-326 | Occurrences in the deal list equal the turns of an eligible member's listings, a weight standing for itself from 1 to 100 and for the nearer end outside; nobody else occurs. |
| RoundRobin.OneListing | api/app/services/assignment.py:322-326 | One eligible listing is dealt its weight, once for weights below 1 and 100 times for weights above 100; an ineligible one not at all. |
| RoundRobin.WeightsAreTurns | api/app/services/assignment.py:322-326 | For different eligible members with weights from 1 to 100, each is dealt exactly its weight and the list is as long as the weights add up to. |
| RoundRobin.DealsInOrder | api/app/services/assignment.py:322-326 | Earlier listings are dealt before later ones. |
| RoundRobin.Cursor.Next | api/app/services/assignment.py:353-359 | One pick steps the stored position once round the deal list and returns the member there. |
| RoundRobin.PicksAreCyclic | api/app/services/assignment.py:328-359 | For every interleaving of insert-if-absent, lock, pick, commit and rollback, the committed picks walk the deal list at consecutive cyclic positions from its head. |
| RoundRobin.FairShare | api/app/services/assignment.py:328-359 | Any n consecutive positions, from any start, give a member with w copies in a list of L between floor(n/L) times w and ceil(n/L) times w leads. |
| RoundRobin.ConcurrentFairness | api/app/services/assignment.py:328-359 | The same bounds for any n consecutive committed picks of any interleaving of transactions. |
| RoundRobin.WeightedShares | api/app/services/assignment.py:322-359 | Shares are in proportion to weights: of any n consecutive committed picks of any interleaving, each such member gets its weight once for each whole round and at most once more for the rest. |
| RoundRobin.OneTurn | api/app/services/assignment.py:328-359 | A transaction that locks, picks and commits takes the position after the committed one, the first one the head; one that rolls back takes none. |
| Assignment.Resolve | api/app/services/assignment.py:281-404 | The pick is an active, licensed member, working if the rule asks for it, that the rule lists, maps the lead's value to (or falls back to), or names; for rotating rules the next in the deal list; nobody is picked only if there is no such member, and then the cursor stays. |
| Assignment.Decide | api/app/services/assignment.py:406-430 | The decision follows the first matching rule, or fails exactly when the matching query raises; its reason says truthfully why, and only the deciding rule's cursor moves, and only when it picked. |
| Calendar.MonthTable | api/app/fields/registry.py:392-440 | The days before each month of a common and of a leap year. |
| Calendar.KnownDays | api/app/fields/registry.py:392-427 | The day numbers of some known dates around century leap days. |
| Calendar.OrdinalOrders | api/app/fields/registry.py:392-427 | Day numbers order dates as year, month and day do, on the leap-year calendar. |
| Calendar.YearLength | api/app/fields/registry.py:392-427 | Consecutive years' first day numbers differ by 366 exactly in leap years, and the months add up to it. |
| Calendar.NeighbouringOrdinals | api/app/fields/registry.py:429-440 | The day before and the day after have neighbouring day numbers. |
| Calendar.AddMonthsClamps | api/app/fields/registry.py:429-440 | Adding months lands on the latest date of the target month whose day is no later than the original's, and shortens only to a month's end. |
| Recurrence.PlusMonths | api/app/fields/registry.py:429-440 | Going by the day before the following month's first is the clamped month addition. |
| Recurrence.OccurrenceLies | api/app/fields/registry.py:392-440 | The k-th occurrence lies k intervals of days, weeks, months or years after the start, the day of the month kept where the month is long enough. |
| Recurrence.OccurrencesIncrease | api/app/fields/registry.py:392-427 | The occurrences of every frequency and interval strictly increase, clamping included. |
| Recurrence.NextOccurrence | api/app/fields/registry.py:392-427 | For all four frequencies the result is an occurrence on or after today and no later than any other such occurrence; the weekly loop never runs and the monthly and yearly loops at most once. |
| Recurrence.NextIsLeast | api/app/fields/registry.py:392-427 | Being the first in the sequence means being the least: exactly the earlier occurrences lie before today, and all others are no earlier than the result. |
| Recurrence.WeeklySteps | api/app/fields/registry.py:406-409 | Rounding to thousandths of a week gives the exact number of weekly steps. |
| RateLimit.AuthRateLimiter.IncrWithWindow | api/app/auth/rate_limit.py:127-138 | A hit within a window counts one more and leaves its end; one on a missing or expired key starts at one with a full window; the reported time is the remaining one to half a second; no other key changes. |
| RateLimit.AuthRateLimiter.Check | api/app/auth/rate_limit.py:111-125 | Every counter is incremented whether or not the attempt is refused; it is refused exactly when some budget is exceeded, with the longest wait among those. |
| RateLimit.AuthRateLimiter.CheckRefresh | api/app/auth/rate_limit.py:78-98 | A refresh is accepted exactly when both its token's and its address's counts are within budget; both are counted either way. |
| RateLimit.AuthRateLimiter.ResetLogin | api/app/auth/rate_limit.py:69-76 | Both login counters are forgotten and no other. |
| RateLimit.HitIsARun | api/app/auth/rate_limit.py:127-138 | The uninterrupted hit is one of the command interleavings the bounds are proved for. |
| RateLimit.WithinBudgetPerWindow | api/app/auth/rate_limit.py:78-138 | However increments and expiry commands of concurrent attempts interleave, one window of a counter accepts at most its limit. |
| RateLimit.WithinTwiceBudget | api/app/auth/rate_limit.py:78-138 | Any stretch of time as long as the window holds at most twice the limit of accepted attempts for a key. |
| Accounts.Services.Authenticate | api/app/services/auth.py:57-81 | Sign-in succeeds exactly for an active account's own password, inactivity is only revealed after a right password, and only a rehash changes the account. |
| Accounts.Services.RotateToken | api/app/services/auth.py:83-184 | A token is exchanged exactly if known, unrevoked, unexpired, of an active user with no membership or an active licensed one; then it alone is revoked and one token of its family added; a revoked one ends its family; every other refusal changes nothing and gives its reason. |
| Accounts.Services.LogoutToken | api/app/services/auth.py:186-219 | Logging out revokes every unrevoked token of the presented token's family and changes no other; an unknown token changes nothing. |
| Accounts.Services.ChangePassword | api/app/services/auth.py:221-225 | The password changes exactly when the current one verifies, and then every session of the user is revoked. |
| Accounts.Services.IssueReset | api/app/services/credentials.py:85-115 | Issuing a link uses up the user's unused ones and nobody else's, and adds one good for seven days (invitation) or an hour (reset). |
| Accounts.Services.RedeemReset | api/app/services/credentials.py:124-164 | A link is redeemed exactly when unused, unexpired and of an active user; then it is used, the password set and the sessions revoked. |
| Accounts.Services.Purge | api/app/services/credentials.py:166-178 | Exactly the rows expired for more than the grace period go, and the count says how many. |
| AccountRuns.AccountInvariants | api/app/services/auth.py:118-225 | Over every run each token family belongs to one user and has at most one unrevoked token, each user has at most one unused link, and no link is redeemed twice. |
| AccountRuns.RevocationIsPermanent | api/app/services/auth.py:139-225 | Once revoked a token's row never changes, and a family without live tokens never gets one again. |
| AccountRuns.ReplayEndsFamily | api/app/services/auth.py:139-184 | Presenting an already revoked token leaves its family without a live token in every later state. |
| AccountRuns.SignOutEndsFamily | api/app/services/auth.py:186-198 | Signing out with a known token leaves its family without a live token in that and every later state and touches no other family or table; with an unknown one it changes nothing. |
| AccountRuns.FreshTokenRotates | api/app/services/auth.py:118-184 | A token just issued can be exchanged until it expires; the new one is live and the old one not. |
| AccountRuns.FreshLinkRedeems | api/app/services/credentials.py:85-164 | A link just issued can be redeemed until it expires, which sets the password, uses it and ends the user's sessions. |
| AccountRuns.RotationHandsOver | api/app/services/auth.py:139-184 | A successful rotation leaves exactly the new token alive in its family. |
| AccountRuns.NewCredentialEndsSessions | api/app/services/credentials.py:124-164 | Redeeming a link or changing a password leaves the user no unrevoked refresh token, and the new password set; other users' tokens and accounts stay. |
| AccountRuns.DeactivationSuspendsSessions | api/app/services/auth.py:139-184 | Deactivating an account revokes nothing: its refresh tokens are refused as long as it, or every membership of it, is inactive, and after reactivation the tables are as before. |
| AccountRuns.PurgeIsSafe | api/app/services/credentials.py:166-178 | A purge removes exactly the links long expired, and none that could still be redeemed. |
| Timeline.Lead.RollUp | api/app/services/actions.py:154-162 | One action adds its score and moves the last contact to the later of the two instants; an action without score leaves even an absent score absent. |
| Timeline.ActionWriter.Append | api/app/services/actions.py:128-165 | The log grows by exactly this entry, the lead's rollups follow, and the queue grows by its announcement to each endpoint that wants it and by nothing else. |
| Timeline.ActionWriter.Publish | api/app/services/actions.py:167-221 | Each endpoint that subscribes to the action's event, or to everything, gets exactly one row with this event name and action, due from the moment it was performed, and no other endpoint any. |
| Timeline.ActionWriter.RecordFieldChanges | api/app/services/actions.py:226-236 | One logged change for each delta in order, carrying its key, old and new value, score untouched, and for each endpoint that wants them one queued announcement of each change, in order. |
| Timeline.ActionWriter.RecordCustom | api/app/services/actions.py:399-434 | A timestamp more than a minute old is refused exactly when the type forbids it, leaving everything unchanged; otherwise the entry is logged with its score snapshotted, both rollups follow, and it is announced. |
| Timeline.ActionWriter.RecomputeScore | api/app/services/actions.py:436-450 | The recomputed score is the sum of what the lead's actions scored. |
| Timeline.RecordAll | api/app/services/actions.py:128-221 | After any sequence of calls in a changeset every lead's score is what recomputing would give, its last contact is the latest of its start and all its actions, the log has one entry for each call in order, and each endpoint's new rows are, in order, the announcements of the new entries it subscribes to. |
| Timeline.KeepsUp | api/app/services/actions.py:179-221 | Two stretches of log entries announced one after the other are announced together: per endpoint, the same rows in the same order. |
| Timeline.OneName | api/app/services/actions.py:167-177 | Which kinds of action each event name stands for. |
| TimelineFilters.ReassignmentIsFound | api/app/filters/compiler.py:502-510 | A logged reassignment is selected by exactly the "assignee changed" filters that name its old assignee, its new one, both or neither. |
| MergeValues.FillsBlanksOnly | api/app/services/exporting.py:263-263 | Null and the empty text, list and object give way to an offer, no other value does; null and the empty text are no offer. |
| MergeValues.FillFrom | api/app/services/exporting.py:262-273 | Taking in one lead's values, in whatever order its keys come, keeps the merged values and the change log what the fold over the sources says. |
| MergeValues.UndoRestores | api/app/services/exporting.py:259-273 | Undoing the logged changes in reverse shows the original values again. |
| MergeValues.FirstNonBlankWins | api/app/services/exporting.py:261-273 | A value the primary had stays; a blank gets the first non-blank value in order, if any record has one. |
| MergeValues.LastBlankOffer | api/app/services/exporting.py:262-273 | With only blanks around, a field changes only to the last empty list or object offered. |
| MergeValues.RedoKeys | api/app/services/exporting.py:259-273 | The merged lead has the primary's keys and the filled ones, no others. |
| MergeValues.MergePromises | api/app/services/exporting.py:259-273 | The change log leads from the old values to the merged ones and back, never touches data the primary had, and each blank is filled by the first record that has something. |
| Merge.ScoreMoves | api/app/services/exporting.py:276-288 | Moving a lead's actions adds their score to the new owner's sum, leaves none behind and changes no other lead's. |
| Merge.Workspace.TakeOver | api/app/services/exporting.py:276-288 | Index by index, the merged lead's actions, tasks and labels become the primary's and all others stay; it is soft-deleted, its score is added, and scores of live leads still add up. |
| Merge.Workspace.Merge | api/app/services/exporting.py:225-304 | Which merges are refused and why, leaving everything unchanged; what a merge does to values, score, log and the merged leads; that index by index their actions, tasks and labels become the primary's and all others stay; that the primary stays live, the queue grows by the announcements of the filled fields only, and no other lead changes; when the last contact it leaves is right; if every live lead's score equalled its actions' sum before, it does after. |
| Merge.LastContactAfterMerge | api/app/services/exporting.py:276-292 | Whatever value the primary's last contact started from, after a merge it is the latest of that and the joined history exactly when no moved action is later than what it shows. |
| Merge.LastContactIsLost | api/app/services/exporting.py:276-292 | Counterexample: one action on a merged lead goes unseen by the primary's last contact. |
| MergeOrder.OrderMattersUnlessFree | api/app/services/exporting.py:244-273 | A field of the merged lead is the same for every order of the merged records if and only if the primary has its own value or the records that have something agree on it (or, when none has, those that offer an empty list or object do). |
| MergeOrder.MergedInAnyOrderIff | api/app/services/exporting.py:244-273 | All merged values are the same for every order of the records if and only if that holds of each key. |
| LeadOwnership.QueryMeansOpen | api/app/services/lead_ownership.py:86-108 | The query under three-valued logic selects exactly the member's undeleted leads not in a won or lost stage, stageless ones included. |
| LeadOwnership.NullTestIsNeeded | api/app/services/lead_ownership.py:93-97 | Without the null test the query selects an open lead exactly if it has a stage or there is no closed stage. |
| LeadOwnership.PipelineMoves | api/app/services/lead_ownership.py:132-169 | Handing over empties the one member's pipeline into the other's, raises its size by the number moved, and touches no third member's. |
| LeadOwnership.HandoverIsLogged | api/app/services/lead_ownership.py:159-169 | The batch's log entries lead from the old assignees to the new ones, and replayed backwards restore every assignee. |
| LeadOwnership.ReassignOpenLeads | api/app/services/lead_ownership.py:132-169 | The loop moves exactly the open leads, returns their number, changes no other lead, logs a batch that can be undone, announces each of its entries, writes nothing when there is none, and keeps scores adding up. |
| Slugs.SlugIsWords | api/app/fields/values.py:237-239 | The slug of a text is its runs of letters and digits, lower-cased and joined by single underscores. |
| Slugs.WordsAreLetters | api/app/fields/values.py:237-239 | The words hold all the small letters and digits of the text, in order, and nothing else. |
| Slugs.BaseIsWords | api/app/fields/values.py:237-240 | The base is the joined words, cut after 56 characters, or "field" when there are none. |
| Slugs.DecimalReads | api/app/fields/values.py:245-247 | The suffix written is the number tried, without leading zero. |
| Slugs.AllTakenIsMany | api/app/fields/values.py:242-248 | Pigeonhole: keys that hold the base and the suffixes 2 to n number at least n. |
| Slugs.SlugifyKey | api/app/fields/values.py:227-249 | The key always has the shape the filter compiler accepts, is the first free candidate, and is taken only if at least 999 keys are. |
| Slugs.BaseShape | api/app/fields/values.py:237-240 | Every label, even an empty one, gives a base of 1 to 56 safe characters. |

## Left out

- Recurrence.NextOccurrence: dates are unbounded (no year 9999 ceiling), and the weekly float quotient is an exact integer one; the shortcut for a bare date, which may lie in the past, is not modelled.
- Outbox.ClaimedInTurn: speaks of one pass; that passes keep happening is the deployment's matter.
- RoundRobin.ConcurrentFairness: for one length of the deal list; when members come and go the position carries over and no share is promised.
- Timeline.ActionWriter.Append: the single-entry recorders (notes, calls, messages, tasks, ratings, imports, stage changes) are one call of it each and are not repeated; of a queued event's data the action's own part is modelled, not the lead's values, stage and assignee nor the actor.
- Merge.Workspace.Merge: the search vector, the field labels in the log and the summary text are left out, and label sets of merged leads are taken to be disjoint.
- LeadOwnership.ReassignOpenLeads: the order by creation time is an input, as no result depends on it.
- Slugs.SlugifyKey: Unicode decomposition is an input; the text modelled is the ASCII one after it.
- FilterBuilders.BuildWindow: instants beyond the range of datetime, and day counts that overflow a date, are not modelled.
- `_json_path` and the rendering of SQL text: expressions are trees here.
- `search_clause`: library semantics of text search.
- HTTP, signing, projection and metrics of the dispatcher; the width of the attempts column; the text of the last error.
- Decimal NaN and infinities as filter operands.
- `api/app/events/outbox.py`: the same fan-out as `Timeline.ActionWriter.Publish`, with the endpoints queried at the call.
- `validate` and the normalisers in `api/app/fields/`: one branch each.
- The `record_custom` refusal of future timestamps: unreachable in the code.
- `duplicates` and `_flatten` in `api/app/services/exporting.py`: read-only helpers.
- Concurrent rotations of one token without a row lock: `rotate` is one atomic step here.
