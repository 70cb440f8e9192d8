# Verified model of the accounting engine

A Dafny 4.11 model of the deterministic accounting engine of a multi-tenant bookkeeping service and
of the stateful services around it, with proofs of what the engine promises. `dafny verify
dfyconfig.toml` checks the whole project.

Stored money is an integer count of 1/10000 units, the scale of the `Numeric(20,4)` columns. Tables are
sequences of rows, a row's id is its position, and everything belongs to one tenant. A request runs in one
transaction: an error leaves the stored state as it was.

Each service is a class whose methods are proved against a specification function on values; what the
service promises is then proved of that function, over every input or every run.

| module | what it models |
|---|---|
| `Accounts`, `Ledger`, `LedgerRuns`, `PostingFacts` | the chart of accounts, posting, reversing, every reachable book; what is accepted and written, field by field |
| `Statements`, `StatementProofs`, `StatementFacts` | trial balance, profit and loss, balance sheet, change in cash |
| `Rules`, `Presentation`, `PresentationProofs`, `PresentationSections` | prefix rules, sections and the rows they hold, subtotals, variances |
| `CashFlow`, `CashFlowProofs`, `CashFlowOrder`, `CashFlowSections` | the proportional operating, investing and financing split, in any rounding arithmetic and any order of rows |
| `Coa`, `Rollup`, `ChartRuns` | building a client's chart from templates; drill-down by path against roll-up by pointers; every reachable chart |
| `Wildcards` | what drill-down shows when codes contain wildcards |
| `Reports`, `ReportProofs`, `Sums` | general ledger and aging; sums over unordered rows |
| `NarrativeText`, `NarrativeTextProofs`, `NarrativeScan` | printing money and percents, and scanning them back out of prose |
| `Narrative`, `NarrativeSafety`, `NarrativeFacts` | the narrative template, its allowed numbers, and the guarantee that it passes its own check |
| `NarrativeCaptions` | the template read back, caption by caption |
| `TaxWorksheet`, `TaxWorksheetProofs` | the fold of account activity onto form lines |
| `IrsForm`, `IrsFormProofs`, `IrsFormFields` | whole-dollar lines of Forms 1120, 1120-S, 1065 and Schedule C, and their fields |
| `TaxLifecycle`, `Artifacts`, `FormTemplates` | review lifecycles, the supersession chain, template activation |
| `Promotion`, `PromotionProofs`, `PromotionFacts` | from drafts and bank statements to journal entries |
| `ExampleBook`, `Counterexamples` | a small reachable book, and where the code falls short of its documentation on it |
| `Consumer` | the Redis-streams worker protocol |
| `RateLimit` | the token bucket |

## Where the code and its documentation differ

The model follows the code. Each point is a theorem or a concrete counterexample below.

- Posting calls its re-aggregation check impossible to fail. A balanced input with a fifth decimal fails it
  (`LedgerRuns.EntryOutcome`, `LedgerRuns.BalancedInputRefused`).
- A reversal leaves the original reversed and the mirror posted, and reports count posted entries only, so a
  balance moves by minus twice the entry (`StatementProofs.ReversalEffect`). The tax worksheet counts every
  entry, so there a reversal does cancel (`TaxWorksheetProofs.ReversalCancelsActivity`).
- Cash-flow shares are documented to take the sign opposite to the cash side. They take its own sign, and with
  it the sections add up to the change in cash (`CashFlowProofs.ExactSectionsTie`).
- The narrative template is said to pass its check always. A percent from 1900 to 2099 loses its whole part
  and can fail it (`NarrativeSafety.TemplateSafeExactly`, `Counterexamples.YearLikePercentCanFail`).
- Drill-down puts the path unescaped into a pattern. A wildcard can mix branches and the escape character can
  hide one (`Wildcards.WildcardCodesMixBranches`, `Wildcards.EscapedCodeHidesBranch`). Without the escape
  character it agrees with the parent pointers exactly when the path matches no parent account of another branch
  (`Wildcards.WildcardsAgreeExactly`; `Wildcards.DrillAgreesExactly` covers every code).
- Worksheet activity is described as posted entries of the period. The tests stand in the condition of an
  outer join and drop nothing (`TaxWorksheetProofs.TaxableAgainstNetIncome`,
  `Counterexamples.WorksheetMissesNetIncome`).
- The worksheet adds line 1b and Form 1120-S subtracts it, hence twice line 1b in
  `IrsFormProofs.WithinNineDollars`.
- Approving a mapping is said to supersede any earlier one. The unique key on the status lets that happen
  once for an account and form (`TaxLifecycle.ApproveOutcome`, `TaxLifecycle.ThirdApprovalFails`).
- Statement promotion is said to prefer partial success. A row whose code is a header account is not
  skipped: it fails the whole statement (`PromotionProofs.StatementOutcome`,
  `Counterexamples.OneHeaderRowFailsStatement`).
- The consumer group starts at the end of the stream, so jobs enqueued before the first worker are never
  delivered, and a message pending with a crashed worker is never claimed. Every other job finishes
  (`Consumer.FinishedExactly`, `Consumer.EarlyJobIsLost`, `Consumer.CrashedJobIsLost`).

## Model

| member | source | states |
|---|---|---|
| `Ledger.LedgerService.ValidateLines` | app/domain/ledger.py:66-93 | accepts exactly the inputs with at least two one-sided non-negative lines whose debits equal their credits and are not zero, and then returns the total; every other input is Unbalanced |
| `Ledger.LedgerService.Post` | app/domain/ledger.py:106-205 | the whole session afterwards and the entry id or error, for every input: validation, missing period, lock and date range, missing, inactive or header accounts, then the write; on the late errors the header or the lines are already there |
| `Ledger.LedgerService.WriteEntry` | app/domain/ledger.py:161-205 | lines are stored at four decimals; column overflow, the one-side constraint, and the re-aggregation against the unrounded total decide in that order |
| `Ledger.LedgerService.Reverse` | app/domain/ledger.py:225-265 | posts the mirror of a posted entry in the period and on the date of the original and marks only the original reversed; any other status is refused before anything is written |
| `Ledger.LedgerService.PostInTransaction` | app/db/session.py:80-102 | an error of posting leaves accounts, periods and entries exactly as they were |
| `Ledger.LedgerService.ReverseInTransaction` | app/db/session.py:80-102 | an error of reversing leaves accounts, periods and entries exactly as they were |
| `LedgerRuns.RunOk` | app/domain/ledger.py:119-159 | in every book reachable by account creation, locking, posting and reversing, every entry is dated inside its period, has one-sided stored lines on active leaf accounts, and balances |
| `LedgerRuns.CommittedEntryIsExact` | app/domain/ledger.py:175-205 | a committed entry has stored debits equal to stored credits equal to the unrounded total, line by line on the submitted accounts and sides |
| `LedgerRuns.FourDecimalsNeverRefusedLate` | app/domain/ledger.py:191-205 | input in four decimals that passes validation is never refused after rows were written, except for column overflow |
| `LedgerRuns.EntryOutcome` | app/domain/ledger.py:175-205 | the exact fate of any validated input on postable accounts: committed if and only if the columns fit, no line is stored as zero, and the rounding errors of each side cancel; otherwise which of the three errors |
| `LedgerRuns.TwoLineOutcome` | app/domain/ledger.py:191-205 | the exact fate of a two-line entry of one amount: it trips the re-aggregation exactly when the amount has a fifth decimal, and the one-side constraint exactly below half of the last place |
| `LedgerRuns.BalancedInputRefused` | app/domain/ledger.py:191-205 | a concrete input that balances before rounding and is refused after it |
| `LedgerRuns.ReverseOutcome` | app/domain/ledger.py:225-265 | in a reachable book reversal succeeds if and only if the entry is posted and its period unlocked, and then appends the side-swapped entry and marks the original |
| `LedgerRuns.ReverseChainOutcome` | app/domain/ledger.py:225-265 | after k reversals down the chain exactly the last member is posted and every earlier one is reversed |
| `LedgerRuns.ReversedForGood` | app/domain/ledger.py:232-235 | an entry that was reversed is never changed or reversed again in any later book |
| `PostingFacts.ValidatorAccepts` | app/domain/ledger.py:66-93 | at least two lines, each with one positive side and nothing on the other, whose debits equal their credits: exactly these pass validation |
| `PostingFacts.MissingPeriodRefused` | app/domain/ledger.py:119-126 | invalid lines are refused before a missing period, and nothing is written |
| `PostingFacts.ClosedPeriodRefused` | app/domain/ledger.py:130-136 | a locked period or a date outside it refuses every valid entry and writes nothing |
| `PostingFacts.ClosedAccountRefused` | app/domain/ledger.py:138-159 | one missing, inactive or header account refuses a valid entry in an open period and writes nothing |
| `PostingFacts.PostedFields` | app/domain/ledger.py:130-205 | a successful posting went to an unlocked period that contains the date and to active leaf accounts, and appended one posted entry with the submitted accounts and amounts to four decimals; nothing else changed |
| `PostingFacts.LinesOnOpenLeaves` | app/domain/ledger.py:151-159 | in every reachable book every line stands on an active leaf account of the table, with one positive side |
| `PostingFacts.EntriesBalance` | app/domain/ledger.py:175-205 | every entry of a reachable book has equal positive debits and credits and lies in its period |
| `PostingFacts.ReverseRefusals` | app/domain/ledger.py:225-250 | what is missing, not posted, or in a locked period is not reversed, and nothing changes |
| `PostingFacts.ReversedFields` | app/domain/ledger.py:225-265 | a reversal appends the entry with its sides exchanged, on the same accounts, period and date, marks the original, and touches nothing else |
| `Statements.GroupedTotals` | app/domain/statements.py:108-131 | one pass over lines and entries computes the grouped debit and credit totals |
| `Statements.GroupedTurnover` | app/domain/statements.py:108-131 | the group of an account holds its turnover, summed independently entry by entry |
| `Statements.BalancesFor` | app/domain/statements.py:151-175 | a row, with signed balance, for every account of a wanted type and no other |
| `StatementProofs.TrialBalanceTies` | app/domain/statements.py:186-204 | in every sound book, so in every reachable one, and for every cutoff total debits equal total credits |
| `StatementProofs.BalanceSheetNeverRaises` | app/domain/statements.py:229-265 | in every sound book and for every date assets equal liabilities plus equity plus retained earnings, so the assertion is never raised |
| `StatementProofs.CashFlowTies` | app/domain/statements.py:305-338 | the change-in-cash assertion holds if and only if the range is not inverted or cash did not move on the days in between |
| `StatementProofs.CashFlowNeverRaises` | app/api/routes/clients.py:261-265 | a period is never inverted, so over the periods of a sound book the change-in-cash assertion is never raised |
| `StatementProofs.ReversalEffect` | app/domain/ledger.py:225-265 | one reversal moves the posted balance of any set of accounts in any window by minus twice the contribution of the entry |
| `StatementProofs.ReversalChainEffect` | app/domain/ledger.py:225-265 | down a chain of k reversals the posted contribution becomes (-1)^k times the original |
| `StatementFacts.RowFields` | app/domain/statements.py:145-175 | every row is the balance of an account of a wanted type: debits less credits for assets and expenses, credits less debits for the others |
| `StatementFacts.ProfitAndLossFields` | app/domain/statements.py:207-227 | income is what was credited to revenue accounts in the period, net, less what was debited to expense accounts |
| `StatementFacts.BalanceSheetFields` | app/domain/statements.py:229-265 | assets are the debits of asset accounts up to the date, liabilities and equity the credits of theirs, and the income so far is retained |
| `StatementFacts.CashFlowFields` | app/domain/statements.py:279-349 | cash is the asset accounts among the codes, refused if there are none; opening and closing are what they hold before the first and at the end of the last day |
| `StatementFacts.PresentedChecks` | app/domain/presentation.py:628-660 | the classified statement is refused exactly when its sections miss the change in cash by more than 0.0001, and is empty when nothing touched cash |
| `CashFlow.ClassifyEntry` | app/domain/presentation.py:590-620 | the loop over the lines of one entry: entries without net cash or without other lines change nothing, every other line gets its share, in the bucket of its account |
| `CashFlow.ClassifyEntries` | app/domain/presentation.py:585-620 | the fold over all posted entries of the period that touch cash |
| `CashFlow.PresentCashFlow` | app/domain/presentation.py:510-670 | sections, subtotals, net change and the 0.0001 check, in any rounding arithmetic |
| `CashFlowProofs.GrossIsPositive` | app/domain/presentation.py:607-611 | the zero-denominator branch is unreachable on entries of a reachable book |
| `CashFlowProofs.ClassificationGap` | app/domain/presentation.py:585-647 | classified net and ledger change differ by at most 2n + 2 steps of three roundings for n sharing lines |
| `CashFlowProofs.ExactSectionsTie` | app/domain/presentation.py:510-647 | in exact arithmetic operating, investing and financing add up to closing minus opening cash for every sound book, cash selection and rule set |
| `CashFlowProofs.RoundedSectionsTie` | app/domain/presentation.py:633-647 | an explicit size below which the 0.0001 check cannot be raised, for any relative rounding error |
| `CashFlowProofs.DecimalSectionsTie` | app/domain/presentation.py:633-647 | with 28-digit decimals the check cannot be raised up to a million lines and 10^15 units of gross cash |
| `CashFlowOrder.RoundedSectionsTieInAnyOrder` | app/domain/presentation.py:536-583 | the query has no order: the bound holds however entries and their lines are ordered |
| `CashFlowSections.CodesCompareAsWords` | app/domain/presentation.py:488-506 | code comparison is the dictionary order: the first difference decides and a prefix comes first |
| `CashFlowSections.SectionsByKind` | app/domain/presentation.py:488-647 | in any rounding, investing shows only asset accounts above both asset bounds, financing only equity and liability accounts above both bounds, operating only the rest, and every line beside cash is shown in its section |
| `CashFlowSections.SectionTotalsByKind` | app/domain/presentation.py:585-647 | in exact arithmetic each section total is the sum of the shares of the accounts of its kind |
| `Coa.PlaceGeneral` | app/domain/coa_templates.py:260-309 | the breadth-first pass inserts exactly the general nodes that hang off a root, each after its parent, with its pointer, path, depth and leaf flag, or fails on a code the client already has |
| `Coa.OverlayPass` | app/domain/coa_templates.py:320-363 | one pass over the pending overlay nodes inserts those whose parent is placed or unknown and defers the others |
| `Coa.PlaceOverlay` | app/domain/coa_templates.py:315-370 | the repeated passes end with every overlay node inserted once after its parent, or with an error and its cause; the safety counter never ends the loop |
| `Coa.PlaceTemplates` | app/domain/coa_templates.py:260-370 | both passes succeed if and only if no code collides and every overlay parent chain leaves the overlay, and then the old rows are followed by exactly one row for each node |
| `Coa.InstantiateForClient` | app/domain/coa_templates.py:178-395 | the gates in order: scope, active general template, overlay unless the industry is generic, no template rows yet; then both passes |
| `Coa.UnresolvedIsCycle` | app/domain/coa_templates.py:364-369 | an overlay node cannot be resolved if and only if its parent chain runs into a cycle of overlay codes |
| `Coa.InstallsExactly` | app/domain/coa_templates.py:315-370 | the passes go through if and only if no code is taken and no overlay codes form a cycle |
| `Coa.PlantedIsChart` | app/domain/coa_templates.py:260-309 | a template that lists parents first always installs into an empty chart, and what writing its nodes in order gives is such a chart |
| `Coa.PlacedFields` | app/domain/coa_templates.py:262-363 | the row of a placed node: its code, name and type, active, a leaf when no template node names it, one step below its placed parent, and at the top when the parent code is missing or empty |
| `Coa.GateOrder` | app/domain/coa_templates.py:200-255 | firm scope, a general template, an overlay unless the industry is generic, and no template rows yet: exactly then the passes start, else the first that fails |
| `Rollup.ChartIsTree` | app/domain/coa_templates.py:276-363 | in an instantiated chart parent pointers go back to branch rows and path and depth extend those of the parent |
| `Rollup.LeafFlagExact` | app/domain/coa_templates.py:271-284 | a new row is flagged a leaf if and only if no row of the chart points to it |
| `Rollup.FlatKeepsTree` | app/models/accounting.py:900-912 | flat custom rows added later keep the chart a tree |
| `Rollup.LikePrefix` | app/domain/reports.py:503-511 | matching a literal prefix followed by a percent sign selects exactly the strings that start with it |
| `Rollup.PathIsPointers` | app/domain/reports.py:503-511 | a path starts with the path of another account and a separator if and only if that account is an ancestor by pointers |
| `Rollup.DrillLeavesAreTreeLeaves` | app/domain/reports.py:500-513 | drill-down into an account without a wildcard in its path selects exactly the leaves reachable by parent pointers |
| `Wildcards.DrillShowsMatches` | app/domain/reports.py:500-513 | whatever the codes, drill-down shows exactly the leaves below the accounts whose path matches the path as a pattern |
| `Wildcards.DrillAgreesExactly` | app/domain/reports.py:500-513 | whatever the codes, path and pointers select the same leaves if and only if every parent account the path matches lies in its branch and every leaf of the branch lies below one |
| `Wildcards.WildcardsAgreeExactly` | app/domain/reports.py:500-513 | without the escape character a branch always shows its own leaves, and only those if and only if its path matches no parent account of another branch |
| `Wildcards.WildcardCodesMixBranches` | app/domain/reports.py:503-511 | templates that install and whose chart makes drill-down show the leaf of another branch |
| `Wildcards.EscapedCodeHidesBranch` | app/domain/reports.py:503-511 | templates that install and whose chart makes drill-down into a branch show nothing |
| `Rollup.AccountActivity` | app/domain/reports.py:478-613 | an unknown account, or the leaves, the posted lines of the window on them with their account, and the debit, credit and signed totals |
| `Rollup.DrillShowsExactly` | app/domain/reports.py:478-600 | a line is listed exactly when it is one of a counted entry of the window on one of the leaves, with its entry, day, account and amounts |
| `Rollup.DrillLinesAddUp` | app/domain/reports.py:564-600 | the listed lines add up to the totals shown |
| `Rollup.NodeIsLeafSum` | app/domain/reports.py:659-694 | every roll-up figure is the sum over the leaves at or below the account |
| `Rollup.DrillDownMatchesRollup` | app/domain/reports.py:564-613 | drill-down and roll-up, computed by different routes, agree in debit, credit and signed total for every account without a wildcard in its path |
| `Rollup.RootsAreTrialBalance` | app/domain/reports.py:696-700 | the roots together carry the trial-balance totals, because only leaves are posted to |
| `ChartRuns.ReachableChart` | app/domain/coa_templates.py:178-395 | in every run of accounts added by hand, one instantiation, and ledger operations, the chart is a tree and every parent account has a child |
| `ChartRuns.ReportsAgree` | app/domain/reports.py:500-700 | so in every such run drill-down meets roll-up and the roots carry the trial balance |
| `Presentation.SplitPl` | app/domain/presentation.py:190-214 | the five-way split of the profit and loss rows |
| `Presentation.PresentSection` | app/domain/presentation.py:217-240 | lines with their variances, the subtotal and the prior subtotal of a section, in any rounding arithmetic |
| `PresentationProofs.PlSplitKeepsNetIncome` | app/domain/presentation.py:190-308 | whatever the prefix rules, the presented net income is the one of the engine |
| `PresentationProofs.BsSplitKeepsTotals` | app/domain/presentation.py:353-425 | whatever the prefix rules, the presented balance sheet has the totals of the engine and is never refused in a sound book |
| `PresentationProofs.SectionPriorsRecombine` | app/domain/presentation.py:243-308 | when both periods list the same accounts, the section priors recombine to the headline priors |
| `PresentationProofs.ComparativesRecombine` | app/domain/presentation.py:243-308 | for any two periods of a sound book the section priors recombine to the net income of the earlier one |
| `PresentationSections.PlSections` | app/domain/presentation.py:172-275 | each of the five sections holds exactly the rows of its codes, in order, and the headlines are differences of the printed subtotals |
| `PresentationSections.BsSections` | app/domain/presentation.py:316-425 | current and non-current assets, current and long-term liabilities hold exactly the rows of their codes, and the totals are those of the printed lines |
| `PresentationSections.PlAgainst` | app/domain/presentation.py:217-290 | every profit and loss line stands against the prior amount of its code, and every subtotal against the sum of these |
| `PresentationSections.BsAgainst` | app/domain/presentation.py:353-425 | the same for the balance sheet, with total assets and retained earnings against those of the prior sheet |
| `PresentationSections.VarianceFields` | app/domain/presentation.py:118-132 | the change is current less prior, there is a percent unless the prior is zero, and its sign is that of the ratio |
| `PresentationSections.ExactPercent` | app/domain/presentation.py:126-132 | in exact arithmetic the percent is the nearest hundredth |
| `StatementFacts.NearestEven` | app/domain/presentation.py:131-131 | quantizing takes the nearest integer, and of two the even one |
| `NarrativeText.FindIter` | app/domain/narrative.py:230-241 | the loop over matches yields the leftmost matches in order without overlap |
| `NarrativeText.ExtractNumbers` | app/domain/narrative.py:218-253 | dates go first, then bare years, then percents are read and blanked, then money is read; every value at two decimals |
| `NarrativeTextProofs.IsoIsThePattern` | app/domain/narrative.py:210 | the date pattern matches in at most one way, and exactly where the scanner says |
| `NarrativeTextProofs.PctIsThePattern` | app/domain/narrative.py:206-208 | however the regular expression backtracks, a percent matches in one way only, the one the scanner takes |
| `NarrativeTextProofs.PctOnlyThePattern` | app/domain/narrative.py:206-208 | every percent the scanner takes is a match of the regular expression |
| `NarrativeTextProofs.CleanGroup` | app/domain/narrative.py:226 | comma groups never form a year |
| `NarrativeTextProofs.CleanPct` | app/domain/narrative.py:226 | cleaning takes the whole part of a percent exactly when it is 1900 to 2099 |
| `NarrativeScan.ScanIsExact` | app/domain/narrative.py:218-253 | scanning a neutral text of words, printed money and printed percents finds exactly its figures, for any currency |
| `NarrativeScan.MoneyScansBack` | app/domain/narrative.py:296-301 | printing an amount and scanning it is the identity |
| `NarrativeScan.PctScansBack` | app/domain/narrative.py:304-307 | printing a percent and scanning it is the identity if and only if its whole part is not a year from 1900 to 2099 |
| `Narrative.BuildAllowedNumbers` | app/domain/narrative.py:108-185 | collects the cents of every amount, subtotal and variance of the statements |
| `Narrative.VerifyNarrativeSafety` | app/domain/narrative.py:268-290 | the foreign tokens in order, and ok if and only if every token is allowed |
| `Narrative.LargestAt` | app/domain/narrative.py:94-102 | no line is larger, and every earlier line is smaller |
| `Narrative.TemplateNarrative` | app/domain/narrative.py:310-415 | prints the template lines in order, each followed by a newline |
| `Narrative.GenerateNarrative` | app/domain/narrative.py:454-487 | returns only safe text: the candidate if it is safe, else the template with the report on the candidate, else the self-check failure |
| `NarrativeFacts.AllowedExactly` | app/domain/narrative.py:108-185 | a number is allowed if and only if it is, in cents, a line amount, subtotal, headline or comparative figure of one of the statements |
| `NarrativeFacts.MayMention` | app/domain/narrative.py:278-282 | zero, an allowed number or its magnitude may be mentioned, and nothing else |
| `NarrativeFacts.ForeignIs` | app/domain/narrative.py:284-290 | each figure that may not be mentioned is reported as often as it occurs, and no other |
| `NarrativeFacts.BracketsNegate` | app/domain/narrative.py:189-199 | an amount in accounting brackets scans as the negative amount |
| `NarrativeFacts.YearIsThePattern` | app/domain/narrative.py:211-211 | a bare year is 19 or 20 and two digits, with no letter, digit or underscore after it |
| `NarrativeFacts.ReadToTheCent` | app/domain/narrative.py:214-215 | any decimal is read to the nearest cent, a half to the even one |
| `NarrativeSafety.ReportSafety` | app/domain/narrative.py:268-290 | a neutral report over allowed figures is safe if and only if no year-like percent reads as a foreign number |
| `NarrativeSafety.TemplateSafeExactly` | app/domain/narrative.py:310-415 | the template passes its own check if and only if neither printed percent is a year-like one whose decimals, read as whole percents, are not allowed |
| `NarrativeSafety.TemplateAlwaysSafe` | app/domain/narrative.py:480-486 | without a percent from 1900 to 2099 the self-check failure cannot be raised |
| `NarrativeCaptions.RevenueReadBack` | app/domain/narrative.py:334-343 | what a scan finds on the lines that begin with "- Revenue" is revenue, with prior and percent when there is a comparative |
| `NarrativeCaptions.CogsReadBack` | app/domain/narrative.py:344-347 | what a scan finds on the lines that begin with "- Cost of goods sold" is cost of goods sold, and is absent without such lines |
| `NarrativeCaptions.GrossProfitReadBack` | app/domain/narrative.py:344-349 | what a scan finds on the lines that begin with "- Gross profit" is gross profit, and is absent without cost of goods sold |
| `NarrativeCaptions.OperatingExpensesReadBack` | app/domain/narrative.py:350-352 | what a scan finds on the lines that begin with "- Operating expenses" is operating expenses |
| `NarrativeCaptions.OperatingIncomeReadBack` | app/domain/narrative.py:353-355 | what a scan finds on the lines that begin with "- Operating income" is operating income |
| `NarrativeCaptions.OtherIncomeReadBack` | app/domain/narrative.py:356-359 | what a scan finds on the lines that begin with "- Other income" is other income, and is absent without such lines |
| `NarrativeCaptions.OtherExpensesReadBack` | app/domain/narrative.py:360-363 | what a scan finds on the lines that begin with "- Other expenses" is other expenses, and is absent without such lines |
| `NarrativeCaptions.NetIncomeReadBack` | app/domain/narrative.py:364-371 | what a scan finds on the lines that begin with "- **Net income" is net income, with prior and percent when there is a comparative |
| `NarrativeCaptions.AssetsReadBack` | app/domain/narrative.py:380-383 | what a scan finds on the lines that begin with "- Total assets" is total assets of the balance sheet, and is absent without one |
| `NarrativeCaptions.LiabilitiesReadBack` | app/domain/narrative.py:380-386 | what a scan finds on the lines that begin with "- Total liabilities" is total liabilities |
| `NarrativeCaptions.RetainedReadBack` | app/domain/narrative.py:380-390 | what a scan finds on the lines that begin with "- Retained earnings to date" is retained earnings |
| `NarrativeCaptions.EquityReadBack` | app/domain/narrative.py:380-391 | what a scan finds on the lines that begin with "- Total equity" is total equity |
| `NarrativeCaptions.OpeningCashReadBack` | app/domain/narrative.py:398-400 | what a scan finds on the lines that begin with "- Opening cash" is opening cash of the cash flow, and is absent without one |
| `NarrativeCaptions.ClosingCashReadBack` | app/domain/narrative.py:398-401 | what a scan finds on the lines that begin with "- Closing cash" is closing cash |
| `NarrativeCaptions.NetChangeReadBack` | app/domain/narrative.py:398-402 | what a scan finds on the lines that begin with "- Net change in cash" is net change in cash |
| `NarrativeCaptions.OperatingReadBack` | app/domain/narrative.py:398-406 | what a scan finds on the lines that begin with "- Cash from Operating Activities" is the operating section total |
| `NarrativeCaptions.InvestingReadBack` | app/domain/narrative.py:398-406 | what a scan finds on the lines that begin with "- Cash from Investing Activities" is the investing section total |
| `NarrativeCaptions.FinancingReadBack` | app/domain/narrative.py:398-406 | what a scan finds on the lines that begin with "- Cash from Financing Activities" is the financing section total |
| `NarrativeCaptions.LargestReadsBack` | app/domain/narrative.py:94-102 | the sentence on the largest expense names the first line of the largest amount of the three expense sections and shows that amount |
| `NarrativeCaptions.TextOpens` | app/domain/narrative.py:326-332 | the text opens with the client and the period, and the prior period when there is one |
| `NarrativeCaptions.FigureStands` | app/domain/narrative.py:310-415 | every line of the statement blocks stands in the text |
| `NarrativeCaptions.AssumptionStands` | app/domain/narrative.py:408-413 | every assumption stands in the text as a bullet |
| `NarrativeCaptions.PrintedSheetBalances` | app/domain/narrative.py:380-391 | the printed assets are the printed liabilities and equity to within a cent, and to the cent when the book is in whole cents |
| `Counterexamples.YearLikePercentCanFail` | app/domain/narrative.py:211 | two periods of a reachable book whose narrative fails the check, under any prefix rules |
| `TaxWorksheet.GenerateWorksheet` | app/domain/tax_service.py:551-672 | the gates in order, the unmapped accounts in full, and otherwise the rows in form order with section totals, taxable income and the trace of every line |
| `TaxWorksheet.FoldLines` | app/domain/tax_service.py:632-655 | the two dictionaries hold for every line the sum and the list of the contributions mapped to it |
| `TaxWorksheet.Totals` | app/domain/tax_service.py:664-672 | section totals and taxable income from the rows |
| `TaxWorksheetProofs.UnmappedComplete` | app/domain/tax_service.py:616-624 | the unmapped list holds exactly the income-statement accounts with activity and no approved mapping |
| `TaxWorksheetProofs.WorksheetConserves` | app/domain/tax_service.py:626-667 | the lines add up to the signed activity of every account, each once; what is missing is exactly what was mapped off the form |
| `TaxWorksheetProofs.TraceAddsUp` | app/domain/tax_service.py:632-655 | the trace of a line adds up to its amount and names mapped accounts that moved it only |
| `TaxWorksheetProofs.ContributorsExactly` | app/domain/tax_service.py:631-660 | the contributors of a line are its mappings on revenue and expense accounts with activity, with that activity and, by sign, their contribution |
| `TaxWorksheetProofs.TaxableIsRevenueMinusExpenses` | app/domain/tax_service.py:664-672 | under a straight mapping taxable income is revenue minus expenses of the same activity |
| `TaxWorksheetProofs.TaxableAgainstNetIncome` | app/domain/tax_service.py:484-533 | taxable income meets the net income of the period if and only if the entries outside it net to nothing, because the activity query counts every line |
| `Counterexamples.WorksheetMissesNetIncome` | app/domain/tax_service.py:484-533 | a reachable book whose worksheet shows 2,200.50 of taxable income where the period earned 2,100.50 |
| `TaxWorksheetProofs.ReversalCancelsActivity` | app/domain/tax_service.py:484-533 | on the worksheet, unlike in the statements, a reversal takes an entry back exactly |
| `IrsForm.SumDeductions` | app/domain/irs_form_filler.py:309-319 | the loop over lines 7 to 20 |
| `IrsForm.BuildLineValues` | app/domain/irs_form_filler.py:247-280 | on each of the four forms every mapped line and derived line, or the codes with an amount and no field |
| `IrsFormProofs.ReadAmount` | app/domain/irs_form_filler.py:51-75 | reading a printed amount back gives its whole-dollar rounding, blank being zero |
| `IrsFormProofs.FieldsApart` | app/domain/irs_form_fields.py:89-240 | on each of the four forms no two lines share a field |
| `IrsFormProofs.LineShows` | app/domain/irs_form_filler.py:262-267 | on each of the four forms every line reads back as its whole-dollar rounding in its own field |
| `IrsFormProofs.FormTiesOut` | app/domain/irs_form_filler.py:303-319 | whatever the worksheet holds, the printed dollars add up: 1c = 1a - 1b, 3 = 1c - 2, 6 = 3 + 4 + 5, 21 = 7 + ... + 19, 22 = 6 - 21 |
| `IrsFormProofs.CatalogHasHome` | app/domain/irs_form_fields.py:135-158 | a worksheet of the Form 1120-S catalog never meets the missing-field error |
| `IrsFormFields.TableIs` | app/domain/irs_form_fields.py:89-235 | on each of the four forms the field of a line is the one of the literal table, and other lines have none |
| `IrsFormFields.FieldReadsBack` | app/domain/irs_form_fields.py:89-235 | the field listed for a line, read back, is the nearest whole dollars to the amount of that line, a half away from zero |
| `IrsFormFields.RefusedExactly` | app/domain/irs_form_filler.py:247-280 | filling is refused if and only if some line outside the table has an amount |
| `IrsFormFields.BlankIsZero` | app/domain/irs_form_filler.py:51-63 | only exactly zero is left blank |
| `IrsFormProofs.WithinNineDollars` | app/domain/irs_form_filler.py:314-319 | line 22 is within nine dollars of taxable income less twice line 1b |
| `IrsFormProofs.NineDollarsReached` | app/domain/irs_form_filler.py:314-319 | a worksheet that is exactly nine dollars away |
| `TaxLifecycle.MappingService.Propose` | app/domain/tax_service.py:130-186 | one open draft an account and form, firm staff only |
| `TaxLifecycle.MappingService.Approve` | app/domain/tax_service.py:189-251 | supersedes every other approved row of the pair, checks the unique key at both flushes, and changes nothing on an error |
| `TaxLifecycle.MappingService.Reject` | app/domain/tax_service.py:254-287 | rejects a draft, or changes nothing on an error |
| `TaxLifecycle.ProposeFields` | app/domain/tax_service.py:140-186 | a draft is added unless the account already has a draft on the form |
| `TaxLifecycle.ReviewGates` | app/domain/tax_service.py:200-208 | scope, existence and draft status are asked in this order, and a refusal changes nothing |
| `TaxLifecycle.ReviewFields` | app/domain/tax_service.py:210-239 | an approval supersedes the approved rows of the same form and account and no other; a rejection touches the draft alone |
| `TaxLifecycle.KeysStayUnique` | app/models/accounting.py:609-613 | the unique key on pair and status holds in every reachable table |
| `TaxLifecycle.ProposeOutcome` | app/domain/tax_service.py:144-158 | in a reachable table a proposal is refused only for want of scope or because a draft is open |
| `TaxLifecycle.ApproveOutcome` | app/domain/tax_service.py:212-239 | approving a draft fails if and only if the pair has both an approved and a superseded row |
| `TaxLifecycle.ThirdApprovalFails` | app/domain/tax_service.py:212-239 | for every account and form: propose and approve twice, and the third approval fails |
| `TaxLifecycle.RejectOutcome` | app/domain/tax_service.py:268-276 | rejecting a draft fails if and only if the pair already has a rejected row |
| `TaxLifecycle.FrozenForGood` | app/models/accounting.py:609-613 | a pair with an approved and a superseded row keeps both forever |
| `TaxLifecycle.AtMostTwoApprovals` | app/models/accounting.py:609-613 | over all runs at most two approvals and one rejection of a pair succeed |
| `TaxLifecycle.OneApprovedMapping` | app/domain/tax_service.py:603-614 | an account has at most one approved mapping on a form |
| `TaxLifecycle.WorksheetService.Store` | app/domain/tax_service.py:677-730 | retires every computed or approved worksheet of the key and adds a computed one |
| `TaxLifecycle.WorksheetService.Approve` | app/domain/tax_service.py:767-798 | only a computed worksheet is approved |
| `TaxLifecycle.WorksheetService.Reject` | app/domain/tax_service.py:801-839 | only a computed worksheet is rejected |
| `TaxLifecycle.StoreFields` | app/domain/tax_service.py:677-730 | a new worksheet supersedes the computed and approved ones of its period and form, and no other |
| `TaxLifecycle.SheetOutcome` | app/domain/tax_service.py:775-787 | only a computed worksheet is reviewed, by the firm, and only its status changes |
| `TaxLifecycle.LatestActive` | app/domain/tax_service.py:677-695 | over all runs only the latest worksheet of a key can be computed or approved |
| `TaxLifecycle.SheetsAreHistory` | app/domain/tax_service.py:767-839 | rejected and superseded worksheets never change, and an approved one changes only because a later one of its key exists |
| `Artifacts.ArtifactService.Finalize` | app/domain/artifact_service.py:452-558 | the gates in order; all matching finalized artifacts are superseded and the first is linked; an error changes nothing |
| `Artifacts.FinalizeOutcome` | app/domain/artifact_service.py:468-518 | a finalization goes through exactly for the firm, on a draft, with no pending drafts in its period, and with an active template when it is a tax worksheet in PDF; else the first of these that fails |
| `Artifacts.FinalizeFields` | app/domain/artifact_service.py:520-558 | exactly the finalized artifacts of the same kind and format, and of the same period and worksheet where it has one, are superseded |
| `Artifacts.OnePrior` | app/domain/artifact_service.py:520-544 | among rows the services generate the query finds at most one prior, so one link slot is enough |
| `Artifacts.ChainDescends` | app/domain/artifact_service.py:539-544 | a chain stays in its key and goes strictly back in time, so it has no cycle |
| `Artifacts.OneLinearChain` | app/domain/artifact_service.py:452-544 | over all runs the ever-finalized artifacts of a key are exactly one linear chain headed by the only finalized one |
| `Artifacts.FinalizedForGood` | app/domain/artifact_service.py:473-476 | a finalized artifact never changes again except to be superseded |
| `FormTemplates.Registry.Register` | app/domain/form_template.py:107-179 | one draft a form, year and revision |
| `FormTemplates.Registry.Verify` | app/domain/form_template.py:185-232 | verifies a draft or active template; a superseded one is refused |
| `FormTemplates.Registry.Activate` | app/domain/form_template.py:238-302 | only a verified template becomes active, and every other active one of its form and year is superseded |
| `FormTemplates.Registry.GetActiveVerified` | app/domain/form_template.py:71-101 | the single active and verified template, or why there is none |
| `FormTemplates.RegisterOutcome` | app/domain/form_template.py:124-160 | a revision is registered once for a form and year, by the firm, as an unverified draft |
| `FormTemplates.VerifyOutcome` | app/domain/form_template.py:185-232 | only the verified mark of a row that is not superseded changes |
| `FormTemplates.ActivateOutcome` | app/domain/form_template.py:238-302 | only a verified row that is not superseded becomes active, and only the other active rows of its form and year change |
| `FormTemplates.LookupExactly` | app/domain/form_template.py:71-101 | whatever the table holds, the lookup returns the one active and verified row of the form and year, and fails otherwise, with the reason of none when there is none |
| `FormTemplates.RegistryStaysOk` | app/domain/form_template.py:238-302 | over all runs revisions are unique, active templates are verified, and at most one a form and year is active |
| `FormTemplates.LookupNeverBroken` | app/domain/form_template.py:71-101 | the lookup never reports a broken invariant and fails if and only if nothing is active |
| `FormTemplates.ActivationTakesForce` | app/domain/form_template.py:238-302 | activating a verified draft succeeds and the lookup then returns it |
| `FormTemplates.RegistryHistory` | app/domain/form_template.py:185-302 | supersession is final and verification is never taken back |
| `Consumer.Process` | app/workers/consumer.py:67-93 | one message handled without a crash: acknowledged, with a successor exactly when it failed before its fifth delivery |
| `Consumer.RunOk` | app/workers/consumer.py:67-126 | under every interleaving of workers, failures and crashes: deliveries 1 to 5, the group has read exactly a prefix, an acknowledged message has an outcome, a requeued one a successor |
| `Consumer.NoJobVanishes` | app/workers/consumer.py:67-126 | every job ever enqueued is unread, skipped, pending, done or dead-lettered through its last message |
| `Consumer.AtMostFiveDispatches` | app/workers/consumer.py:67-93 | a job is dispatched at most five times, however often workers fail or crash |
| `Consumer.AtMostOneDeadLetter` | app/workers/consumer.py:76-84 | a job is dead-lettered at most once |
| `Consumer.DeadMeansFiveTries` | app/workers/consumer.py:67-93 | a job in the dead-letter stream was dispatched exactly five times |
| `Consumer.ReadTakesNext` | app/workers/consumer.py:107-114 | a read hands an idle worker the next unread messages in order, at most eight |
| `Consumer.PossibleSteps` | app/workers/consumer.py:67-126 | what can happen at a message: either result, a failing acknowledgement, requeue before the fifth delivery and dead letter from it on, and a crash at any point |
| `Consumer.WorkersNeverStuck` | app/workers/consumer.py:107-126 | a worker with a batch can always take a step, and an idle one can read whenever something is unread |
| `Consumer.WorkIsBounded` | app/workers/consumer.py:85-93 | all steps of all workers together are at most 25 a job |
| `Consumer.SkippedExactly` | app/workers/consumer.py:44-52 | a message is skipped if and only if its job was enqueued before the first worker started |
| `Consumer.OrphanedExactly` | app/workers/consumer.py:107-126 | a message is orphaned if and only if a worker crashed that held it |
| `Consumer.StrandedForGood` | app/workers/consumer.py:44-52 | a skipped or orphaned message stays as it is in every later state |
| `Consumer.FinishedExactly` | app/workers/consumer.py:55-126 | once the workers are at rest a job has finished if and only if it was enqueued after the first worker started and no worker crashed over a message of it without an outcome |
| `Consumer.NothingLostWithoutCrash` | app/workers/consumer.py:55-126 | with a worker from the start and no crash every job finishes |
| `Consumer.EarlyJobIsLost` | app/workers/consumer.py:44-52 | enqueue, then start a worker: the job is never run, whatever happens later |
| `Consumer.CrashedJobIsLost` | app/workers/consumer.py:107-126 | a job whose worker crashes after reading it is never run again, whatever happens later |
| `RateLimit.RateLimiter.Dispatch` | app/api/middleware.py:158-179 | refill, cap, admit or refuse, and store the bucket of the key |
| `RateLimit.TokensInRange` | app/api/middleware.py:137-179 | after every request each bucket holds between nothing and its own rate, although new buckets start with 600 tokens |
| `RateLimit.WindowBound` | app/api/middleware.py:163-179 | for each key and window at most the rate plus the refill of the window is admitted |
| `RateLimit.SpacedIsAdmitted` | app/api/middleware.py:163-179 | a request at least 60/rate seconds after the last one of its key, or the first, is admitted |
| `RateLimit.BurstAdmitsTheRate` | app/api/middleware.py:163-179 | of a burst on a fresh limiter exactly the rate is admitted |
| `RateLimit.SensitiveRoute` | app/api/middleware.py:128-153 | sign-in and administration paths, and only these, are sensitive |
| `RateLimit.UploadRoute` | app/api/middleware.py:128-156 | the other paths that begin like an upload, and only these, are uploads |
| `RateLimit.RoutesHaveRates` | app/api/middleware.py:128-156 | 30, 60 and 600 requests a minute |
| `RateLimit.OthersDoNotCount` | app/api/middleware.py:163-179 | whether a request is let through depends on the earlier requests of its own client and kind of route alone |
| `Promotion.PromotionService.PromoteDraft` | app/domain/promotion.py:65-147 | posts one entry and marks the draft, or leaves ledger and drafts unchanged |
| `Promotion.PromotionService.RejectDraft` | app/domain/promotion.py:150-187 | rejects a pending draft only |
| `Promotion.PromotionService.Loop` | app/domain/promotion.py:498-576 | the loop over the transactions, row by row, up to the first refusal of the ledger |
| `Promotion.PromotionService.PromoteStatement` | app/domain/promotion.py:399-616 | all gates, the loop, and the recorded result; every error leaves ledger and drafts unchanged |
| `PromotionFacts.StripIs` | app/domain/promotion.py:499-500 | stripping takes off exactly the blanks around a code |
| `PromotionFacts.CodesAre` | app/domain/promotion.py:466-477 | the code table holds the active accounts, the last one under a repeated code |
| `PromotionFacts.PostedExactly` | app/domain/promotion.py:498-581 | after a loop that runs through, a row is posted if and only if its stripped code is there and belongs to an active account, it was reviewed or not flagged, its amount parses and is positive, and its direction is deposit or payment |
| `PromotionFacts.SkippedExactly` | app/domain/promotion.py:498-560 | a skipped row carries the first of these tests that it fails |
| `PromotionFacts.PostedEntry` | app/domain/promotion.py:539-576 | the entry of a posted row: its amount unrounded, cash on the side of the direction, the account of the code on the other, dated at the day of the row moved into the period, or at the first day |
| `PromotionFacts.StatementGates` | app/domain/promotion.py:433-487 | scope, pending statement with rows, open period, cash account: asked in this order, and a refusal changes nothing |
| `PromotionFacts.StatementCompletes` | app/domain/promotion.py:498-581 | past its gates a statement is refused by the ledger, or because no row was posted, or promoted |
| `PromotionFacts.StatementRecords` | app/domain/promotion.py:578-602 | a promoted statement has at least one entry; the draft records them in order, the first as its own, and the skipped rows with their reasons |
| `PromotionFacts.DraftOutcome` | app/domain/promotion.py:65-147 | a single draft is promoted by the firm, while pending, exactly when the ledger accepts its entry, and then points to it |
| `PromotionFacts.RejectOutcome` | app/domain/promotion.py:150-192 | only the firm rejects, only a pending draft, and only its status changes |
| `PromotionProofs.RowsPartition` | app/domain/promotion.py:498-576 | posted and skipped rows partition the transactions, a row being posted exactly when it was ready |
| `PromotionProofs.StatementOutcome` | app/domain/promotion.py:498-576 | the loop runs through if and only if every ready row suits the ledger; one header account or fifth decimal fails the whole statement |
| `Counterexamples.OneHeaderRowFailsStatement` | app/domain/promotion.py:498-576 | a reachable desk on which one row coded to a header account fails the whole statement, although the row before it would have been posted |
| `PromotionProofs.CashMovesExactly` | app/domain/promotion.py:541-552 | over any window that covers the period cash moves by exactly the posted deposits less the posted payments |
| `PromotionProofs.PostedAmountsExact` | app/domain/promotion.py:541-552 | no posted amount is rounded on storage |
| `PromotionProofs.CashSide` | app/domain/promotion.py:541-552 | direction decides the side of cash, and a row coded to cash itself moves nothing |
| `PromotionProofs.PromotedAtMostOnce` | app/domain/promotion.py:445-448 | over all runs a draft produces entries at most once |
| `PromotionProofs.TerminalForGood` | app/domain/promotion.py:445-448 | a promoted or rejected draft never changes again |
| `PromotionProofs.RaiseLeavesAll` | app/db/session.py:80-102 | a promotion that raises leaves book and drafts as they were |
| `PromotionProofs.PostedAreNew` | app/domain/promotion.py:569-576 | a promoted statement records new, consecutive entries in the order of its transactions |
| `PromotionProofs.DeskBooksOk` | app/domain/promotion.py:65-147 | promotions keep every book sound, so all that holds of sound books holds of the books they write |
| `Reports.GeneralLedgerFor` | app/domain/reports.py:112-196 | opening balance, running balance after each line, closing balance |
| `Reports.BucketFor` | app/domain/reports.py:256-268 | every non-negative age falls into exactly one bucket, the one returned |
| `Reports.FillBuckets` | app/domain/reports.py:366-382 | the fold gives every listed account its sum in every bucket |
| `Reports.Aging` | app/domain/reports.py:315-427 | errors in order, rows of accounts that are not all zero, column totals and grand total |
| `ReportProofs.BucketsAreWindows` | app/domain/reports.py:366-405 | in any order of the fetched lines the four buckets of an account hold what was posted to it 0 to 30, 31 to 60 and 61 to 90 days before the date, and earlier |
| `ReportProofs.NamedExactly` | app/domain/reports.py:325-345 | the report covers exactly the accounts with one of the codes |
| `ReportProofs.RowsExactly` | app/domain/reports.py:385-415 | an account has a row, with its buckets and their sum, exactly when some bucket is not zero |
| `Sums.OrderIrrelevant` | app/domain/reports.py:134-165 | sums over a query do not depend on the order of its rows |
| `ReportProofs.ClosingIsCumulative` | app/domain/reports.py:160-196 | the opening balance is what was posted before the first day and the closing balance what was posted up to the last; an inverted range stays at the opening balance |
| `ReportProofs.RunningIsCumulative` | app/domain/reports.py:160-178 | the running balance on the last line of each day is what was posted up to that day |
| `ReportProofs.AccountAgesToBalance` | app/domain/reports.py:366-405 | the buckets of an account sum to its balance as of the date |
| `ReportProofs.AgingTies` | app/domain/reports.py:366-427 | row totals and column totals come to the same grand total, the balances of the listed accounts |

## Left out

- Tenancy: firm and client filters, row-level security and the cross-tenant errors; every table is one tenant's.
- Timestamps, generated ids, audit rows, memos and descriptions.
- Display order: statement rows, roll-up children, drill-down lines and aging rows are sorted by code for display; no figure depends on it.
- Decimal overflow: quantizing beyond 28 digits raises in the original; amounts here are unbounded integers or reals.
- Reports.GeneralLedgerFor: the rows come as the ordered result of the query; the order among lines of one day is left open.
- Reports.Aging: the fetched lines are a parameter, in any order.
- NarrativeText.ExtractNumbers: character classes are ASCII; other Unicode digits, letters and blanks are not modelled.
- Narrative.GenerateNarrative: the pluggable writer is its returned text; balance-check and date lines are printed from given strings.
- Coa.InstantiateForClient: the active templates come as parameters; template codes are unique, as the table demands.
- Wildcards: codes that contain the path separator, which make paths ambiguous.
- Activation of chart templates follows the same steps as activation of form templates and is not repeated.
- IrsForm.BuildLineValues: the header fields of the forms, which are plain copies.
- TaxWorksheet.GenerateWorksheet: the hash over the lines is not kept.
- Automatic mapping, bulk approval and one-click filling call the operations modelled here.
- Promotion.PromotionService.PromoteStatement: transactions come with parsed amounts, dates and directions; amounts that parse to infinity or not-a-number are not modelled.
- Rule learning from overrides, which does not touch the ledger.
- Artifacts.ArtifactService.Finalize: the query returns priors in the order of their rows; rendering, storage and encryption of the body.
- Consumer: one stream, since streams share nothing; backoff times; a malformed payload is a crash.
- RateLimit.RateLimiter.Dispatch: tokens are reals, so floating-point rounding is not modelled.
- HTTP routes, authentication, logging, PDF and spreadsheet rendering, optical character recognition, classifiers, and the front end.
