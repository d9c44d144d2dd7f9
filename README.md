# Stripe payout to Wave journal entry: a Dafny model

The importer reads payouts and their balance transactions from Stripe and
builds, for each payout, one Wave "create transaction" request. This project
models the entry builder inside `ImportTransactions::handle()`. The builder
takes a payout, its balance transactions, the operator's account choices and
the external-id prefix, and it does four things:

- it puts each transaction in one of two buckets: *sponsorship* when the
  lower-cased description contains `sponsorship`, *sale* otherwise;
- it adds up amounts and fees per bucket;
- it builds the payload: the business id, the external id (the prefix followed
  by the payout id), the description, the date, and an anchor line (a
  deposit or withdrawal of the payout's absolute amount);
- it appends up to four line items, in this fixed order, each under its own
  condition: sponsorship revenue, sponsorship fee, sale revenue (with a nested
  sales-tax entry), and sale fee. The sale fee line is dropped unless the
  sales total is strictly positive.

Modules:

- `Ledger` (`ledger.dfy`): the data model. It has transactions, payouts, the
  account mapping, the anchor, line items, tax entries and the payload. It
  also defines the signed value of a line: credits and deposits are positive,
  debits and withdrawals negative.
- `Classifier` (`classifier.dfy`): PHP `strtolower`, Laravel `Str::contains`
  and the sponsorship/sale predicate.
- `Totals` (`totals.dfy`): the four filter-then-fold totals.
- `EntryBuilder` (`entry_builder.dfy`): contains
  - one function per line;
  - `Entry`, the payload as a value;
  - `BuildEntry`, which builds the payload as the command does: the line list
    starts empty and grows by conditional appends;
  - `ImportAll`, the loop over a run's payouts;
  - the lemmas.

The builder has no I/O once its inputs are fixed. The operator's choices are
modelled as an `AccountMapping` value. The sales tax's id and rate are in it.

All amounts are integers in cents. The command divides each amount by 100
before sending it, and that division only changes the display unit. A line's
kind is recovered from its description, because all six descriptions the
builder writes are distinct. This is how the order and presence properties
are stated.

In four places the code does not do what one might expect. The model follows the code:

- One might expect the entry to balance. The code does not make it balance. Fee amounts are not absolute values, and sale fees are dropped
  when the sales total is not positive. `BalancesIffNoDroppedSaleFees` states
  exactly when the entry balances. It assumes the payout amount equals the
  amounts less the fees of its transactions.
- One might expect every line-item amount to be non-negative. In the code, the
  two fee lines carry the fee total as it is, so a negative fee total gives a
  negative amount.
- One might expect " (Refund)" to be appended when a revenue total is
  negative. The code appends it when the total is not positive. A line is emitted only for a
  non-zero total, so the two rules agree on every line that exists.
- One might expect the classifier to ignore case in general. The code uses
  `strtolower`, which folds only the ASCII letters A-Z.

## Model

| member | source | states |
|---|---|---|
| `Classifier.LowerChar` | app/Commands/ImportTransactions.php:88 | ASCII upper-case letters map to their lower-case letter. Every other character is unchanged. The result is never an upper-case ASCII letter. |
| `Classifier.ToLower` | app/Commands/ImportTransactions.php:88 | The result has the same length as the input. Each character is lower-cased on its own. |
| `Classifier.Occurs` | app/Commands/ImportTransactions.php:88 | True exactly when the needle occurs at some position of the haystack as a contiguous substring. |
| `Classifier.StrContains` | app/Commands/ImportTransactions.php:88 | True exactly when the needle is non-empty and occurs in the haystack. |
| `Classifier.BucketOf` | app/Commands/ImportTransactions.php:87-89 | A transaction is a sponsorship exactly when its description passes the sponsorship filter. Otherwise it is a sale, which is the filter's literal negation used at lines 113-115. |
| `Classifier.SponsorshipIffKeywordInAnyCase` | app/Commands/ImportTransactions.php:88 | Lower-casing the description and then searching for `sponsorship` succeeds exactly when some window of the original description lower-cases to `sponsorship`. |
| `Classifier.IsSponsorship` | app/Commands/ImportTransactions.php:88 | True exactly when some window of the description spells `sponsorship` in any mix of ASCII upper and lower case. So the filter ignores ASCII case and finds the keyword anywhere. |
| `Classifier.KeywordAnywhereIsSponsorship` | app/Commands/ImportTransactions.php:88 | A description that contains the keyword anywhere, in any ASCII case, is a sponsorship. |
| `Classifier.SameLowerSameBucket` | app/Commands/ImportTransactions.php:113-115 | Two transactions whose descriptions agree after lower-casing land in the same bucket. |
| `Classifier.NoLetterSIsSale` | app/Commands/ImportTransactions.php:113-115 | A description with no `s` or `S` in it is a sale. |
| `Classifier.TicketIsSale` | app/Commands/ImportTransactions.php:113-115 | "Ticket" is a sale. |
| `Classifier.TicketRefundIsSale` | app/Commands/ImportTransactions.php:113-115 | "Ticket refund" is a sale. |
| `Classifier.SponsorshipPackageIsSponsorship` | app/Commands/ImportTransactions.php:87-89 | "Sponsorship pkg" is a sponsorship, although its first letter is upper case. |
| `Totals.Filter` | app/Commands/ImportTransactions.php:87-89 | A bucket's filter is never longer than its input. |
| `Totals.SumAmountsAppend` | app/Commands/ImportTransactions.php:90 | The amount fold from 0 over a concatenation is the sum of the folds over its parts. So the fold is the plain sum of the amounts. |
| `Totals.SumFeesAppend` | app/Commands/ImportTransactions.php:103 | The fee fold from 0 over a concatenation is the sum of the folds over its parts. So the fold is the plain sum of the fees. |
| `Totals.AmountTotal` | app/Commands/ImportTransactions.php:87-90 | A bucket's amount total plus the amounts of the other bucket is the sum of all amounts. The sponsorship total is computed at lines 87-90 and the sales total, over the negated filter, at lines 113-116. |
| `Totals.FeeTotal` | app/Commands/ImportTransactions.php:100-103 | A bucket's fee total plus the fees of the other bucket is the sum of all fees. The sponsorship fee total is computed at lines 100-103 and the sale fee total at lines 134-137. |
| `Totals.FilterMembers` | app/Commands/ImportTransactions.php:113-115 | A bucket's filter keeps exactly the transactions of that bucket. |
| `Totals.FilterPartitions` | app/Commands/ImportTransactions.php:87-137 | The two buckets together hold every transaction exactly as often as the input does (as multisets). Their lengths add up to the input's length. |
| `Totals.AmountTotalsPartition` | app/Commands/ImportTransactions.php:87-116 | The amounts folded over the sponsorship filter plus those folded over the sale filter give the sum of all amounts. |
| `Totals.FeeTotalsPartition` | app/Commands/ImportTransactions.php:100-137 | The fees folded over the sponsorship filter plus those folded over the sale filter give the sum of all fees. |
| `Ledger.Abs` | app/Commands/ImportTransactions.php:81 | The absolute value is non-negative and equals the argument or its negation. The revenue lines use it at lines 93 and 123. |
| `EntryBuilder.RefundSuffix` | app/Commands/ImportTransactions.php:96 | The suffix is either empty or " (Refund)". It is non-empty exactly when the total is not positive. The sales line uses the same rule at line 126. |
| `EntryBuilder.AnchorFor` | app/Commands/ImportTransactions.php:78-82 | The direction is DEPOSIT exactly when the payout amount is positive, so an amount of 0 is a WITHDRAWAL. The amount is non-negative and, signed by the direction, equals the payout amount. The account is the anchor account. |
| `EntryBuilder.SponsorshipRevenueLine` | app/Commands/ImportTransactions.php:87-98 | Present exactly when the sponsorship total is non-zero. Goes to the sponsorship account. The amount is positive and, signed by the balance, equals the total. CREDIT exactly when the total is positive. No tax entry. |
| `EntryBuilder.SponsorshipFeeLine` | app/Commands/ImportTransactions.php:100-111 | Present exactly when the sponsorship fee total is non-zero, whatever the revenue's sign. Always a DEBIT to the fee account. The amount is the fee total as it is. |
| `EntryBuilder.SaleRevenueLine` | app/Commands/ImportTransactions.php:113-132 | Present exactly when the sales total is non-zero. Goes to the ticket-sales account. The amount is positive and, signed by the balance, equals the total. CREDIT exactly when the total is positive. Carries a tax entry with the selected sales-tax id. |
| `EntryBuilder.SaleFeeLine` | app/Commands/ImportTransactions.php:134-145 | Present exactly when the sale fee total is non-zero AND the sales total is strictly positive. Always a DEBIT to the fee account. The amount is the fee total as it is. |
| `EntryBuilder.LineDescriptions` | app/Commands/ImportTransactions.php:91-145 | The descriptions are "Sponsorships", "Sponsorship Stripe fees", "Total ticket purchases amount" and "Stripe fees". A revenue line's description has " (Refund)" appended exactly when its total is negative. Each description names its line's kind. |
| `EntryBuilder.Entry` | app/Commands/ImportTransactions.php:72-85 | The business id is the selected business. The external id is the prefix followed by the payout id, and the id can be read back from it; the prefix may be empty. The description is the payout's description, a space, then its id. The date is the arrival date. The anchor is `AnchorFor`. There are at most four line items. |
| `EntryBuilder.BuildEntry` | app/Commands/ImportTransactions.php:72-145 | Starting from an empty line list and appending under each condition produces exactly the payload `Entry`. |
| `EntryBuilder.Entries` | app/Commands/ImportTransactions.php:69-72 | One payload per payout of the run. |
| `EntryBuilder.EntriesAt` | app/Commands/ImportTransactions.php:69-72 | The payload at position i of a run is `Entry` of the i-th payout and its transactions. |
| `EntryBuilder.ImportAll` | app/Commands/ImportTransactions.php:69-160 | Produces `Entries` of the run: one payload per payout, in payout order. Each is `Entry` of that payout and its transactions, built with the same mapping and prefix. |
| `EntryBuilder.LineOrder` | app/Commands/ImportTransactions.php:83-145 | Every line item has a known kind. The kinds strictly follow the order sponsorship revenue, sponsorship fee, sale revenue, sale fee, so no kind appears twice. |
| `EntryBuilder.LinePresence` | app/Commands/ImportTransactions.php:91-145 | For each kind, a line of that kind is present exactly when its condition holds. No placeholder stands in for an omitted line. |
| `EntryBuilder.SaleFeeSuppressedWithoutSales` | app/Commands/ImportTransactions.php:138-145 | When the sales total is zero or negative there is no sale fee line, whatever the fees are. |
| `EntryBuilder.NoZeroLines` | app/Commands/ImportTransactions.php:91-145 | No line item has amount 0. |
| `EntryBuilder.LineItemsNetValue` | app/Commands/ImportTransactions.php:87-145 | The credits less the debits of the line items: the sum of all transaction amounts, less the sponsorship fees, less the sale fees only when the sales total is positive. |
| `EntryBuilder.BalancesIffNoDroppedSaleFees` | app/Commands/ImportTransactions.php:78-145 | Assume the payout amount is the amounts less the fees. Then the line items' signed total equals the anchor's signed amount exactly when the sales total is positive or the sale fee total is zero. |
| `EntryBuilder.DepositScenario` | app/Commands/ImportTransactions.php:72-145 | A 5000 deposit with a 3000 sale (fee 100) and a 2000 sponsorship (fee 50) gives DEPOSIT 5000 and then: sponsorship CREDIT 2000, sponsorship fee DEBIT 50, sale CREDIT 3000 with tax, sale fee DEBIT 100. |
| `EntryBuilder.RefundScenario` | app/Commands/ImportTransactions.php:72-145 | A payout of a single 1000 sale refund (fee 30) gives a WITHDRAWAL anchor and exactly one line: DEBIT 1000 "Total ticket purchases amount (Refund)" with tax. The sale fee is dropped. |

## Left out

- EntryBuilder.SaleRevenueLine: no tax arithmetic is modelled. The command computes the nested tax amount in floating point, `abs(total) - abs(total / (1 + rate))`, then divides by 100 and applies `round(_, 2)`. Here the tax amount is a function parameter `taxOf(salesTotal, rate)`. The only claims are that the entry carries the selected sales-tax id and `taxOf`'s value.
- Division by 100: the command sends decimal currency amounts. The model keeps integer cents.
- The payload's `date` holds the payout's arrival timestamp. Formatting it as `Y-m-d` in UTC is a date-library conversion and is not modelled. The same holds for parsing the `--date` option (app/Commands/ImportTransactions.php:58-61).
- Interactive selection of the business, the accounts and the sales tax (app/Commands/ImportTransactions.php:165-269) is replaced by the `AccountMapping` input. The `exit` on an API error is left out with it.
- Submission is left out, as are the dry-run output (`json_encode`, `dump`) and the progress bar (app/Commands/ImportTransactions.php:147-162). `ImportAll` returns the payloads instead. `WaveApiClient::createTransaction` only defines its query and never sends it.
- The Stripe and Wave clients (app/StripeApiClient.php, app/WaveApiClient.php) are network clients with auto-paging. They are not part of this model. The upstream filter that drops `payout`-type transactions (app/StripeApiClient.php:39) is not modelled. The builder never reads a transaction's type, so its behaviour does not depend on that filter.
- The list commands, the base command, config/services.php and the exception class contain rendering, wiring and environment lookups. They are not part of this model.
- PHP integer overflow is not modelled: totals and amounts are unbounded integers. PHP would turn a sum beyond 64 bits into a float, and `!== 0` would then compare a float.
- Lower-casing is modelled as PHP 8.2's ASCII-only `strtolower` on characters. Byte-level behaviour on multi-byte text is not modelled. It cannot change the result, because the keyword is ASCII.
- A missing (null) Stripe description is not a separate case. The model reads it as the empty string, which is what PHP 8 does: `strtolower(null)` gives `""`, so the transaction is a sale, and `null . ' '` gives `" "` for the payout's description.
