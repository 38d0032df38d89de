# Antaeus billing core, modelled in Dafny

Antaeus is a small invoicing service. Once a month it charges every PENDING
invoice through an external payment provider. For each invoice it records the
outcome on the invoice row: the invoice becomes PAID, or it stays as it is and
carries a note saying why the charge did not happen.

This project models three parts of it:

- **Invoice service** (`invoices.dfy`, module `Invoices`): the class
  `InvoiceService`. It holds the invoice table as a map from id to record,
  plus the table's row order. Its operations are:
  - listing all invoices, or only those of one status;
  - looking an invoice up by id;
  - marking an invoice PAID;
  - storing a failure note on an invoice.

  The status filter is parsed exactly as the source does it:
  - an absent or blank string means "no filter";
  - a string that is exactly `PENDING` or `PAID` selects that status;
  - anything else raises StatusNotFound.
- **Billing service** (`billing.dfy`, module `Billing`): the class
  `BillingService`, which runs one payment or a batch of payments.
  - A payment looks the customer up. If the currencies differ it does not
    charge. Otherwise it calls the provider.
  - Every exception raised on the way becomes a note: NETWORKERROR,
    NOCUSTOMER or OTHER.
  - The payment then makes exactly one write: it marks the invoice paid, or
    it stores the note.
  - Each step is also defined as a function on values (`ChargeAttempt`,
    `PaymentResult`, `SettleAll`, ...). The methods are proved against those
    functions.
  - A ghost field `charges` records which invoices reached the payment
    provider, in call order.
- **Monthly schedule** (`schedule.dfy`, module `Schedule`): the delay from now
  until midnight on the first day of the next month. Turning a calendar date
  into epoch milliseconds is a parameter. It is only assumed to keep the order
  of dates.

`models.dfy` (module `Models`) holds the shared records:
- Invoice, Customer and Money;
- the two invoice statuses;
- the six outcome notes;
- the three request-level errors (InvoiceNotFound, AlreadyPaid, StatusNotFound).

Exceptions are modelled as values:
- the services return `Result` values;
- the customer service and the provider are functions that return either a
  value or the exception they raise.

## Model

| member | source | states |
|---|---|---|
| Invoices.BlankConcat | pleo-antaeus-core/src/main/kotlin/io/pleo/antaeus/core/services/InvoiceService.kt:22 | A filter string is blank exactly when both of its parts are. Blank means every character is one of Kotlin's whitespace characters. |
| Invoices.BlankExamples | pleo-antaeus-core/src/main/kotlin/io/pleo/antaeus/core/services/InvoiceService.kt:22 | Absent, empty, spaces, tabs and line breaks all count as blank filters, as do the Unicode space separators. A zero-width space does not, and neither does a status name with spaces around it. |
| Invoices.ParseStatus | pleo-antaeus-core/src/main/kotlin/io/pleo/antaeus/core/services/InvoiceService.kt:65-69 | Only the exact name of a status constant parses, and it parses to that constant; no trimming and no case folding. |
| Invoices.StatusName | pleo-antaeus-core/src/main/kotlin/io/pleo/antaeus/core/services/BillingService.kt:19 | A status's name is never blank, so filtering by a status's name never falls into the "no filter" case. |
| Invoices.Select | pleo-antaeus-core/src/main/kotlin/io/pleo/antaeus/core/services/InvoiceService.kt:23 | A listing holds exactly the stored records whose status the filter admits, each stored under its own id, and no id twice. |
| Invoices.PaidRecord | pleo-antaeus-core/src/main/kotlin/io/pleo/antaeus/core/services/InvoiceService.kt:40-43 | Marking paid succeeds exactly when the id is stored. The result is the same invoice (id, customer, amount), now PAID with note NONE. A missing id gives InvoiceNotFound for that id. |
| Invoices.FailedRecord | pleo-antaeus-core/src/main/kotlin/io/pleo/antaeus/core/services/InvoiceService.kt:53-56 | Recording a note succeeds exactly when the id is stored. The result is the same invoice with its status unchanged and the given note. A missing id gives InvoiceNotFound. |
| Invoices.Commit | pleo-antaeus-core/src/main/kotlin/io/pleo/antaeus/core/services/InvoiceService.kt:42 | A write keeps the table's key set and changes no record but its own. A failed write changes nothing. |
| Invoices.InvoiceService.FetchAll | pleo-antaeus-core/src/main/kotlin/io/pleo/antaeus/core/services/InvoiceService.kt:20-27 | An absent or blank filter lists every stored invoice. A status name lists exactly the stored invoices of that status. Any other non-blank string fails with StatusNotFound carrying that string. A listing never repeats an id. |
| Invoices.InvoiceService.FetchByStatus | pleo-antaeus-core/src/main/kotlin/io/pleo/antaeus/core/services/InvoiceService.kt:64-72 | A status name lists exactly the stored invoices of that status. Every other string fails with StatusNotFound carrying that string. |
| Invoices.InvoiceService.Fetch | pleo-antaeus-core/src/main/kotlin/io/pleo/antaeus/core/services/InvoiceService.kt:29-31 | Succeeds exactly when the id is stored, and returns the stored record. Otherwise it fails with InvoiceNotFound for that id. |
| Invoices.InvoiceService.PaidInvoice | pleo-antaeus-core/src/main/kotlin/io/pleo/antaeus/core/services/InvoiceService.kt:40-43 | Returns PaidRecord of the old table and commits it. Table invariants and row order are kept. |
| Invoices.InvoiceService.FailedPaymentInvoice | pleo-antaeus-core/src/main/kotlin/io/pleo/antaeus/core/services/InvoiceService.kt:53-56 | Returns FailedRecord of the old table with the note and commits it. Table invariants and row order are kept. |
| Billing.Classify | pleo-antaeus-core/src/main/kotlin/io/pleo/antaeus/core/services/BillingService.kt:55-69 | A network exception gives NETWORKERROR and only it does. A missing customer gives NOCUSTOMER and only it does. Any other exception gives OTHER. |
| Billing.ChargeAttempt | pleo-antaeus-core/src/main/kotlin/io/pleo/antaeus/core/services/BillingService.kt:41-69 | The provider is called exactly when the customer is found and the currencies match. The payment succeeds exactly when the provider is called and answers true, and exactly when the note is NONE. A currency mismatch gives DIFFERENTCURRENCY and a false answer gives NOFUNDS. An exception from the lookup or the charge gives its classified note. |
| Billing.PaymentResult | pleo-antaeus-core/src/main/kotlin/io/pleo/antaeus/core/services/BillingService.kt:71-75 | The single write succeeds exactly when the id is stored, and otherwise fails with InvoiceNotFound. On success it returns the same invoice with the attempt's note, PAID when the charge succeeded, and its stored status otherwise. |
| Billing.AfterPayment | pleo-antaeus-core/src/main/kotlin/io/pleo/antaeus/core/services/BillingService.kt:71-75 | A payment keeps the key set, changes only the paid invoice's record, and stores exactly the record the payment returns. |
| Billing.SingleInvoiceResult | pleo-antaeus-core/src/main/kotlin/io/pleo/antaeus/core/services/BillingService.kt:29-37 | An unknown id gives InvoiceNotFound. A PAID invoice gives AlreadyPaid and is not charged. A PENDING invoice gives the payment result of its stored record. |
| Billing.SettleAllElsewhere | pleo-antaeus-core/src/main/kotlin/io/pleo/antaeus/core/services/BillingService.kt:23-25 | Paying a batch leaves every record whose id is not in the batch as it was. |
| Billing.SettleAllKeepsPaid | pleo-antaeus-core/src/main/kotlin/io/pleo/antaeus/core/services/BillingService.kt:18-27 | Paying a batch of distinct stored PENDING invoices leaves every PAID record untouched. It keeps "a PAID invoice carries note NONE" true of the table. |
| Billing.BatchResultsAreSingle | pleo-antaeus-core/src/main/kotlin/io/pleo/antaeus/core/services/BillingService.kt:18-27 | In a batch over a PENDING listing, result i equals single-invoice processing of invoice i against the table as it was before the batch. Earlier payments in the batch do not change later results. |
| Billing.SettleAll | pleo-antaeus-core/src/main/kotlin/io/pleo/antaeus/core/services/BillingService.kt:23-25 | The table after a batch of payments, each made against the table the previous ones left. A batch keeps the table's key set. |
| Billing.BatchResults | pleo-antaeus-core/src/main/kotlin/io/pleo/antaeus/core/services/BillingService.kt:21-26 | The list the loop collects: one result per invoice of the batch, in batch order. |
| Billing.ChargedOf | pleo-antaeus-core/src/main/kotlin/io/pleo/antaeus/core/services/BillingService.kt:23-25 | The invoices of a batch that reach the provider, in batch order. Only invoices of the batch appear in it. |
| Billing.SettleAllStoresResults | pleo-antaeus-core/src/main/kotlin/io/pleo/antaeus/core/services/BillingService.kt:23-25 | After a batch over a PENDING listing, the record of each processed invoice is exactly the result the batch returned for it. |
| Billing.ChargedOfExactly | pleo-antaeus-core/src/main/kotlin/io/pleo/antaeus/core/services/BillingService.kt:23-25 | An invoice of a batch reaches the provider exactly when its customer is found with a matching currency. When the batch has distinct ids, no invoice reaches the provider twice. |
| Billing.BatchExtends | pleo-antaeus-core/src/main/kotlin/io/pleo/antaeus/core/services/BillingService.kt:23-25 | A batch's next payment cannot fail. It appends one result, makes one table write and appends at most that invoice to the provider log. |
| Billing.PendingFetchIsListing | pleo-antaeus-core/src/main/kotlin/io/pleo/antaeus/core/services/BillingService.kt:19 | Listing by the PENDING status always succeeds. It yields distinct invoices, each stored as it is and PENDING. |
| Billing.BillingService.ExecutePayment | pleo-antaeus-core/src/main/kotlin/io/pleo/antaeus/core/services/BillingService.kt:40-77 | Returns PaymentResult and leaves the table as AfterPayment. The provider is called at most once, and only when the currencies match. |
| Billing.BillingService.ProcessPendingInvoice | pleo-antaeus-core/src/main/kotlin/io/pleo/antaeus/core/services/BillingService.kt:29-37 | Returns SingleInvoiceResult. On failure the table and the provider calls are unchanged. On success the table is AfterPayment of the stored invoice. "PAID carries no note" is preserved. |
| Billing.BillingService.ProcessAllPendingInvoices | pleo-antaeus-core/src/main/kotlin/io/pleo/antaeus/core/services/BillingService.kt:18-27 | Returns one result per PENDING invoice, in listing order, and result i is that invoice's single-invoice result. The table ends as SettleAll over the listing and the provider is called for exactly ChargedOf the listing. PAID records are untouched and "PAID carries no note" is preserved. |
| Schedule.FirstOfMonth | pleo-antaeus-app/src/main/kotlin/io/pleo/antaeus/app/utils.kt:60-64 | The month's first instant is a valid date in that month, on day 1 at 00:00:00.000. |
| Schedule.NextMonthStart | pleo-antaeus-app/src/main/kotlin/io/pleo/antaeus/app/utils.kt:53-64 | The target is a valid date one month after now's. December rolls over to January of the next year; any other month stays in its year. Its day is 1 and its time of day is zero. |
| Schedule.LaterMonthIsLater | pleo-antaeus-app/src/main/kotlin/io/pleo/antaeus/app/utils.kt:54-59 | A date in a later month is a strictly later instant. |
| Schedule.NextMonthStartIsFirstLaterInstant | pleo-antaeus-app/src/main/kotlin/io/pleo/antaeus/app/utils.kt:53-64 | The target is after now, and no valid date in a later month comes before it. |
| Schedule.TimeTilNextMonth | pleo-antaeus-app/src/main/kotlin/io/pleo/antaeus/app/utils.kt:46-76 | The delay is the target's milliseconds minus now's. For a valid now and an order-keeping conversion it is strictly positive. |
| Schedule.RolloverExamples | pleo-antaeus-app/src/main/kotlin/io/pleo/antaeus/app/utils.kt:54-59 | 15 December 2019 rolls to 1 January 2020, and 10 March 2019 rolls to 1 April 2019. |

## Left out

- The data access layer, the customer service and the payment provider are not part of this model. They are collaborators whose code is not modelled:
  - the table is a map held by `InvoiceService`. The data access layer's two writes are not part of this model: mark-paid is modelled as setting status PAID and note NONE, and record-note as setting the note and keeping the status;
  - the customer lookup and the provider's charge are functions from their argument to a value or an exception;
  - a provider that answers differently on repeated calls (the random stand-in in `utils.kt`) is fixed to one answer per invoice.
- Invoices.Select: listings are returned in the table's row order, held as the field `order`. The real order is whatever the database returns, and the model only fixes that it is one order containing every row once.
- The code has no retry of failed payments, so none is modelled. A failed invoice stays PENDING with its note until a later run or a manual request pays it.
- Logging, `setupInitialData` and `getPaymentProvider` (random test data and a random provider) are left out: they are I/O and randomness.
- Amounts are never inspected by the billing logic beyond their currency. `Money.value` is a `real`, not an exact decimal type.
- Concurrent runs of the billing service against the same table are not modelled. Every operation is atomic.
- The exception hierarchy is reduced to the three kinds the payment's handler tells apart. A failing write of the invoice service surfaces as `Failure(InvoiceNotFound)`, the only error those writes raise.
- Schedule.TimeTilNextMonth: the calendar's time zone, daylight-saving rules and conversion to milliseconds are one abstract parameter `toMillis`, assumed only to be strictly increasing over valid dates. The source reads the clock twice, and the two readings are modelled as the same instant.
- Where the code disagrees with its own declarations and doc comments, the code is followed:
  - the note enum has the six values `BillingService.kt` uses (NONE, NOFUNDS, NETWORKERROR, DIFFERENTCURRENCY, NOCUSTOMER, OTHER). `InvoiceNote.kt` lines 3-7 declare only NOFUNDS, NETWORKERROR and OTHER. The notes' message strings are not modelled;
  - an unparseable status filter raises StatusNotFound, as `InvoiceService.kt` line 68 does, not the InvoiceNotFound its doc comment (line 62) names.
