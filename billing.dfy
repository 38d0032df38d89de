/** The billing service: charges pending invoices through the payment provider,
    sorts every charge attempt into one outcome note, and records the outcome
    with exactly one write to the invoice service.

    The customer service and the payment provider are collaborators whose code
    is not part of this model; each is a function from its argument to what the
    call does (returns a value or raises an exception). */
module Billing {
  import opened Models
  import opened Invoices

  /** The kinds of exception the charge attempt's handler tells apart. */
  datatype Exception = NetworkException | CustomerNotFoundException | OtherException

  /** What the customer service's `fetch` does for a customer id. */
  datatype CustomerLookup = Found(customer: Customer) | LookupThrows(exception: Exception)

  /** What the payment provider's `charge` does for an invoice. */
  datatype ChargeOutcome = Charged(success: bool) | ChargeThrows(exception: Exception)

  /** What the guarded part of a payment settles on: whether the provider was
      called, whether it reported success, and the note to record. */
  datatype Attempt = Attempt(charged: bool, paid: bool, note: InvoiceNote)

  // ---------------------------------------------------------------------
  // The decision procedure, as values

  /** The note an exception raised during the attempt is recorded as. */
  function Classify(e: Exception): (note: InvoiceNote)
    ensures note == NETWORKERROR <==> e == NetworkException
    ensures note == NOCUSTOMER <==> e == CustomerNotFoundException
    ensures note == NETWORKERROR || note == NOCUSTOMER || note == OTHER
  {
    match e
    case NetworkException => NETWORKERROR
    case CustomerNotFoundException => NOCUSTOMER
    case OtherException => OTHER
  }

  /** The outcome of the guarded part of a payment for `invoice`, given what
      the customer lookup and the charge do. No exception escapes it. */
  function ChargeAttempt(invoice: Invoice, lookup: CustomerLookup, charge: ChargeOutcome): (a: Attempt)
    ensures a.charged <==> lookup.Found? && lookup.customer.currency == invoice.amount.currency
    ensures a.paid <==> a.charged && charge == Charged(true)
    ensures a.paid <==> a.note == NONE
    ensures lookup.LookupThrows? ==> a.note == Classify(lookup.exception)
    ensures lookup.Found? && !a.charged ==> a.note == DIFFERENTCURRENCY
    ensures a.charged && charge == Charged(false) ==> a.note == NOFUNDS
    ensures a.charged && charge.ChargeThrows? ==> a.note == Classify(charge.exception)
  {
    match lookup
    case LookupThrows(e) => Attempt(false, false, Classify(e))
    case Found(customer) =>
      if customer.currency != invoice.amount.currency then Attempt(false, false, DIFFERENTCURRENCY)
      else
        match charge
        case Charged(ok) => Attempt(true, ok, if ok then NONE else NOFUNDS)
        case ChargeThrows(e) => Attempt(true, false, Classify(e))
  }

  /** What a payment of `invoice` returns against table `m`: the record that
      the single write (mark paid, or record the note) returns, or the
      InvoiceNotFound that write raises. */
  function PaymentResult(m: map<int, Invoice>, invoice: Invoice, lookup: CustomerLookup, charge: ChargeOutcome): (r: Result<Invoice, Error>)
    ensures r.Success? <==> invoice.id in m
    ensures r.Failure? ==> r.error == InvoiceNotFound(invoice.id)
    ensures r.Success? ==>
              && SameInvoice(r.value, m[invoice.id])
              && r.value.note == ChargeAttempt(invoice, lookup, charge).note
              && r.value.status == if ChargeAttempt(invoice, lookup, charge).paid then PAID else m[invoice.id].status
  {
    var a := ChargeAttempt(invoice, lookup, charge);
    if a.paid then PaidRecord(m, invoice.id) else FailedRecord(m, invoice.id, a.note)
  }

  /** The table after a payment of `invoice`. */
  function AfterPayment(m: map<int, Invoice>, invoice: Invoice, lookup: CustomerLookup, charge: ChargeOutcome): (m': map<int, Invoice>)
    ensures m'.Keys == m.Keys
    ensures forall k :: k in m && k != invoice.id ==> m'[k] == m[k]
    ensures invoice.id in m ==> Success(m'[invoice.id]) == PaymentResult(m, invoice, lookup, charge)
  {
    Commit(m, invoice.id, PaymentResult(m, invoice, lookup, charge))
  }

  /** What single-invoice processing of `id` returns against table `m`. */
  function SingleInvoiceResult(m: map<int, Invoice>, id: int,
                               customers: int -> CustomerLookup, provider: Invoice -> ChargeOutcome): (r: Result<Invoice, Error>)
    requires KeyedById(m)
    ensures id !in m ==> r == Failure(InvoiceNotFound(id))
    ensures id in m && m[id].status == PAID ==> r == Failure(AlreadyPaid(id))
    ensures id in m && m[id].status == PENDING ==>
              r.Success? && r == PaymentResult(m, m[id], customers(m[id].customerId), provider(m[id]))
  {
    if id !in m then Failure(InvoiceNotFound(id))
    else
      var invoice := m[id];
      if invoice.status == PAID then Failure(AlreadyPaid(invoice.id))
      else PaymentResult(m, invoice, customers(invoice.customerId), provider(invoice))
  }

  // ---------------------------------------------------------------------
  // A batch, as values

  /** The table after paying `invoices` one after another, starting from `m`. */
  function SettleAll(m: map<int, Invoice>, invoices: seq<Invoice>,
                     customers: int -> CustomerLookup, provider: Invoice -> ChargeOutcome): (m': map<int, Invoice>)
    ensures m'.Keys == m.Keys
  {
    if invoices == [] then m
    else
      var before := SettleAll(m, invoices[..|invoices| - 1], customers, provider);
      var last := invoices[|invoices| - 1];
      AfterPayment(before, last, customers(last.customerId), provider(last))
  }

  /** The invoices of `invoices` that reach the payment provider, in order. */
  function ChargedOf(invoices: seq<Invoice>, customers: int -> CustomerLookup, provider: Invoice -> ChargeOutcome): (charged: seq<Invoice>)
    ensures forall inv :: inv in charged ==> inv in invoices
  {
    if invoices == [] then []
    else
      var last := invoices[|invoices| - 1];
      ChargedOf(invoices[..|invoices| - 1], customers, provider)
        + (if ChargeAttempt(last, customers(last.customerId), provider(last)).charged then [last] else [])
  }

  /** Paying a batch leaves every invoice outside it as it was. */
  lemma {:induction false} SettleAllElsewhere(m: map<int, Invoice>, invoices: seq<Invoice>,
                                             customers: int -> CustomerLookup, provider: Invoice -> ChargeOutcome, k: int)
    requires k in m
    requires forall inv :: inv in invoices ==> inv.id != k
    ensures SettleAll(m, invoices, customers, provider)[k] == m[k]
  {
    if invoices != [] {
      var prefix := invoices[..|invoices| - 1];
      assert forall inv :: inv in prefix ==> inv in invoices;
      SettleAllElsewhere(m, prefix, customers, provider, k);
      assert invoices[|invoices| - 1] in invoices;
    }
  }

  /** Paying a batch of distinct stored PENDING invoices never touches a PAID
      invoice, and keeps "PAID carries note NONE" true of the table. */
  lemma {:induction false} SettleAllKeepsPaid(m: map<int, Invoice>, invoices: seq<Invoice>,
                                            customers: int -> CustomerLookup, provider: Invoice -> ChargeOutcome)
    requires DistinctIds(invoices)
    requires forall inv :: inv in invoices ==> inv.id in m && m[inv.id].status == PENDING
    ensures forall k :: k in m && m[k].status == PAID ==> SettleAll(m, invoices, customers, provider)[k] == m[k]
    ensures PaidHaveNoNote(m) ==> PaidHaveNoNote(SettleAll(m, invoices, customers, provider))
  {
    var settled := SettleAll(m, invoices, customers, provider);
    forall k | k in m && m[k].status == PAID
      ensures settled[k] == m[k]
    {
      SettleAllElsewhere(m, invoices, customers, provider, k);
    }
    if invoices != [] && PaidHaveNoNote(m) {
      var prefix := invoices[..|invoices| - 1];
      var last := invoices[|invoices| - 1];
      assert forall inv :: inv in prefix ==> inv in invoices;
      SettleAllKeepsPaid(m, prefix, customers, provider);
      var before := SettleAll(m, prefix, customers, provider);
      assert last in invoices;
      EarlierIdsDiffer(invoices, |invoices| - 1);
      SettleAllElsewhere(m, prefix, customers, provider, last.id);
      assert before[last.id].status == PENDING;
    }
  }

  /** `pending` lists distinct invoices, each stored as it is and PENDING. */
  ghost predicate PendingListing(m: map<int, Invoice>, pending: seq<Invoice>) {
    && DistinctIds(pending)
    && forall inv :: inv in pending ==> inv.id in m && m[inv.id] == inv && inv.status == PENDING
  }

  /** The results of paying `invoices` one after another, starting from `m`. */
  function BatchResults(m: map<int, Invoice>, invoices: seq<Invoice>,
                        customers: int -> CustomerLookup, provider: Invoice -> ChargeOutcome): (results: seq<Invoice>)
    requires forall inv :: inv in invoices ==> inv.id in m
    ensures |results| == |invoices|
  {
    if invoices == [] then []
    else
      var prefix := invoices[..|invoices| - 1];
      var last := invoices[|invoices| - 1];
      assert last in invoices;
      var before := SettleAll(m, prefix, customers, provider);
      BatchResults(m, prefix, customers, provider)
        + [PaymentResult(before, last, customers(last.customerId), provider(last)).value]
  }

  /** One more payment extends a batch by one result, one table write and at
      most one charge, appended to whatever provider log `log` came before. */
  lemma BatchExtends(m: map<int, Invoice>, invoices: seq<Invoice>, i: nat,
                     customers: int -> CustomerLookup, provider: Invoice -> ChargeOutcome, log: seq<Invoice>)
    requires forall inv :: inv in invoices ==> inv.id in m
    requires i < |invoices|
    ensures var prefix := invoices[..i];
            var before := SettleAll(m, prefix, customers, provider);
            var invoice := invoices[i];
            var r := PaymentResult(before, invoice, customers(invoice.customerId), provider(invoice));
            && r.Success?
            && BatchResults(m, invoices[..i + 1], customers, provider) == BatchResults(m, prefix, customers, provider) + [r.value]
            && SettleAll(m, invoices[..i + 1], customers, provider)
               == AfterPayment(before, invoice, customers(invoice.customerId), provider(invoice))
            && log + ChargedOf(invoices[..i + 1], customers, provider)
               == (log + ChargedOf(prefix, customers, provider)) + ChargedOf([invoice], customers, provider)
  {
    var extended := invoices[..i + 1];
    var invoice := invoices[i];
    assert invoice in invoices;
    assert extended[..|extended| - 1] == invoices[..i] && extended[|extended| - 1] == invoice;
  }

  /** In a listing with distinct ids, no invoice before position i has the id
      of invoice i. */
  lemma EarlierIdsDiffer(invoices: seq<Invoice>, i: nat)
    requires DistinctIds(invoices) && i < |invoices|
    ensures forall inv :: inv in invoices[..i] ==> inv.id != invoices[i].id
  {
    forall inv | inv in invoices[..i] ensures inv.id != invoices[i].id {
      var j :| 0 <= j < i && invoices[..i][j] == inv;
      assert invoices[j] == inv;
    }
  }

  /** The last result of a batch over a pending listing is what
      single-invoice processing of the last invoice returns. */
  lemma LastBatchResultIsSingle(m: map<int, Invoice>, pending: seq<Invoice>,
                                customers: int -> CustomerLookup, provider: Invoice -> ChargeOutcome)
    requires KeyedById(m) && PendingListing(m, pending) && pending != []
    ensures var n := |pending| - 1;
            Success(BatchResults(m, pending, customers, provider)[n]) == SingleInvoiceResult(m, pending[n].id, customers, provider)
  {
    var n := |pending| - 1;
    var prefix := pending[..n];
    var last := pending[n];
    assert last in pending;
    EarlierIdsDiffer(pending, n);
    SettleAllElsewhere(m, prefix, customers, provider, last.id);
    var before := SettleAll(m, prefix, customers, provider);
    assert PaymentResult(before, last, customers(last.customerId), provider(last))
        == PaymentResult(m, last, customers(last.customerId), provider(last));
  }

  /** Result i of a batch over a pending listing is what single-invoice
      processing of invoice i against the original table returns. */
  lemma {:induction false} BatchResultsAreSingle(m: map<int, Invoice>, pending: seq<Invoice>,
                                               customers: int -> CustomerLookup, provider: Invoice -> ChargeOutcome)
    requires KeyedById(m) && PendingListing(m, pending)
    ensures forall j :: 0 <= j < |pending| ==>
              Success(BatchResults(m, pending, customers, provider)[j]) == SingleInvoiceResult(m, pending[j].id, customers, provider)
  {
    if pending != [] {
      var n := |pending| - 1;
      var prefix := pending[..n];
      PrefixIsListing(m, pending, n);
      BatchResultsAreSingle(m, prefix, customers, provider);
      LastBatchResultIsSingle(m, pending, customers, provider);
      BatchResultsPrefix(m, pending, customers, provider);
    }
  }

  /** A prefix of a pending listing is a pending listing. */
  lemma PrefixIsListing(m: map<int, Invoice>, pending: seq<Invoice>, n: nat)
    requires PendingListing(m, pending) && n <= |pending|
    ensures PendingListing(m, pending[..n])
  {
    assert forall inv :: inv in pending[..n] ==> inv in pending;
  }

  /** A batch's results up to its last are those of the batch without its last invoice. */
  lemma BatchResultsPrefix(m: map<int, Invoice>, invoices: seq<Invoice>,
                           customers: int -> CustomerLookup, provider: Invoice -> ChargeOutcome)
    requires forall inv :: inv in invoices ==> inv.id in m
    requires invoices != []
    ensures var n := |invoices| - 1;
            forall j :: 0 <= j < n ==>
              invoices[..n][j] == invoices[j] &&
              BatchResults(m, invoices[..n], customers, provider)[j] == BatchResults(m, invoices, customers, provider)[j]
  {
  }

  /** The PENDING listing of the invoice service is a pending listing of its table. */
  lemma PendingFetchIsListing(service: InvoiceService)
    requires service.Valid()
    ensures service.FetchAll(Some(StatusName(PENDING))).Success?
    ensures PendingListing(service.invoices, service.FetchAll(Some(StatusName(PENDING))).value)
  {
    var pending := service.FetchAll(Some(StatusName(PENDING))).value;
    forall inv | inv in pending
      ensures inv.id in service.invoices && service.invoices[inv.id] == inv && inv.status == PENDING
    {
      assert service.Holds(inv) && inv.status == PENDING;
    }
  }

  /** After a batch over a pending listing, each processed invoice's record is
      exactly the result the batch returned for it. */
  lemma {:induction false} SettleAllStoresResults(m: map<int, Invoice>, pending: seq<Invoice>,
                                                customers: int -> CustomerLookup, provider: Invoice -> ChargeOutcome)
    requires PendingListing(m, pending)
    ensures forall j :: 0 <= j < |pending| ==>
              SettleAll(m, pending, customers, provider)[pending[j].id] == BatchResults(m, pending, customers, provider)[j]
  {
    if pending != [] {
      var n := |pending| - 1;
      var prefix := pending[..n];
      var last := pending[n];
      assert last in pending;
      PrefixIsListing(m, pending, n);
      SettleAllStoresResults(m, prefix, customers, provider);
      BatchResultsPrefix(m, pending, customers, provider);
      EarlierIdsDiffer(pending, n);
      forall j | 0 <= j < n
        ensures SettleAll(m, pending, customers, provider)[pending[j].id] == BatchResults(m, pending, customers, provider)[j]
      {
        assert pending[j] == prefix[j] && prefix[j] in prefix;
      }
    }
  }

  /** The invoices of a batch that reach the provider are exactly those whose
      attempt calls it; with distinct ids, none reaches it twice. */
  lemma {:induction false} ChargedOfExactly(invoices: seq<Invoice>, customers: int -> CustomerLookup, provider: Invoice -> ChargeOutcome)
    requires DistinctIds(invoices)
    ensures forall inv :: inv in ChargedOf(invoices, customers, provider) <==>
              inv in invoices && ChargeAttempt(inv, customers(inv.customerId), provider(inv)).charged
    ensures DistinctIds(ChargedOf(invoices, customers, provider))
  {
    if invoices != [] {
      var n := |invoices| - 1;
      var prefix := invoices[..n];
      var last := invoices[n];
      assert DistinctIds(prefix);
      ChargedOfExactly(prefix, customers, provider);
      EarlierIdsDiffer(invoices, n);
      assert invoices == prefix + [last];
      var before := ChargedOf(prefix, customers, provider);
      forall i, j | 0 <= i < j < |ChargedOf(invoices, customers, provider)|
        ensures ChargedOf(invoices, customers, provider)[i].id != ChargedOf(invoices, customers, provider)[j].id
      {
        if j == |before| {
          assert before[i] in before;
        }
      }
    }
  }

  // ---------------------------------------------------------------------
  // The service

  class BillingService {
    const invoiceService: InvoiceService
    const customerService: int -> CustomerLookup
    const paymentProvider: Invoice -> ChargeOutcome
    /** Every invoice handed to the payment provider so far, in call order. */
    ghost var charges: seq<Invoice>

    constructor (invoiceService: InvoiceService, customerService: int -> CustomerLookup, paymentProvider: Invoice -> ChargeOutcome)
      ensures this.invoiceService == invoiceService
      ensures this.customerService == customerService && this.paymentProvider == paymentProvider
      ensures charges == []
    {
      this.invoiceService := invoiceService;
      this.customerService := customerService;
      this.paymentProvider := paymentProvider;
      charges := [];
    }

    /** `executePayment`: classify one charge attempt into a note, then make
        exactly one write. Errors of the write itself propagate. */
    method ExecutePayment(invoice: Invoice) returns (r: Result<Invoice, Error>)
      requires invoiceService.Valid()
      modifies this, invoiceService
      ensures invoiceService.Valid() && invoiceService.order == old(invoiceService.order)
      ensures r == PaymentResult(old(invoiceService.invoices), invoice, customerService(invoice.customerId), paymentProvider(invoice))
      ensures invoiceService.invoices == AfterPayment(old(invoiceService.invoices), invoice, customerService(invoice.customerId), paymentProvider(invoice))
      ensures charges == old(charges) + ChargedOf([invoice], customerService, paymentProvider)
    {
      var note := NONE;
      var status := false;
      match customerService(invoice.customerId) {
        case LookupThrows(e) =>
          note := Classify(e);
        case Found(customer) =>
          if customer.currency != invoice.amount.currency {
            note := DIFFERENTCURRENCY;
          } else {
            charges := charges + [invoice];
            match paymentProvider(invoice) {
              case Charged(ok) =>
                status := ok;
                if !status {
                  note := NOFUNDS;
                }
              case ChargeThrows(e) =>
                note := Classify(e);
            }
          }
      }
      if status {
        r := invoiceService.PaidInvoice(invoice);
      } else {
        r := invoiceService.FailedPaymentInvoice(invoice, note);
      }
    }

    /** `processPendingInvoice`: fetch the invoice, refuse it when already
        PAID, otherwise pay it. */
    method ProcessPendingInvoice(id: int) returns (r: Result<Invoice, Error>)
      requires invoiceService.Valid()
      modifies this, invoiceService
      ensures invoiceService.Valid() && invoiceService.order == old(invoiceService.order)
      ensures r == SingleInvoiceResult(old(invoiceService.invoices), id, customerService, paymentProvider)
      ensures r.Failure? ==> invoiceService.invoices == old(invoiceService.invoices) && charges == old(charges)
      ensures r.Success? ==>
                var invoice := old(invoiceService.invoices)[id];
                && invoiceService.invoices == AfterPayment(old(invoiceService.invoices), invoice, customerService(invoice.customerId), paymentProvider(invoice))
                && charges == old(charges) + ChargedOf([invoice], customerService, paymentProvider)
      ensures PaidHaveNoNote(old(invoiceService.invoices)) ==> PaidHaveNoNote(invoiceService.invoices)
    {
      var fetched := invoiceService.Fetch(id);
      match fetched {
        case Failure(e) =>
          r := Failure(e);
        case Success(invoice) =>
          if invoice.status == PAID {
            r := Failure(AlreadyPaid(invoice.id));
          } else {
            r := ExecutePayment(invoice);
          }
      }
    }

    /** `processAllPendingInvoices`: pay every PENDING invoice, in the order
        the listing returns them, collecting one result per invoice. */
    method ProcessAllPendingInvoices() returns (results: seq<Invoice>)
      requires invoiceService.Valid()
      modifies this, invoiceService
      ensures invoiceService.Valid() && invoiceService.order == old(invoiceService.order)
      ensures var m := old(invoiceService.invoices);
              var pending := old(invoiceService.FetchAll(Some(StatusName(PENDING)))).value;
              && |results| == |pending|
              && (forall i :: 0 <= i < |pending| ==>
                    Success(results[i]) == SingleInvoiceResult(m, pending[i].id, customerService, paymentProvider))
              && invoiceService.invoices == SettleAll(m, pending, customerService, paymentProvider)
              && charges == old(charges) + ChargedOf(pending, customerService, paymentProvider)
      ensures forall k :: k in old(invoiceService.invoices) && old(invoiceService.invoices)[k].status == PAID ==>
                invoiceService.invoices[k] == old(invoiceService.invoices)[k]
      ensures PaidHaveNoNote(old(invoiceService.invoices)) ==> PaidHaveNoNote(invoiceService.invoices)
    {
      ghost var m := invoiceService.invoices;
      var fetched := invoiceService.FetchAll(Some(StatusName(PENDING)));
      var pending := fetched.value;
      PendingFetchIsListing(invoiceService);
      results := [];
      for i := 0 to |pending|
        invariant invoiceService.Valid() && invoiceService.order == old(invoiceService.order)
        invariant results == BatchResults(m, pending[..i], customerService, paymentProvider)
        invariant invoiceService.invoices == SettleAll(m, pending[..i], customerService, paymentProvider)
        invariant charges == old(charges) + ChargedOf(pending[..i], customerService, paymentProvider)
      {
        BatchExtends(m, pending, i, customerService, paymentProvider, old(charges));
        var r := ExecutePayment(pending[i]);
        results := results + [r.value];
      }
      assert pending[..|pending|] == pending;
      BatchResultsAreSingle(m, pending, customerService, paymentProvider);
      SettleAllKeepsPaid(m, pending, customerService, paymentProvider);
    }
  }
}
