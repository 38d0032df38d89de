/** The invoice service: reads of the invoice table (all, by status, by id)
    and the two writes the billing service makes (mark paid, record a failure
    note). The table is a map from invoice id to invoice record. */
module Invoices {
  import opened Models

  // ---------------------------------------------------------------------
  // Status filter parsing

  /** The characters Kotlin's `Char.isWhitespace` accepts: the Java
      whitespace controls and every Unicode space, line or paragraph
      separator. */
  predicate IsWhitespace(c: char) {
    var n := c as int;
    (0x09 <= n <= 0x0D) || (0x1C <= n <= 0x20) || n == 0xA0 || n == 0x1680
    || (0x2000 <= n <= 0x200A) || n == 0x2028 || n == 0x2029 || n == 0x202F
    || n == 0x205F || n == 0x3000
  }

  /** Kotlin's `isNullOrBlank`: absent, empty, or whitespace only. */
  predicate IsNullOrBlank(s: Option<string>) {
    match s
    case None => true
    case Some(t) => forall i :: 0 <= i < |t| ==> IsWhitespace(t[i])
  }

  /** A string is blank exactly when both of its parts are. */
  lemma {:induction false} BlankConcat(a: string, b: string)
    ensures IsNullOrBlank(Some(a + b)) <==> IsNullOrBlank(Some(a)) && IsNullOrBlank(Some(b))
  {
    if IsNullOrBlank(Some(a + b)) {
      forall i | 0 <= i < |a| ensures IsWhitespace(a[i]) {
        assert (a + b)[i] == a[i];
      }
      forall i | 0 <= i < |b| ensures IsWhitespace(b[i]) {
        assert (a + b)[|a| + i] == b[i];
      }
    }
  }

  /** Which filters count as blank: spaces, tabs, line breaks and the Unicode
      space separators do; a zero-width space or a padded status name does not. */
  lemma BlankExamples()
    ensures IsNullOrBlank(None) && IsNullOrBlank(Some(""))
    ensures IsNullOrBlank(Some(" \t\r\n"))
    ensures IsNullOrBlank(Some("\U{00A0}\U{2007}\U{2028}\U{3000}"))
    ensures !IsNullOrBlank(Some("\U{200B}"))
    ensures !IsNullOrBlank(Some(" PAID "))
  {
    assert " PAID "[1] == 'P';
    assert "\U{200B}"[0] == '\U{200B}';
  }

  /** The name `toString` gives a status constant. */
  function StatusName(st: InvoiceStatus): (name: string)
    ensures !IsNullOrBlank(Some(name))
  {
    var name := match st case PENDING => "PENDING" case PAID => "PAID";
    assert name[0] == 'P' && !IsWhitespace('P');
    name
  }

  /** `InvoiceStatus.valueOf`: accepts exactly the name of a constant, nothing
      trimmed and no change of case. */
  function ParseStatus(s: string): (r: Option<InvoiceStatus>)
    ensures r.Some? ==> StatusName(r.value) == s
    ensures forall st :: s == StatusName(st) ==> r == Some(st)
  {
    if s == "PENDING" then Some(PENDING)
    else if s == "PAID" then Some(PAID)
    else None
  }

  // ---------------------------------------------------------------------
  // The table and its listings

  /** Every record is stored under its own id (the table's primary key). */
  ghost predicate KeyedById(m: map<int, Invoice>) {
    forall id :: id in m ==> m[id].id == id
  }

  /** Every PAID invoice carries note NONE. */
  ghost predicate PaidHaveNoNote(m: map<int, Invoice>) {
    forall id :: id in m && m[id].status == PAID ==> m[id].note == NONE
  }

  /** No id occurs twice. */
  predicate Distinct(ids: seq<int>) {
    forall i, j :: 0 <= i < j < |ids| ==> ids[i] != ids[j]
  }

  /** The ids of `rows`, in order. */
  function Ids(rows: seq<Invoice>): (ids: seq<int>)
    ensures |ids| == |rows| && forall i :: 0 <= i < |rows| ==> ids[i] == rows[i].id
  {
    seq(|rows|, i requires 0 <= i < |rows| => rows[i].id)
  }

  /** No two rows carry the same invoice id. */
  predicate DistinctIds(rows: seq<Invoice>) {
    Distinct(Ids(rows))
  }

  /** Whether a status filter (absent: no filter) lets an invoice through. */
  predicate Admits(filter: Option<InvoiceStatus>, inv: Invoice) {
    filter.None? || inv.status == filter.value
  }

  /** The records stored under `ids`, in that order, that `filter` admits. */
  function Select(m: map<int, Invoice>, ids: seq<int>, filter: Option<InvoiceStatus>): (rows: seq<Invoice>)
    requires KeyedById(m)
    requires forall id :: id in ids ==> id in m
    requires Distinct(ids)
    ensures forall inv :: inv in rows <==> inv.id in ids && inv.id in m && m[inv.id] == inv && Admits(filter, inv)
    ensures DistinctIds(rows)
  {
    if ids == [] then []
    else
      var id := ids[0];
      assert id in ids;
      var inv := m[id];
      var rest := Select(m, ids[1..], filter);
      assert forall r :: r in rest ==> inv.id != r.id by {
        forall r | r in rest ensures inv.id != r.id {
          var k :| 0 <= k < |ids[1..]| && ids[1..][k] == r.id;
          assert ids[k + 1] == r.id;
        }
      }
      if Admits(filter, inv) then [inv] + rest else rest
  }

  // ---------------------------------------------------------------------
  // The two writes, as values

  /** Same invoice identity, customer and amount. */
  predicate SameInvoice(a: Invoice, b: Invoice) {
    a.id == b.id && a.customerId == b.customerId && a.amount == b.amount
  }

  /** What the table's "mark paid" returns for `id`. */
  function PaidRecord(m: map<int, Invoice>, id: int): (r: Result<Invoice, Error>)
    ensures r.Success? <==> id in m
    ensures r.Failure? ==> r.error == InvoiceNotFound(id)
    ensures r.Success? ==> SameInvoice(r.value, m[id]) && r.value.status == PAID && r.value.note == NONE
  {
    if id in m then Success(m[id].(status := PAID, note := NONE))
    else Failure(InvoiceNotFound(id))
  }

  /** What the table's "record failure note" returns for `id`. */
  function FailedRecord(m: map<int, Invoice>, id: int, note: InvoiceNote): (r: Result<Invoice, Error>)
    ensures r.Success? <==> id in m
    ensures r.Failure? ==> r.error == InvoiceNotFound(id)
    ensures r.Success? ==> SameInvoice(r.value, m[id]) && r.value.status == m[id].status && r.value.note == note
  {
    if id in m then Success(m[id].(note := note))
    else Failure(InvoiceNotFound(id))
  }

  /** The table after a write under `id` that returned `r`; a failed write
      changes nothing. */
  function Commit(m: map<int, Invoice>, id: int, r: Result<Invoice, Error>): (m': map<int, Invoice>)
    requires r.Success? ==> id in m
    ensures m'.Keys == m.Keys
    ensures forall k :: k in m && (r.Failure? || k != id) ==> m'[k] == m[k]
    ensures r.Success? ==> m'[id] == r.value
  {
    if r.Success? then m[id := r.value] else m
  }

  // ---------------------------------------------------------------------
  // The service

  class InvoiceService {
    /** The invoice table, by id. */
    var invoices: map<int, Invoice>
    /** The table's row order: every id once, in the order listings return them. */
    var order: seq<int>

    ghost predicate Valid()
      reads this
    {
      && KeyedById(invoices)
      && Distinct(order)
      && (forall id :: id in order <==> id in invoices)
    }

    constructor (table: map<int, Invoice>, rows: seq<int>)
      requires KeyedById(table) && Distinct(rows)
      requires forall id :: id in rows <==> id in table
      ensures Valid() && invoices == table && order == rows
    {
      invoices, order := table, rows;
    }

    /** `inv` is exactly the record stored under its id. */
    predicate Holds(inv: Invoice)
      reads this
    {
      inv.id in invoices && invoices[inv.id] == inv
    }

    /** `fetchByStatus`: the invoices of the named status, or StatusNotFound
        when the name is not exactly a status constant. */
    function FetchByStatus(status: string): (r: Result<seq<Invoice>, Error>)
      reads this
      requires Valid()
      ensures forall st :: status == StatusName(st) ==>
                r.Success? && forall inv :: inv in r.value <==> Holds(inv) && inv.status == st
      ensures (forall st :: status != StatusName(st)) ==> r == Failure(StatusNotFound(status))
      ensures r.Success? ==> DistinctIds(r.value)
    {
      match ParseStatus(status)
      case None => Failure(StatusNotFound(status))
      case Some(st) => Success(Select(invoices, order, Some(st)))
    }

    /** `fetchAll`: every invoice when the filter is absent or blank,
        otherwise those of the named status. */
    function FetchAll(status: Option<string>): (r: Result<seq<Invoice>, Error>)
      reads this
      requires Valid()
      ensures IsNullOrBlank(status) ==> r.Success? && forall inv :: inv in r.value <==> Holds(inv)
      ensures forall st :: status == Some(StatusName(st)) ==>
                r.Success? && forall inv :: inv in r.value <==> Holds(inv) && inv.status == st
      ensures !IsNullOrBlank(status) && (forall st :: status.value != StatusName(st)) ==>
                r == Failure(StatusNotFound(status.value))
      ensures r.Success? ==> DistinctIds(r.value)
    {
      if IsNullOrBlank(status) then Success(Select(invoices, order, None))
      else FetchByStatus(status.value)
    }

    /** `fetch`: the invoice stored under `id`, or InvoiceNotFound. */
    function Fetch(id: int): (r: Result<Invoice, Error>)
      reads this
      requires Valid()
      ensures id in invoices <==> r.Success?
      ensures r.Success? ==> Holds(r.value) && r.value.id == id
      ensures r.Failure? ==> r.error == InvoiceNotFound(id)
    {
      if id in invoices then Success(invoices[id]) else Failure(InvoiceNotFound(id))
    }

    /** `paidInvoice`: marks the stored invoice with the given id PAID. */
    method PaidInvoice(invoice: Invoice) returns (r: Result<Invoice, Error>)
      requires Valid()
      modifies this
      ensures Valid() && order == old(order)
      ensures r == PaidRecord(old(invoices), invoice.id)
      ensures invoices == Commit(old(invoices), invoice.id, r)
    {
      r := PaidRecord(invoices, invoice.id);
      if r.Success? {
        invoices := invoices[invoice.id := r.value];
      }
    }

    /** `failedPaymentInvoice`: stores `note` on the invoice with the given id. */
    method FailedPaymentInvoice(invoice: Invoice, note: InvoiceNote) returns (r: Result<Invoice, Error>)
      requires Valid()
      modifies this
      ensures Valid() && order == old(order)
      ensures r == FailedRecord(old(invoices), invoice.id, note)
      ensures invoices == Commit(old(invoices), invoice.id, r)
    {
      r := FailedRecord(invoices, invoice.id, note);
      if r.Success? {
        invoices := invoices[invoice.id := r.value];
      }
    }
  }
}
