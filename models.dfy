/** The records the billing core works on: invoices, customers, amounts, the
    outcome notes stored on invoices, and the request-level errors the services
    raise. */
module Models {

  datatype Option<+T> = None | Some(value: T)

  /** An operation's value, or the error (exception) it raised. */
  datatype Result<+T, +E> = Success(value: T) | Failure(error: E)

  /** Currency codes carried by amounts and customers. */
  datatype Currency = EUR | USD | DKK | SEK | GBP

  /** A monetary amount. The billing logic only ever compares the currency. */
  datatype Money = Money(value: real, currency: Currency)

  datatype InvoiceStatus = PENDING | PAID

  /** The outcome tag stored on an invoice after a charge attempt; NONE means
      "paid" or "never attempted". */
  datatype InvoiceNote = NONE | NOFUNDS | NETWORKERROR | DIFFERENTCURRENCY | NOCUSTOMER | OTHER

  datatype Invoice = Invoice(id: int, customerId: int, amount: Money, status: InvoiceStatus, note: InvoiceNote)

  datatype Customer = Customer(id: int, currency: Currency)

  /** The exceptions the invoice and billing services let reach their callers. */
  datatype Error =
    | InvoiceNotFound(id: int)
    | AlreadyPaid(id: int)
    | StatusNotFound(status: string)
}
