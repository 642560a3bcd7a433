/** The two records the invoice generator passes around: the draft invoice the
    form edits, and the tax breakdown derived from it. */
module Types {

  datatype Option<+T> = None | Some(value: T)

  /** One invoice as the form holds it. The GSTIN and address keys are
      optional: an absent key and an empty string are both "no value". */
  datatype InvoiceData = InvoiceData(
    customer_name: string,
    customer_email: string,
    customer_gstin: Option<string>,
    customer_address: Option<string>,
    description: string,
    mrp: real,
    discount: real,
    date: string,
    invoice_no: string,
    order_no: string)

  /** The tax-inclusive breakdown of one invoice's discounted price. */
  datatype CalculatedAmounts = CalculatedAmounts(
    taxableAmount: real,
    gstAmount: real,
    totalAmount: real,
    cgst: real,
    sgst: real)
}
