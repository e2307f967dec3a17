/** The records the billing engine passes around: the invoice data assembled
    by `validate_and_submit` and the ledger entry written by `log_invoice`. */
module Records {
  /** Payment states. Only "Paid" and "Unpaid" are offered by the forms;
      "Partial" is only ever read. */
  const Paid: string := "Paid"
  const Unpaid: string := "Unpaid"
  const Partial: string := "Partial"

  /** The dictionary `invoice_data` that `generate_pdf` renders. Amounts are
      kept as the text typed into the form, as the source keeps them. */
  datatype InvoiceData = InvoiceData(
    name: string,
    customerId: string,
    tenantName: string,
    customerAddress: string,
    customerGstin: string,
    billingFrom: string,
    billingTo: string,
    plan: string,
    months: string,
    totalAmount: string,
    discount: string,
    lateFee: string,
    invoiceNum: int,
    pdfFilename: string,
    customNotes: string,
    paymentStatus: string,
    paymentMethod: string)

  /** One record of `invoice_log.json`. */
  datatype Entry = Entry(
    filename: string,
    datetime: string,
    invoiceNum: string,
    customerName: string,
    customerId: string,
    amount: string,
    status: string,
    paymentDate: string,
    paymentMethod: string)
}
