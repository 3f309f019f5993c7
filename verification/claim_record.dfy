/** The claim body the page posts and the API route reads:
    `{ orderNumber, username, email, items }`. */
module ClaimRecords {

  datatype ClaimRecord = ClaimRecord(orderNumber: string, username: string, email: string, items: string)

  /** Every field is truthy, which is all the API route demands of a claim. */
  predicate Complete(r: ClaimRecord) {
    r.orderNumber != "" && r.username != "" && r.email != "" && r.items != ""
  }
}
