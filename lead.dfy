/** The body of the POST to the lead endpoint `/api/contact`, shared by both forms. */
module Lead {
  datatype ContactRequest = ContactRequest(name: string, phone: string, message: string)
}
