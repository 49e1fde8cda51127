/** The request struct of the Project3 revision: five public fields set by
    its one constructor, with no validation. */
module Project3Requests {

  datatype Request = Request(
    source: string,
    destination: string,
    processTime: int,
    jobType: char,
    arrivalTime: int)

  /** `Request("", "", 0, ' ', 0)`: what the Project3 queue hands back when it
      is empty and what a Project3 server holds before its first request. */
  const EmptyRequest: Request := Request("", "", 0, ' ', 0)
}
