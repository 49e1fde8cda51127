/** The request value of request.cpp. Both constructors are the datatype
    constructor (the default one is `DefaultRequest`), and the five const
    getters are the datatype's destructors, so nothing can mutate a request
    and no field is validated: any process time and any job-type character
    is accepted. */
module Requests {

  datatype Request = Request(
    ipIn: string,
    ipOut: string,
    processTime: int,
    jobType: char,
    arrivalTime: int)

  /** What `Request()` builds; also what a dequeue from an empty queue returns. */
  const DefaultRequest: Request := Request("", "", 0, ' ', 0)
}
