/** HTTP notions shared by the scan screen and the login form. */
module Http {

  /** `response.ok`: a status in the range 200-299. */
  predicate IsOk(status: int)
  {
    200 <= status <= 299
  }
}
