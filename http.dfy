/** What the views read from an incoming request. */
module Http {
  import opened Wrappers
  import opened Models

  datatype HttpMethod = GET | POST | PUT | PATCH | DELETE | HEAD | OPTIONS

  /**
   * The caller (None when unauthenticated), the HTTP method (`verb`), the view action
   * the router chose (`list`, `create`, `retrieve`, ...) and the query
   * parameters, one value per key.
   */
  datatype Request = Request(user: Option<UserId>, verb: HttpMethod, action: string, query: map<string, string>)
}
