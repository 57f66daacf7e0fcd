/**
 * What a handler produces: a value, or a client-error envelope carrying an
 * HTTP status and the cause that selected it.  The message texts of the
 * envelopes are not modelled; the cause names which check failed.
 */
module Outcomes {

  const StatusBadRequest: int := 400
  const StatusNotFound: int := 404

  datatype Option<+T> = None | Some(value: T)

  /** Which check rejected the request. */
  datatype Cause =
    | MissingParameter   // an id or a search string is required
    | BadJson            // the request body did not bind
    | BadSort            // sort field outside its whitelist
    | BadOrder           // sort order other than asc/desc
    | BadSource          // source the document-type table does not know
    | BadMax             // page size above 150 (or negative, where checked)
    | BadType            // dictionary type outside its whitelist
    | TooManyIds         // more than 24 ids in one request
    | BadValueRange      // negative or inverted nutrient value range
    | StoreError         // the datastore call failed

  datatype Outcome<+T> = Ok(value: T) | Fail(status: int, cause: Cause)
}
