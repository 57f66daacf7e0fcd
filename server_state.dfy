/**
 * The package-level `err` variable of the server (api/main.go).  Several
 * handlers, and the UPC lookup they share, assign to it instead of to a
 * local; `nutrientFdcIDs` reads it.  Only whether it holds an error matters
 * to that reader.
 */
module ServerState {

  class PackageState {
    var err: bool
  }
}
