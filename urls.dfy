/** Foundation's `URL`, seen only through the two things the core reads from it. */
module Urls {
  import opened Wrappers

  /** A parsed URL: its text and its scheme, as `URL.absoluteString` and `URL.scheme`
      report them. How `URL(string:)` parses text is not part of this model: every
      caller receives the parser as a parameter. */
  datatype Url = Url(absoluteString: string, scheme: Option<string>)
}
