/** The backend collaborator, as the launch pipeline sees it: a response that may carry
    a final destination, or an error. */
module Backend {
  import opened Wrappers
  import opened Urls

  /** The decoded response body. */
  datatype BackendLinkResponse = BackendLinkResponse(finalURL: Option<Url>)

  /** `invalidURL` is declared by the client but never thrown; `invalidResponse` is a
      non-2xx (or non-HTTP) response; `decodingFailed` a body that did not decode;
      `Transport` stands for the error the URL session itself throws, which the client
      lets through unchanged. */
  datatype BackendError = InvalidURL | InvalidResponse | BodyDecodingFailed | Transport
}
