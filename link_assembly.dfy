/** Link assembly: the request URL sent to the backend is
    `https://` + host + path + `?data=` + base64(utf8(query)). */
module LinkAssembly {
  import opened Wrappers
  import opened Urls
  import opened RemoteConfig
  import opened Tracking
  import Base64
  import Utf8

  const SchemePrefix: string := "https://"
  const DataQuery: string := "?data="

  /** Everything before the encoded query: host and path are joined with no separator
      and no normalisation. */
  function Prefix(parts: RemoteLinkParts): string {
    SchemePrefix + parts.host + parts.path + DataQuery
  }

  /** The value of the `data` parameter: padded standard base64 of the query's UTF-8
      octets. Its characters leave no room for another `?`, `&` or `#`, so the parameter
      runs to the end of the URL. */
  function DataValue(query: string): (d: string)
    ensures |d| % 4 == 0
    ensures Base64.InAlphabet(d)
    ensures forall i :: 0 <= i < |d| ==> d[i] != '?' && d[i] != '&' && d[i] != '#'
  {
    Base64.Encode(Utf8.Encode(query))
  }

  /** The text handed to `URL(string:)`: host and path joined with no separator between
      `https://` and `?data=`, then the data value. */
  function BackendURLString(parts: RemoteLinkParts, query: string): (t: string)
    ensures t == Prefix(parts) + DataValue(query)
  {
    var encoded := DataValue(query);
    var combinedPath := parts.host + parts.path;
    var t := SchemePrefix + combinedPath + DataQuery + encoded;
    assert t == Prefix(parts) + encoded;
    t
  }

  /** The assembled text carries the query: its data value decodes back to exactly the
      query. */
  lemma {:induction false} AssembledTextCarries(parts: RemoteLinkParts, query: string)
    ensures Carries(BackendURLString(parts, query), parts, query)
  {
    SplitJoin(Prefix(parts), DataValue(query));
    Base64.DecodeEncode(Utf8.Encode(query));
    Utf8.DecodeEncode(query);
  }

  /** `text` starts with the prefix for `parts`, and the rest of it base64-decodes and
      then UTF-8-decodes to exactly `query`: the relation the backend relies on to read
      the payload back. */
  predicate Carries(text: string, parts: RemoteLinkParts, query: string) {
    var prefix := Prefix(parts);
    && |prefix| <= |text|
    && text[..|prefix|] == prefix
    && match Base64.Decode(text[|prefix|..])
       case None => false
       case Some(octets) => Utf8.Decode(octets) == Some(query)
  }

  /** A text that carries a query is the prefix followed by the query's data value:
      decoding is canonical. */
  lemma {:induction false} CarriedIsAssembled(text: string, parts: RemoteLinkParts, query: string)
    requires Carries(text, parts, query)
    ensures text == Prefix(parts) + DataValue(query)
  {
    var prefix := Prefix(parts);
    var d := text[|prefix|..];
    var octets := Base64.Decode(d).value;
    assert Utf8.Decode(octets) == Some(query);
    Utf8.EncodeDecode(octets);
    Base64.EncodeDecode(d);
    SplitAt(text, |prefix|);
  }

  /** A text is its first `k` characters followed by the rest. */
  lemma SplitAt(text: string, k: nat)
    requires k <= |text|
    ensures text == text[..k] + text[k..]
  {
  }

  /** A concatenation splits back into its parts. */
  lemma SplitJoin(prefix: string, rest: string)
    ensures (prefix + rest)[..|prefix|] == prefix && (prefix + rest)[|prefix|..] == rest
  {
  }

  /** At most one text carries a given query for given parts. */
  lemma CarriesUnique(t1: string, t2: string, parts: RemoteLinkParts, query: string)
    requires Carries(t1, parts, query) && Carries(t2, parts, query)
    ensures t1 == t2
  {
    CarriedIsAssembled(t1, parts, query);
    CarriedIsAssembled(t2, parts, query);
  }

  /** The request URL for a payload: the URL parsed from the one text that carries the
      payload's query string. The serialisation `toQueryString` and the URL parser are
      collaborators passed in; UTF-8 conversion cannot fail, so the result is None
      exactly when the parser rejects that text. */
  function BuildBackendURL(
    parts: RemoteLinkParts,
    payload: TrackingPayload,
    toQueryString: TrackingPayload -> string,
    parseURL: string -> Option<Url>): (r: Option<Url>)
    ensures exists text :: Carries(text, parts, toQueryString(payload)) && r == parseURL(text)
    ensures forall text :: Carries(text, parts, toQueryString(payload)) ==> r == parseURL(text)
  {
    var query := toQueryString(payload);
    var text := BackendURLString(parts, query);
    AssembledTextCarries(parts, query);
    forall t | Carries(t, parts, query)
      ensures t == text
    {
      CarriesUnique(t, text, parts, query);
    }
    parseURL(text)
  }
}
