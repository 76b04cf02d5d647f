/** The HTTP responses both gateways produce, reduced to what the protocol needs. */
module Http {

  /** Stored and transferred content, byte by byte. */
  type Blob = seq<bv8>

  /**
   * A response body: text written by the handler, the bytes of a stored
   * object, a bundled static asset (served by code outside this model), or nothing.
   */
  datatype Body = Text(text: string) | Data(bytes: Blob) | Asset(name: string) | NoBody

  datatype Response = Response(status: int, headers: map<string, string>, body: Body)

  const TextPlain := "text/plain; charset=utf-8"
  const OctetStream := "application/octet-stream"

  /** The headers every download response carries so that no cache keeps a one-time object. */
  const NoCacheHeaders: map<string, string> :=
    map["Cache-Control" := "no-cache, no-store, must-revalidate", "Pragma" := "no-cache", "Expires" := "0"]
}
