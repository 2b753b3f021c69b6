/** What one HTTP call to a downstream service can come back with, as seen
    after `raise_for_status()` and `.json()`. */
module Http {
  import opened Py

  datatype Response =
      /** A success status with a JSON body. */
    | Reply(body: Json)
      /** A success status whose body is not JSON: `.json()` raises. */
    | NotJson
      /** `httpx.RequestError`: connection refused, timeout, ... */
    | TransportErr(msg: string)
      /** `httpx.HTTPStatusError`: a status `raise_for_status()` rejects. */
    | StatusErr(code: int, text: string)
}
