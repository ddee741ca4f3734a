/**
 * What the services' plain HTTP endpoints answer, and how a service's own
 * address is written.
 */
module Http {
  import opened Json
  import Seqs

  /** A JSON body, or an `HTTPException` with its status code and detail text. */
  datatype HttpReply = Success(body: Object) | HttpError(status: int, detail: string)

  /** `f"http://{host}:{port}"` */
  function Endpoint(host: string, port: nat): string {
    "http://" + host + ":" + Seqs.NatToString(port)
  }
}
