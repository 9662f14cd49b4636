/**
 * What the core sees of the HTTP client. APIClient.swift is not part of this
 * model: a request is recorded by the service that sends it, and the reply is
 * a parameter of the operation (an oracle), either a decoded value or an error.
 */
module ApiModel {

  /** The errors `APIClient.send` throws as `APIError`. */
  datatype APIError =
    | HttpStatus(code: int)
    | Decoding(cause: string)
    | InvalidURL
    | InvalidResponse

  /** Anything `send` can throw: an `APIError`, or another error (a transport failure). */
  datatype SendError = Api(error: APIError) | Transport(description: string)

  datatype HttpMethod = Get | Post | Delete

  /** A request as sent: method and path (bodies are recorded separately where they matter). */
  datatype Endpoint = Endpoint(verb: HttpMethod, path: string)
}
