/**
 * The session collaborator both clients delegate to. Its transport (HTTP, JSON and
 * multipart encoding, authentication) is not modelled: each call only appends a record
 * of what it was handed to a ghost log and returns an arbitrary reply and error.
 */
module Openai {
  import opened Wrappers
  import Url

  /**
   * One call on the session. `B` is the type of the request bodies it serialises and
   * `R` the type of the responses it decodes.
   */
  datatype Call<B, R> =
    | RequestCall(endpoint: string, body: B, reply: R, err: Error)
    | UploadCall(endpoint: string, format: string, fields: Url.Values, reply: R, err: Error)
    | DownloadCall(endpoint: string, body: B, err: Error)

  class Session<B, R(0)> {
    /** Every call made on this session, oldest first. */
    ghost var log: seq<Call<B, R>>

    constructor ()
      ensures log == []
    {
      log := [];
    }

    /** `MakeRequest`: posts `body` as JSON to `endpoint` and decodes the JSON reply. */
    method MakeRequest(endpoint: string, body: B) returns (reply: R, err: Error)
      modifies this
      ensures log == old(log) + [RequestCall(endpoint, body, reply, err)]
    {
      reply := *;
      err := *;
      log := log + [RequestCall(endpoint, body, reply, err)];
    }

    /** `Upload`: posts a multipart form with the audio file and `fields`, decodes the JSON reply. */
    method Upload(endpoint: string, format: string, fields: Url.Values) returns (reply: R, err: Error)
      modifies this
      ensures log == old(log) + [UploadCall(endpoint, format, fields, reply, err)]
    {
      reply := *;
      err := *;
      log := log + [UploadCall(endpoint, format, fields, reply, err)];
    }

    /** `Download`: posts `body` as JSON to `endpoint` and streams the reply to the caller's writer. */
    method Download(endpoint: string, body: B) returns (err: Error)
      modifies this
      ensures log == old(log) + [DownloadCall(endpoint, body, err)]
    {
      err := *;
      log := log + [DownloadCall(endpoint, body, err)];
    }
  }
}
