/**
 * What the request handlers under app/src/pages/api/playlists/ answer, reduced to the
 * status and the payload that matters, and the JavaScript truthiness of a request field.
 */
module Http {
  import opened Wrappers
  import opened Playlists
  import opened PlaylistStore

  datatype Response =
    | Created(playlist: Playlist)          // 201 with the new playlist
    | Listed(config: PlaylistsConfig)     // 200 with the configuration
    | Ok                                  // 200 `{ success: true }`
    | BadRequest                          // 400
    | NotFound                            // 404
    | ServerError                         // 500
  {
    function Status(): int {
      match this
      case Created(_) => 201
      case Listed(_) => 200
      case Ok => 200
      case BadRequest => 400
      case NotFound => 404
      case ServerError => 500
    }
  }

  /** A handler's answer, the disk it leaves behind and the id generator's position after it. */
  datatype Handled = Handled(response: Response, disk: Disk, next: nat)

  /** `!!field` for a string field of a JSON body: false when missing, null or "". */
  predicate Truthy(field: Option<string>) {
    field.Some? && field.value != ""
  }

  /** A handler's answer once its save has run: true is `success`, false is 500, and a throw is caught as 400. */
  function AfterSave(result: Completion<bool>, success: Response): Response {
    match result
    case Threw => BadRequest
    case Normal(ok) => if ok then success else ServerError
  }
}
