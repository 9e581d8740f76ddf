/**
 * The shapes of the remote album API's JSON bodies, reduced to the members
 * the gallery and the indexing script inspect.
 */
module ApiData {
  import opened Wrappers

  /** One image of an album: its Google Drive file id and its file name. */
  datatype Image = Image(id: string, name: string)

  /** One album folder: its id and its display name. */
  datatype Folder = Folder(id: string, name: string)

  /**
   * A decoded JSON body. `images` and `folders` are `None` when the member is
   * absent or is not an array (`Array.isArray` fails).
   */
  datatype Body = Body(images: Option<seq<Image>>, folders: Option<seq<Folder>>)

  /** `response.ok`: the status is in the range 200-299. */
  predicate IsOk(status: nat) {
    200 <= status <= 299
  }
}
