/** Values shared by the portal's form pages: optional values, the files a
    browser file input yields, and the outcome of a `fetch` call. */
module Shared {

  datatype Option<+T> = None | Some(value: T)

  /** A file picked in a browser file input. The pages only store it, so its
      name, MIME type and size stand for the whole `File` object. */
  datatype File = File(name: string, mimeType: string, size: nat)

  /** `e.target.files`: null, or the list of picked files (empty when the
      picker was dismissed). */
  type FileList = Option<seq<File>>

  /** `e.target.files && e.target.files[0]`: the first picked file, if any. */
  function FirstFile(files: FileList): Option<File>
  {
    if files.Some? && |files.value| > 0 then Some(files.value[0]) else None
  }

  /** JavaScript truthiness of a string: only the empty string is falsy. */
  predicate Truthy(s: string)
  {
    s != ""
  }

  /** The outcome of `fetch(...)` followed by `response.json()`: the promise
      was rejected with an error message, the response was not 2xx, or it
      was 2xx with a decoded body. */
  datatype Response<T> = Rejected(message: string) | NotOk | Ok(body: T)
}
