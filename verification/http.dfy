/** The HTTP responses the handlers build. Rendering is not modelled: an SVG card is
    represented by what was rendered, not by its markup. */
module Http {
  import opened Wrappers

  type Headers = map<string, string>

  datatype Body =
    /** `renderError({ message, secondaryMessage, renderOptions: { show_repo_link } })`. */
    | ErrorCard(message: string, secondary: Option<string>, showRepoLink: Option<bool>)
    /** A rendered card of fetched data; `content` stands for the data handed to the renderer. */
    | Card(content: string)
    /** `JSON.stringify` of an object whose members are string-valued, in insertion order. */
    | Json(members: seq<(string, string)>)

  datatype Response = Response(status: int, headers: Headers, body: Body)

  const SvgContentType: Headers := map["Content-Type" := "image/svg+xml"]
  const JsonContentType: Headers := map["Content-Type" := "application/json"]
}
