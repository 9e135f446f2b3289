/** The in-app paths the pages navigate to. */
module Routes {

  /** `/search?query=` followed by the URI-encoded query; `encode` stands for
      `encodeURIComponent`. */
  function SearchPath(query: string, encode: string -> string): (path: string)
    ensures |path| >= 14 && path[..14] == "/search?query=" && path[14..] == encode(query)
  {
    "/search?query=" + encode(query)
  }

  /** `/card/` followed by the printing's uuid. */
  function CardPath(uuid: string): (path: string)
    ensures |path| >= 6 && path[..6] == "/card/" && path[6..] == uuid
  {
    "/card/" + uuid
  }
}
