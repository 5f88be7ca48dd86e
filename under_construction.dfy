/**
 * The under-construction page's "Go Back" link. `decodeURIComponent` is the
 * parameter `decode`.
 */
module UnderConstruction {
  import opened Wrappers
  import opened Text

  /** `searchParams.from ? decodeURIComponent(searchParams.from) : undefined`. */
  function FromPath(from: Option<string>, decode: string -> string): (r: Option<string>)
    ensures from.None? || from.value == "" ==> r == None
    ensures from.Some? && from.value != "" ==> r == Some(decode(from.value))
  {
    if from.Some? && from.value != "" then Some(decode(from.value)) else None
  }

  /** The link's `href`: an absent, empty or root path goes home; anything else goes up from the path. */
  function BackHref(fromPath: Option<string>): (href: string)
    ensures fromPath.None? || fromPath.value == "" || fromPath.value == "/" ==> href == "/"
    ensures fromPath.Some? && fromPath.value != "" && fromPath.value != "/" ==>
      href == ".." + (if StartsWith(fromPath.value, "/") then fromPath.value else "/" + fromPath.value)
  {
    if fromPath.Some? && fromPath.value != "" && fromPath.value != "/" then
      var p := fromPath.value;
      ".." + (if StartsWith(p, "/") then p else "/" + p)
    else "/"
  }

  /** Every link other than the home link starts with "../". */
  lemma BackHrefShape(fromPath: Option<string>)
    ensures BackHref(fromPath) == "/" || StartsWith(BackHref(fromPath), "../")
  {
  }

  /** The link never points at home for a real path: home is reached exactly from an absent, empty or root path. */
  lemma BackHrefHomeIff(fromPath: Option<string>)
    ensures BackHref(fromPath) == "/" <==> fromPath.None? || fromPath.value == "" || fromPath.value == "/"
  {
  }

  /**
   * After its "../", the link holds the path without its leading slash: that much of the
   * path is recoverable ("/x" and "x" give the same link).
   */
  lemma BackHrefRecoversPath(fromPath: Option<string>)
    requires fromPath.Some? && fromPath.value != "" && fromPath.value != "/"
    ensures BackHref(fromPath)[3..] == if StartsWith(fromPath.value, "/") then fromPath.value[1..] else fromPath.value
  {
  }
}
