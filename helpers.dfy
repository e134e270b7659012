/**
 * The firmware's string helpers: the MIME type the web server sends for a
 * file, and the virtual button a web-socket command names.
 */
module Helpers {
  import opened Common

  predicate EndsWith(s: string, suffix: string)
  {
    |suffix| <= |s| && s[|s| - |suffix|..] == suffix
  }

  /** A name ends with at most one of the four known extensions. */
  lemma SuffixesExclusive(s: string)
    ensures EndsWith(s, ".html") ==> !EndsWith(s, ".css") && !EndsWith(s, ".js") && !EndsWith(s, ".svg")
    ensures EndsWith(s, ".css") ==> !EndsWith(s, ".js") && !EndsWith(s, ".svg")
    ensures EndsWith(s, ".js") ==> !EndsWith(s, ".svg")
  {
    if EndsWith(s, ".html") {
      assert s[|s| - 1] == ".html"[4];
    }
    if EndsWith(s, ".css") {
      assert s[|s| - 1] == ".css"[3] && s[|s| - 3] == ".css"[1];
    }
    if EndsWith(s, ".js") {
      assert s[|s| - 1] == ".js"[2] && s[|s| - 3] == ".js"[0];
    }
  }

  /**
   * `getMimeType`: the four known extensions by suffix, "text/plain" for
   * anything else. The suffixes exclude each other, so the order in which
   * they are tried does not matter.
   */
  function GetMimeType(fileName: string): (mime: string)
    ensures mime == "text/html" <==> EndsWith(fileName, ".html")
    ensures mime == "text/css" <==> EndsWith(fileName, ".css")
    ensures mime == "text/javascript" <==> EndsWith(fileName, ".js")
    ensures mime == "image/svg+xml" <==> EndsWith(fileName, ".svg")
    ensures mime == "text/plain" <==>
      !EndsWith(fileName, ".html") && !EndsWith(fileName, ".css") &&
      !EndsWith(fileName, ".js") && !EndsWith(fileName, ".svg")
  {
    SuffixesExclusive(fileName);
    if EndsWith(fileName, ".html") then "text/html"
    else if EndsWith(fileName, ".css") then "text/css"
    else if EndsWith(fileName, ".js") then "text/javascript"
    else if EndsWith(fileName, ".svg") then "image/svg+xml"
    else "text/plain"
  }

  /** The MIME type depends only on the extension: any prefix before a known suffix is irrelevant. */
  lemma MimeTypeIgnoresStem(stem1: string, stem2: string, ext: string)
    requires ext in {".html", ".css", ".js", ".svg"}
    ensures GetMimeType(stem1 + ext) == GetMimeType(stem2 + ext)
  {
    assert (stem1 + ext)[|stem1 + ext| - |ext|..] == ext;
    assert (stem2 + ext)[|stem2 + ext| - |ext|..] == ext;
  }

  /** `toVirtualButtonType`: exactly "OPEN" and exactly "CLOSE" are recognised; anything else activates. */
  function ToVirtualButtonType(button: string): (t: VirtualButtonType)
    ensures t == OpenButton <==> button == "OPEN"
    ensures t == CloseButton <==> button == "CLOSE"
    ensures t == ActivateButton <==> button != "OPEN" && button != "CLOSE"
  {
    if button == "OPEN" then OpenButton
    else if button == "CLOSE" then CloseButton
    else ActivateButton
  }
}
