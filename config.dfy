/** The constant lists of the crawler's configuration module, as literals. */
module Config {

  /** Joins the text of the pages in `get_all_pages_content`. */
  const ContentSeparator: string := "\n\n"

  /** Substrings that disqualify a link (media and documents, web resources,
      resource paths, common libraries, legal pages, other irrelevant paths). */
  const ExcludePatterns: seq<string> := [
    ".pdf", ".jpg", ".png", ".mp4", ".avi", ".svg", ".jpeg", ".gif", ".webp",
    ".js", ".css", ".min.js", ".map",
    "/wp-content/", "/wp-includes/", "/plugins/", "/themes/",
    "jquery", "bootstrap", "fontawesome",
    "/terminos", "/condiciones", "/cookies", "/privacidad",
    "cdn.", "/wp-json/", "/feed/", "/embed/"
  ]

  /** Substrings that move a link to the front of the crawl order. */
  const PriorityPatterns: seq<string> := ["/productos", "/seguros", "/coberturas", "/siniestros", "/contacto"]

}
