/** `get_mime_type`: the MIME subtype the server sends for a stored file. */
module Mime {
  import opened Strings

  /** `get_mime_type(filepath)` */
  function MimeType(filepath: string): (r: string)
    ensures r in {"x-gzip", "x-xz", "auto"}
    ensures r == "x-gzip" <==> EndsWith(filepath, ".tgz")
    ensures r == "x-xz" <==> EndsWith(filepath, ".txz")
  {
    if EndsWith(filepath, ".tgz") then "x-gzip"
    else if EndsWith(filepath, ".txz") then "x-xz"
    else "auto"
  }

  /** The type depends only on the last four characters of the path. */
  lemma MimeTypeBySuffix(a: string, b: string)
    requires |a| >= 4 && |b| >= 4 && a[|a| - 4..] == b[|b| - 4..]
    ensures MimeType(a) == MimeType(b)
  {
  }

  /** Whatever precedes the extension does not matter; a path shorter than an extension is `auto`. */
  lemma MimeTypeOfExtension(stem: string, path: string)
    requires |path| < 4
    ensures MimeType(stem + ".tgz") == "x-gzip" && MimeType(stem + ".txz") == "x-xz"
    ensures MimeType(path) == "auto"
  {
    ConcatEnds(stem, ".tgz");
    ConcatEnds(stem, ".txz");
  }
}
