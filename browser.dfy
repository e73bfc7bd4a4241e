/** The browser values the components receive: picked or dropped files. */
module Browser {

  /** A `File`: its name, its MIME type (`file.type`) and its modification time. */
  datatype File = File(name: string, mimeType: string, lastModified: int)

  /** `s.startsWith(prefix)`. */
  predicate StartsWith(s: string, prefix: string) {
    |prefix| <= |s| && s[..|prefix|] == prefix
  }
}
