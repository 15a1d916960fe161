/** The few Go standard-library string and path functions the listing uses. */
module GoStd {

  /**
   * `filepath.Join`, `filepath.Dir` and `url.PathEscape`, left uninterpreted.
   * `pathEscape` is applied to a whole string at once, exactly as the caller
   * does; nothing is assumed about how it treats separators.
   */
  datatype PathOps = PathOps(
    join: (string, string) -> string,
    dir: string -> string,
    pathEscape: string -> string
  )

  /** `strings.TrimPrefix`: drops one leading occurrence of `prefix`, if there is one. */
  function TrimPrefix(s: string, prefix: string): (r: string)
    ensures prefix <= s ==> prefix + r == s
    ensures !(prefix <= s) ==> r == s
  {
    if prefix <= s then s[|prefix|..] else s
  }
}
