/** The records the API returns. */
module Structs {
  import opened Git

  /** One listed item: its attributed commit, its URLs and its LFS status. */
  datatype GitEntry = GitEntry(
    name: string,
    path: string,
    mode: string,
    kind: string,
    size: int64,
    sha: string,
    url: string,
    commitMsg: string,
    committerDate: Time,
    isLfs: bool,
    lfsRelativePath: string,
    downloadUrl: string
  )

  /** A page of a tree listing, as produced by the tree-by-sha service. */
  datatype GitTreeResponse = GitTreeResponse(
    sha: string,
    url: string,
    entries: seq<GitEntry>,
    truncated: bool,
    page: int,
    totalCount: int
  )
}
