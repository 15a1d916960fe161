/**
 * The values the tree listing receives from git and from the LFS pointer
 * reader. The object store, the history walk and the pointer grammar are not
 * part of this model: each appears as a function-valued field of a record, so
 * every property proved below holds whatever those collaborators return.
 */
module Git {
  import opened Wrappers

  /** Go's `int64`. */
  newtype int64 = x: int | -0x8000_0000_0000_0000 <= x < 0x8000_0000_0000_0000

  /** Go's `time.Time`, left uninterpreted: it is only copied. */
  type Time(==)

  datatype Signature = Signature(name: string, email: string, when: Time)

  /** A commit; `id` is the commit's object id in its textual form (`ID.String()`). */
  datatype Commit = Commit(id: string, commitMessage: string, committer: Signature)

  /**
   * An entry of a git tree: `mode` is the rendered file mode
   * (`Mode().String()`), `kind` the object type (`Type()`: "blob", "tree",
   * "commit" for a submodule) and `size` the stored byte size.
   */
  datatype TreeEntry = TreeEntry(id: string, name: string, mode: string, kind: string, size: int64)

  /** A handle on a (sub)tree, only ever passed back to `listEntries`. */
  datatype Tree = Tree(id: string)

  /** An entry paired with the last commit that touched it. */
  datatype CommitInfo = CommitInfo(entry: TreeEntry, commit: Commit)

  /** An error; `Wrapped(context, cause)` is what `fmt.Errorf(context + "%w", cause)` builds. */
  datatype Error = GitError(message: string) | Wrapped(context: string, cause: Error)

  /** `err.Error()`: a wrapped error's text is its context followed by its cause's text. */
  function ErrorString(e: Error): string
  {
    match e
    case GitError(m) => m
    case Wrapped(context, cause) => context + ErrorString(cause)
  }

  /**
   * The repository as the handler sees it. Each field stands for one call
   * into code this model does not include:
   * - `htmlUrl`: `Repository.HTMLURL()`;
   * - `branchCommit`: `GitRepo.GetBranchCommit(branch)`;
   * - `treeEntryByPath`, `commitByPath`, `subTree`: the methods of `Commit`
   *   with those names, applied to the given commit;
   * - `listEntries`: `Tree.ListEntries()`;
   * - `naturalSort`: `Entries.CustomSort(base.NaturalSortLess)`;
   * - `commitsInfo`: `Entries.GetCommitsInfo(ctx, commit, path)` (its second
   *   result, the tree's own commit, is discarded by the caller and left out);
   * - `blobContent`: `Entry.Blob().GetBlobContent(limit)`, content and error.
   */
  datatype Repository = Repository(
    htmlUrl: string,
    branchCommit: string -> Result<Commit, Error>,
    treeEntryByPath: (Commit, string) -> Result<TreeEntry, Error>,
    commitByPath: (Commit, string) -> Result<Commit, Error>,
    subTree: (Commit, string) -> Result<Tree, Error>,
    listEntries: Tree -> Result<seq<TreeEntry>, Error>,
    naturalSort: seq<TreeEntry> -> seq<TreeEntry>,
    commitsInfo: (seq<TreeEntry>, Commit, string) -> Result<seq<CommitInfo>, Error>,
    blobContent: (TreeEntry, int64) -> (string, Option<Error>)
  )

  /** An LFS pointer: the object id and the logical size it declares. */
  datatype Pointer = Pointer(oid: string, size: int64)

  /**
   * The LFS pointer reader: `lfs.ReadPointerFromBuffer` (pointer and error),
   * `Pointer.IsValid()` and `Pointer.RelativePath()`.
   */
  datatype Lfs = Lfs(
    readPointer: string -> (Pointer, Option<Error>),
    isValid: Pointer -> bool,
    relativePath: Pointer -> string
  )
}
