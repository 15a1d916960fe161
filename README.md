# Directory listing of a git repository's API

This project models the directory-listing endpoint of a Gitea-based git
server (`routers/api/v1/repo/tree.go`). Given a branch and a path, the
handler resolves the branch's commit and looks the path up. It then lists
that path as `GitEntry` records (the record of `modules/structs/repo_tree.go`).
A path that names a blob, symlink or submodule lists that one entry,
attributed under its parent directory. A path that names a tree lists the
tree's children, each paired with the last commit that touched it.

Each record copies its name, mode and type from the tree entry and its sha,
message and committer date from the commit. Its path is the base directory
joined with the name. Its view URL is
`HTMLURL + "/raw/branch/" + PathEscape(branch) + "/" + PathEscape(TrimPrefix(path, "/"))`.
An entry of any type whose size is at most 1024 bytes is read, and its
content is parsed as an LFS pointer. When the pointer is valid, the record takes the pointer's size and
relative path, is marked as LFS, and its download URL moves to the
`/media/branch/` route. Otherwise the download URL is the view URL. Errors
from reading or parsing the blob are dropped. A request without a branch
lists `main`. The tree-by-sha endpoint refuses a request without a sha with
status 400 before it calls the tree service.

Files:

- `wrappers.dfy`: `Option` and `Result`.
- `git.dfy`: the git values (tree entries, commits, errors) and the
  collaborators as records of functions. `Repository` stands for the git
  calls and `HTMLURL()`. `Lfs` stands for the pointer reader.
- `gostd.dfy`: `strings.TrimPrefix`, defined. `filepath.Join`,
  `filepath.Dir` and `url.PathEscape` are uninterpreted (`PathOps`).
- `structs.dfy`: `GitEntry` and `GitTreeResponse`, field for field.
- `repo_tree.dfy`: the specification functions, the lemmas, and the
  handlers and their loop as methods proved equal to those functions.

The handlers are imperative, as in the source. `GetDirectoryEntries` fills
the list of commit infos and reassigns the base path in the leaf case. It
then hands the list to `AssembleEntries`, the source's `for` loop written as
a `while` loop that appends one record per item. Each record is built and
then has its fields overwritten. `GetDirInfos` reassigns the branch. The functions
`EntryFor`, `AssembleAll`, `DirectoryEntries`, `DirInfos` and `TreeResponse`
specify them, and the lemmas are stated about these functions.

Notes on the handler's behaviour:

- `url.PathEscape` is applied once to the whole trimmed path
  (tree.go:95).
- The 1024-byte threshold is inclusive (tree.go:98).
- The record's path is `filepath.Join`'s result unchanged; only the URL
  strips one leading `/`.

## Model

| member | source | states |
|---|---|---|
| `GoStd.TrimPrefix` | routers/api/v1/repo/tree.go:95 | A string that starts with the prefix is the prefix followed by the result; any other string is returned unchanged. |
| `RepoTree.EffectiveBranch` | routers/api/v1/repo/tree.go:23-26 | The branch used is never empty: a given branch is kept and an empty one becomes `main`. |
| `RepoTree.EntryFor` | routers/api/v1/repo/tree.go:85-107 | Name, mode and type come from the entry; sha, message and committer date come from the commit; path is `Join(base, name)`; the URL is always the raw-route URL. The record is LFS iff size ≤ 1024 and the sniffed pointer is valid. If LFS: size and relative path come from the pointer and the download URL uses the media route. Otherwise: raw size, empty relative path, download URL equals URL. Size > 1024 is never LFS. |
| `RepoTree.AssembleAll` | routers/api/v1/repo/tree.go:83-109 | Exactly one record per commit info, in the same order: record i is `EntryFor` of item i. |
| `RepoTree.DirectoryEntries` | routers/api/v1/repo/tree.go:41-112 | An error from the initial path lookup is returned unchanged. |
| `RepoTree.LeafListing` | routers/api/v1/repo/tree.go:46-63 | For a non-`tree` entry: an error from the commit lookup is returned unchanged. Otherwise the result is exactly one record with the entry's name and the commit's sha. Its path is `Join(Dir(path), name)`. |
| `RepoTree.TreeListing` | routers/api/v1/repo/tree.go:65-81 | For a tree: `SubTree`, `ListEntries` and `GetCommitsInfo` errors come back wrapped with their messages. Otherwise there is one record per commit info of the sorted children, in order, under `path`. |
| `RepoTree.LargeBlobNeverInspected` | routers/api/v1/repo/tree.go:97-107 | An entry over 1024 bytes gets the same record whatever its content and the pointer reader, with its raw size. |
| `RepoTree.InspectionErrorsIgnored` | routers/api/v1/repo/tree.go:98-101 | The record depends only on the content read and the pointer parsed, never on their error results. |
| `RepoTree.DownloadUrlRoute` | routers/api/v1/repo/tree.go:95-105 | The download URL is the view URL's construction with the media route for an LFS record and the raw route otherwise. |
| `RepoTree.DistinctNamesGiveDistinctPaths` | routers/api/v1/repo/tree.go:84-87 | If joining onto the base never merges two valid git entry names (non-empty, not `.` or `..`, no `/`), and the entries' names are valid and distinct, then no two records share a path. |
| `RepoTree.DirInfos` | routers/api/v1/repo/tree.go:21-39 | Status 200 with the listing iff the effective branch's commit resolves and the listing succeeds; otherwise 500. No total-count header. |
| `RepoTree.MissingBranchIsDefault` | routers/api/v1/repo/tree.go:23-27 | A request without a branch gets the same response as one for `main`. |
| `RepoTree.TreeResponse` | routers/api/v1/repo/tree.go:160-170 | An empty sha gives 400 "sha not provided". Otherwise the status is 200 iff the service succeeds; the body is then the service's tree and the total-count header is its total count. A service error gives 400. |
| `RepoTree.MissingShaIgnoresService` | routers/api/v1/repo/tree.go:160-164 | With an empty sha the response is 400 and is the same whatever the tree service would return. |
| `RepoTree.GetDirectoryEntries` | routers/api/v1/repo/tree.go:41-112 | The step-by-step handler gathers the commit infos, moves the base path to `Dir(path)` in the leaf case, and returns exactly `DirectoryEntries`. |
| `RepoTree.AssembleEntries` | routers/api/v1/repo/tree.go:83-109 | The append loop, with each record built and then overridden field by field when the blob is a valid pointer, returns exactly `AssembleAll` of its input. |
| `RepoTree.GetDirInfos` | routers/api/v1/repo/tree.go:21-39 | The handler that reassigns the branch returns exactly `DirInfos`. |
| `RepoTree.GetTree` | routers/api/v1/repo/tree.go:115-171 | The handler returns exactly `TreeResponse`. |

## Left out

- Git object store and history: `GetBranchCommit`, `GetTreeEntryByPath`, `GetCommitByPath`, `SubTree`, `ListEntries`, `GetCommitsInfo` and `GetBlobContent` belong to modules/git, which is not part of this model. They are function-valued fields of `Repository`. Nothing is claimed about how a commit is attributed to an entry.
- Natural sort: `CustomSort(base.NaturalSortLess)` is the uninterpreted `naturalSort`. No ordering is claimed beyond the fact that the loop keeps the order of the commit infos.
- LFS pointer parsing: `lfs.ReadPointerFromBuffer`, `IsValid` and `RelativePath` are the uninterpreted fields of `Lfs`.
- `files_service.GetTreeBySHA` (pagination, recursion, truncation) is the uninterpreted `TreeService`. `ctx.FormInt`/`ctx.FormBool` parsing is replaced by the values they produce.
- `filepath.Join`, `filepath.Dir` and `url.PathEscape` are uninterpreted. Path normalisation and escaping rules are therefore not modelled.
- Go strings are byte strings, and the `[]byte(content)` conversion is the identity. The model uses `string` (a sequence of characters) for both.
- HTTP plumbing: JSON serialisation, the layout of `ctx.Error`'s body and the request context are left out. The response is a value with a status, an optional total-count header and a body. The assignment to `ctx.Repo.Commit` is modelled as the resolved commit being passed to `GetDirectoryEntries`.
- In the leaf case the handler also appends the entry to a local `allEntries` list that is never read afterwards. The model leaves that list out.
- `time.Time` is an opaque type that is only copied.
- Every commit info is assumed to carry a commit. `GetCommitsInfo` (modules/git) can leave `CommitInfo.Commit` nil for an entry whose last commit it did not find; the loop then dereferences it (tree.go:91-93) and the handler panics. The model has no such case.
