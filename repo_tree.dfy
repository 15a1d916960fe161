/**
 * The directory-listing API: `GetDirInfos` lists a path of a branch,
 * `getDirectoryEntries` assembles the listing from the entries and their
 * commits, and `GetTree` guards the tree-by-sha endpoint.
 *
 * Every operation is given twice: as a function that specifies it, about
 * which the lemmas speak, and as a method that does the work step by step
 * the way the handler does, proved equal to the function.
 */
module RepoTree {
  import opened Wrappers
  import opened Git
  import opened GoStd
  import opened Structs

  /** The branch listed when the request names none. */
  const DefaultBranch: string := "main"

  /** Entries of at most this size, of any type, are read and checked for an LFS pointer; larger ones never are. */
  const LfsPointerMaxSize: int64 := 1024

  const RawRoute: string := "/raw/branch/"
  const MediaRoute: string := "/media/branch/"

  const SubTreeFailed: string := "failed to exec SubTree, cause:"
  const ListEntriesFailed: string := "failed to exec ListEntries, cause:"
  const CommitsInfoFailed: string := "failed to exec GetCommitsInfo, cause:"

  const StatusOK: int := 200
  const StatusBadRequest: int := 400
  const StatusInternalServerError: int := 500

  /** What the handler writes back: a status, the total-count header if set, and a body. */
  datatype Body =
    | Text(text: string)
    | Entries(entries: seq<GitEntry>)
    | TreeBody(tree: GitTreeResponse)
    | ApiError(message: string)

  datatype Response = Response(status: int, totalCountHeader: Option<int>, body: Body)

  /** `files_service.GetTreeBySHA(sha, page, perPage, recursive)`, not part of this model. */
  type TreeService = (string, int, int, bool) -> Result<GitTreeResponse, Error>

  // ---------------------------------------------------------------------------
  // Specification

  /** The branch a listing request is served from. */
  function EffectiveBranch(query: string): (branch: string)
    ensures branch != ""
    ensures query != "" ==> branch == query
    ensures query == "" ==> branch == DefaultBranch
  {
    if |query| == 0 then DefaultBranch else query
  }

  /** `HTMLURL() + route + PathEscape(branch) + "/" + PathEscape(TrimPrefix(path, "/"))`. */
  function BranchUrl(paths: PathOps, htmlUrl: string, route: string, branch: string, path: string): string
  {
    htmlUrl + route + paths.pathEscape(branch) + "/" + paths.pathEscape(TrimPrefix(path, "/"))
  }

  /** The pointer read from at most the first 1024 bytes of a blob; read and parse errors are dropped. */
  function SniffedPointer(repo: Repository, lfs: Lfs, entry: TreeEntry): Pointer
  {
    lfs.readPointer(repo.blobContent(entry, LfsPointerMaxSize).0).0
  }

  /** Whether an entry is listed as an LFS object: it is small and its content is a valid pointer. */
  predicate IsLfsPointer(repo: Repository, lfs: Lfs, entry: TreeEntry)
  {
    entry.size <= LfsPointerMaxSize && lfs.isValid(SniffedPointer(repo, lfs, entry))
  }

  /** The listed record for one entry and its commit, under directory `basePath`. */
  function EntryFor(repo: Repository, lfs: Lfs, paths: PathOps, branch: string, basePath: string, c: CommitInfo): (e: GitEntry)
    // copied from the entry and the commit
    ensures e.name == c.entry.name && e.mode == c.entry.mode && e.kind == c.entry.kind
    ensures e.sha == c.commit.id && e.commitMsg == c.commit.commitMessage
    ensures e.committerDate == c.commit.committer.when
    ensures e.path == paths.join(basePath, c.entry.name)
    // the view URL never depends on the LFS status
    ensures e.url == BranchUrl(paths, repo.htmlUrl, RawRoute, branch, e.path)
    // a blob above the threshold is never treated as a pointer
    ensures c.entry.size > LfsPointerMaxSize ==> !e.isLfs
    ensures e.isLfs <==> IsLfsPointer(repo, lfs, c.entry)
    ensures e.isLfs ==>
      && e.size == SniffedPointer(repo, lfs, c.entry).size
      && e.lfsRelativePath == lfs.relativePath(SniffedPointer(repo, lfs, c.entry))
      && e.downloadUrl == BranchUrl(paths, repo.htmlUrl, MediaRoute, branch, e.path)
    ensures !e.isLfs ==> e.size == c.entry.size && e.lfsRelativePath == "" && e.downloadUrl == e.url
  {
    var path := paths.join(basePath, c.entry.name);
    var url := BranchUrl(paths, repo.htmlUrl, RawRoute, branch, path);
    var plain := GitEntry(c.entry.name, path, c.entry.mode, c.entry.kind, c.entry.size, c.commit.id,
                          url, c.commit.commitMessage, c.commit.committer.when, false, "", url);
    if c.entry.size <= LfsPointerMaxSize && lfs.isValid(SniffedPointer(repo, lfs, c.entry)) then
      var p := SniffedPointer(repo, lfs, c.entry);
      plain.(size := p.size, isLfs := true, lfsRelativePath := lfs.relativePath(p),
             downloadUrl := BranchUrl(paths, repo.htmlUrl, MediaRoute, branch, path))
    else
      plain
  }

  /** The records for a batch of attributed entries: one per item, in order. */
  function AssembleAll(repo: Repository, lfs: Lfs, paths: PathOps, branch: string, basePath: string,
                       commits: seq<CommitInfo>): (ges: seq<GitEntry>)
    ensures |ges| == |commits|
    ensures forall i :: 0 <= i < |commits| ==> ges[i] == EntryFor(repo, lfs, paths, branch, basePath, commits[i])
  {
    if commits == [] then []
    else [EntryFor(repo, lfs, paths, branch, basePath, commits[0])] + AssembleAll(repo, lfs, paths, branch, basePath, commits[1..])
  }

  /**
   * The listing of `path` at `commit`: the entry itself, attributed under its
   * parent directory, when `path` is not a tree; its children otherwise.
   */
  function DirectoryEntries(repo: Repository, lfs: Lfs, paths: PathOps, commit: Commit, branch: string,
                            path: string): (r: Result<seq<GitEntry>, Error>)
    ensures repo.treeEntryByPath(commit, path).Err? ==> r == Err(repo.treeEntryByPath(commit, path).error)
  {
    match repo.treeEntryByPath(commit, path)
    case Err(err) => Err(err)
    case Ok(entry) =>
      if entry.kind != "tree" then
        match repo.commitByPath(commit, path)
        case Err(err) => Err(err)
        case Ok(last) => Ok(AssembleAll(repo, lfs, paths, branch, paths.dir(path), [CommitInfo(entry, last)]))
      else
        match repo.subTree(commit, path)
        case Err(err) => Err(Wrapped(SubTreeFailed, err))
        case Ok(tree) =>
          match repo.listEntries(tree)
          case Err(err) => Err(Wrapped(ListEntriesFailed, err))
          case Ok(entries) =>
            match repo.commitsInfo(repo.naturalSort(entries), commit, path)
            case Err(err) => Err(Wrapped(CommitsInfoFailed, err))
            case Ok(infos) => Ok(AssembleAll(repo, lfs, paths, branch, path, infos))
  }

  /** The response to a directory-listing request with the given `branch` and `path` query values. */
  function DirInfos(repo: Repository, lfs: Lfs, paths: PathOps, branchQuery: string, pathQuery: string): (resp: Response)
    ensures resp.totalCountHeader == None
    ensures resp.status == StatusOK || resp.status == StatusInternalServerError
    ensures resp.status == StatusOK <==>
      && repo.branchCommit(EffectiveBranch(branchQuery)).Ok?
      && DirectoryEntries(repo, lfs, paths, repo.branchCommit(EffectiveBranch(branchQuery)).value,
                          EffectiveBranch(branchQuery), pathQuery).Ok?
    ensures resp.status == StatusOK ==>
      resp.body == Entries(DirectoryEntries(repo, lfs, paths, repo.branchCommit(EffectiveBranch(branchQuery)).value,
                                            EffectiveBranch(branchQuery), pathQuery).value)
  {
    var branch := EffectiveBranch(branchQuery);
    match repo.branchCommit(branch)
    case Err(err) =>
      Response(StatusInternalServerError, None, Text("failed to get branch commit, error: " + ErrorString(err)))
    case Ok(commit) =>
      match DirectoryEntries(repo, lfs, paths, commit, branch, pathQuery)
      case Err(err) =>
        Response(StatusInternalServerError, None, Text("failed to get directry entries, error: " + ErrorString(err)))
      case Ok(ges) => Response(StatusOK, None, Entries(ges))
  }

  /** The response to a tree request for `sha`. */
  function TreeResponse(service: TreeService, sha: string, page: int, perPage: int, recursive: bool): (resp: Response)
    ensures sha == "" ==> resp == Response(StatusBadRequest, None, ApiError("sha not provided"))
    ensures sha != "" ==> (resp.status == StatusOK <==> service(sha, page, perPage, recursive).Ok?)
    ensures resp.status == StatusOK ==>
      && resp.body == TreeBody(service(sha, page, perPage, recursive).value)
      && resp.totalCountHeader == Some(resp.body.tree.totalCount)
    ensures resp.status != StatusOK ==> resp.status == StatusBadRequest && resp.totalCountHeader == None
  {
    if |sha| == 0 then Response(StatusBadRequest, None, ApiError("sha not provided"))
    else
      match service(sha, page, perPage, recursive)
      case Err(err) => Response(StatusBadRequest, None, ApiError(ErrorString(err)))
      case Ok(tree) => Response(StatusOK, Some(tree.totalCount), TreeBody(tree))
  }

  // ---------------------------------------------------------------------------
  // Properties

  /** A path that is not a tree lists exactly that entry, under its parent directory; a failed attribution is returned as is. */
  lemma LeafListing(repo: Repository, lfs: Lfs, paths: PathOps, commit: Commit, branch: string, path: string)
    requires repo.treeEntryByPath(commit, path).Ok?
    requires repo.treeEntryByPath(commit, path).value.kind != "tree"
    ensures var entry := repo.treeEntryByPath(commit, path).value;
            var r := DirectoryEntries(repo, lfs, paths, commit, branch, path);
            match repo.commitByPath(commit, path)
            case Err(err) => r == Err(err)
            case Ok(last) =>
              && r.Ok? && |r.value| == 1
              && r.value[0] == EntryFor(repo, lfs, paths, branch, paths.dir(path), CommitInfo(entry, last))
              && r.value[0].name == entry.name
              && r.value[0].path == paths.join(paths.dir(path), entry.name)
              && r.value[0].sha == last.id
  {
  }

  /** A tree path lists one record per attributed child, in the attribution's order; collaborator failures come back wrapped. */
  lemma TreeListing(repo: Repository, lfs: Lfs, paths: PathOps, commit: Commit, branch: string, path: string)
    requires repo.treeEntryByPath(commit, path).Ok?
    requires repo.treeEntryByPath(commit, path).value.kind == "tree"
    ensures var r := DirectoryEntries(repo, lfs, paths, commit, branch, path);
            match repo.subTree(commit, path)
            case Err(err) => r == Err(Wrapped(SubTreeFailed, err))
            case Ok(tree) =>
              match repo.listEntries(tree)
              case Err(err) => r == Err(Wrapped(ListEntriesFailed, err))
              case Ok(entries) =>
                match repo.commitsInfo(repo.naturalSort(entries), commit, path)
                case Err(err) => r == Err(Wrapped(CommitsInfoFailed, err))
                case Ok(infos) =>
                  && r.Ok? && |r.value| == |infos|
                  && forall i :: 0 <= i < |infos| ==>
                       r.value[i] == EntryFor(repo, lfs, paths, branch, path, infos[i])
  {
  }

  /** A blob above the threshold is never read: its record is the same whatever its content and whatever the pointer reader says. */
  lemma LargeBlobNeverInspected(repo1: Repository, repo2: Repository, lfs1: Lfs, lfs2: Lfs, paths: PathOps,
                                branch: string, basePath: string, c: CommitInfo)
    requires repo1.htmlUrl == repo2.htmlUrl
    requires c.entry.size > LfsPointerMaxSize
    ensures EntryFor(repo1, lfs1, paths, branch, basePath, c) == EntryFor(repo2, lfs2, paths, branch, basePath, c)
    ensures EntryFor(repo1, lfs1, paths, branch, basePath, c).size == c.entry.size
  {
  }

  /** Errors from reading a blob or parsing its pointer are discarded: only the content and the parsed pointer matter. */
  lemma InspectionErrorsIgnored(repo1: Repository, repo2: Repository, lfs1: Lfs, lfs2: Lfs, paths: PathOps,
                                branch: string, basePath: string, c: CommitInfo)
    requires repo1.htmlUrl == repo2.htmlUrl
    requires repo1.blobContent(c.entry, LfsPointerMaxSize).0 == repo2.blobContent(c.entry, LfsPointerMaxSize).0
    requires var content := repo1.blobContent(c.entry, LfsPointerMaxSize).0;
             lfs1.readPointer(content).0 == lfs2.readPointer(content).0
    requires lfs1.isValid == lfs2.isValid && lfs1.relativePath == lfs2.relativePath
    ensures EntryFor(repo1, lfs1, paths, branch, basePath, c) == EntryFor(repo2, lfs2, paths, branch, basePath, c)
  {
  }

  /** The download URL differs from the view URL only by the media route, and only for an LFS object. */
  lemma DownloadUrlRoute(repo: Repository, lfs: Lfs, paths: PathOps, branch: string, basePath: string, c: CommitInfo)
    ensures var e := EntryFor(repo, lfs, paths, branch, basePath, c);
            e.downloadUrl == BranchUrl(paths, repo.htmlUrl, if e.isLfs then MediaRoute else RawRoute, branch, e.path)
  {
  }

  /** A name git allows for a tree entry: one non-empty path segment other than `.` and `..`. */
  predicate GitName(n: string)
  {
    n != "" && n != "." && n != ".." && '/' !in n
  }

  /**
   * When joining onto the base directory does not merge distinct entry names,
   * distinct names give distinct paths: no two records of a batch share a path.
   */
  lemma DistinctNamesGiveDistinctPaths(repo: Repository, lfs: Lfs, paths: PathOps, branch: string, basePath: string,
                                       commits: seq<CommitInfo>)
    requires forall a, b :: GitName(a) && GitName(b) && paths.join(basePath, a) == paths.join(basePath, b) ==> a == b
    requires forall i :: 0 <= i < |commits| ==> GitName(commits[i].entry.name)
    requires forall i, j :: 0 <= i < j < |commits| ==> commits[i].entry.name != commits[j].entry.name
    ensures var ges := AssembleAll(repo, lfs, paths, branch, basePath, commits);
            forall i, j :: 0 <= i < j < |ges| ==> ges[i].path != ges[j].path
  {
  }

  /** A request without a branch is served exactly as one for the default branch. */
  lemma MissingBranchIsDefault(repo: Repository, lfs: Lfs, paths: PathOps, pathQuery: string)
    ensures DirInfos(repo, lfs, paths, "", pathQuery) == DirInfos(repo, lfs, paths, DefaultBranch, pathQuery)
  {
  }

  /** A tree request without a sha is refused whatever the tree service would have answered. */
  lemma MissingShaIgnoresService(service1: TreeService, service2: TreeService, page: int, perPage: int, recursive: bool)
    ensures TreeResponse(service1, "", page, perPage, recursive) == TreeResponse(service2, "", page, perPage, recursive)
    ensures TreeResponse(service1, "", page, perPage, recursive).status == StatusBadRequest
  {
  }

  // ---------------------------------------------------------------------------
  // Handlers

  /** `getDirectoryEntries`: looks the path up, gathers the attributed entries, then builds one record per entry. */
  method GetDirectoryEntries(repo: Repository, lfs: Lfs, paths: PathOps, commit: Commit, branch: string, path: string)
    returns (r: Result<seq<GitEntry>, Error>)
    ensures r == DirectoryEntries(repo, lfs, paths, commit, branch, path)
  {
    var commits: seq<CommitInfo> := [];
    var basePath := path;
    var found := repo.treeEntryByPath(commit, path);
    if found.Err? {
      return Err(found.error);
    }
    var entry := found.value;
    if entry.kind != "tree" {
      var last := repo.commitByPath(commit, path);
      if last.Err? {
        return Err(last.error);
      }
      commits := commits + [CommitInfo(entry, last.value)];
      basePath := paths.dir(path);
    } else {
      var tree := repo.subTree(commit, path);
      if tree.Err? {
        return Err(Wrapped(SubTreeFailed, tree.error));
      }
      var allEntries := repo.listEntries(tree.value);
      if allEntries.Err? {
        return Err(Wrapped(ListEntriesFailed, allEntries.error));
      }
      var sorted := repo.naturalSort(allEntries.value);
      var infos := repo.commitsInfo(sorted, commit, path);
      if infos.Err? {
        return Err(Wrapped(CommitsInfoFailed, infos.error));
      }
      commits := infos.value;
    }
    assert DirectoryEntries(repo, lfs, paths, commit, branch, path)
        == Ok(AssembleAll(repo, lfs, paths, branch, basePath, commits));
    var ges := AssembleEntries(repo, lfs, paths, branch, basePath, commits);
    return Ok(ges);
  }

  /**
   * The loop of `getDirectoryEntries`: one record per commit info, each built
   * from the entry and the commit and then overridden when the blob is an
   * LFS pointer.
   */
  method AssembleEntries(repo: Repository, lfs: Lfs, paths: PathOps, branch: string, basePath: string,
                         commits: seq<CommitInfo>) returns (ges: seq<GitEntry>)
    ensures ges == AssembleAll(repo, lfs, paths, branch, basePath, commits)
  {
    ges := [];
    var i := 0;
    while i < |commits|
      invariant 0 <= i <= |commits|
      invariant |ges| == i
      invariant forall k :: 0 <= k < i ==> ges[k] == EntryFor(repo, lfs, paths, branch, basePath, commits[k])
    {
      var c := commits[i];
      var e := GitEntry(c.entry.name, paths.join(basePath, c.entry.name), c.entry.mode, c.entry.kind,
                        c.entry.size, c.commit.id, "", c.commit.commitMessage, c.commit.committer.when,
                        false, "", "");
      e := e.(url := repo.htmlUrl + RawRoute + paths.pathEscape(branch) + "/" + paths.pathEscape(TrimPrefix(e.path, "/")));
      e := e.(downloadUrl := e.url);
      if c.entry.size <= LfsPointerMaxSize {
        var (content, _) := repo.blobContent(c.entry, LfsPointerMaxSize);
        var (p, _) := lfs.readPointer(content);
        if lfs.isValid(p) {
          e := e.(size := p.size);
          e := e.(isLfs := true);
          e := e.(lfsRelativePath := lfs.relativePath(p));
          e := e.(downloadUrl := repo.htmlUrl + MediaRoute + paths.pathEscape(branch) + "/" + paths.pathEscape(TrimPrefix(e.path, "/")));
        }
      }
      assert e == EntryFor(repo, lfs, paths, branch, basePath, c);
      ges := ges + [e];
      i := i + 1;
    }
  }

  /** `GetDirInfos`: defaults the branch, resolves its commit and lists the requested path. */
  method GetDirInfos(repo: Repository, lfs: Lfs, paths: PathOps, branchQuery: string, pathQuery: string)
    returns (resp: Response)
    ensures resp == DirInfos(repo, lfs, paths, branchQuery, pathQuery)
  {
    var branch := branchQuery;
    if |branch| == 0 {
      branch := DefaultBranch;
    }
    var commit := repo.branchCommit(branch);
    if commit.Err? {
      return Response(StatusInternalServerError, None, Text("failed to get branch commit, error: " + ErrorString(commit.error)));
    }
    var path := pathQuery;
    var entries := GetDirectoryEntries(repo, lfs, paths, commit.value, branch, path);
    if entries.Err? {
      return Response(StatusInternalServerError, None, Text("failed to get directry entries, error: " + ErrorString(entries.error)));
    }
    return Response(StatusOK, None, Entries(entries.value));
  }

  /** `GetTree`: refuses a missing sha, otherwise delegates to the tree service and reports its total count. */
  method GetTree(service: TreeService, sha: string, page: int, perPage: int, recursive: bool) returns (resp: Response)
    ensures resp == TreeResponse(service, sha, page, perPage, recursive)
  {
    if |sha| == 0 {
      return Response(StatusBadRequest, None, ApiError("sha not provided"));
    }
    var tree := service(sha, page, perPage, recursive);
    if tree.Err? {
      return Response(StatusBadRequest, None, ApiError(ErrorString(tree.error)));
    }
    return Response(StatusOK, Some(tree.value.totalCount), TreeBody(tree.value));
  }
}
