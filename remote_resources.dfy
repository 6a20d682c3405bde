/** The values a caller hands to a remote provider: the kinds of remote
    resource a URL can be asked for, and how a URL request settles. */
module RemoteResources {
  import opened Wrappers

  /** Comparison notation: `..` (two-dot) or `...` (three-dot). */
  datatype Notation = TwoDot | ThreeDot

  /** An editor selection, passed through to the file builders untouched. */
  datatype Range = Range(startLine: nat, startCharacter: nat, endLine: nat, endCharacter: nat)

  datatype PullRequestRemote = PullRequestRemote(path: string, url: string)

  /** The branch a pull request targets; the branch may be left open. */
  datatype PullRequestBase = PullRequestBase(branch: Option<string>, remote: PullRequestRemote)

  /** The branch whose commits a pull request proposes. */
  datatype PullRequestHead = PullRequestHead(branch: string, remote: PullRequestRemote)

  datatype PullRequestOptions = PullRequestOptions(title: Option<string>, description: Option<string>)

  /** One requested link. `Tag` is a resource kind that has no builder wired up. */
  datatype RemoteResource =
    | Branch(branch: string)
    | Branches
    | Commit(sha: string)
    | Comparison(base: string, compare: string, notation: Option<Notation>)
    | CreatePullRequest(pullBase: PullRequestBase, pullCompare: PullRequestHead)
    | File(fileName: string, branchOrTag: Option<string>, range: Option<Range>)
    | Repo
    | Revision(fileName: string, branchOrTag: Option<string>, revisionSha: Option<string>, range: Option<Range>)
    | Tag(tag: string)

  /** The argument of `copy` and `open`: one resource or an array of them. */
  datatype Resources = One(resource: RemoteResource) | Many(resources: seq<RemoteResource>)

  /** The resources a batch covers, in the caller's order. */
  function Items(r: Resources): seq<RemoteResource>
  {
    match r
    case One(x) => [x]
    case Many(xs) => xs
  }

  /** What asking a builder for a URL comes to: a URL or `undefined`, returned
      directly or by a promise that fulfils; a promise that rejects; or an
      exception thrown before any promise exists. */
  datatype Outcome = Resolved(url: Option<string>) | Rejected | Threw

  /** How a promise of a `T` settles. */
  datatype Settled<T> = Fulfilled(value: T) | Failed
}
