/** The base shared by every git hosting service: the identity of a remote
    (domain, path, protocol, display name), the dispatch of a remote resource
    to the service's URL builder, and the batch `copy` and `open` operations
    that keep whatever URLs could be produced. */
module RemoteProviders {
  import opened Wrappers
  import opened Strings
  import opened RemoteResources

  /** What one hosting service supplies on top of the shared base: its own
      name, its issue link template and the URL builders. A builder that the
      service leaves to the base is `None`. Builders are free functions here:
      every property below holds whatever they compute. */
  datatype Host = Host(
    name: string,
    gkProviderId: Option<string>,
    issueLinkPattern: string,
    urlForBranch: string -> Outcome,
    urlForBranches: Outcome,
    urlForCommit: string -> Outcome,
    urlForComparison: (string, string, Notation) -> Outcome,
    urlForCreatePullRequest: Option<(PullRequestBase, PullRequestHead, Option<PullRequestOptions>) -> Outcome>,
    urlForFile: (string, Option<string>, Option<string>, Option<Range>) -> Outcome,
    urlForRepository: Option<Outcome>,
    crossForkReady: Option<bool>)

  datatype AutolinkReference = AutolinkReference(
    url: string, prefix: string, title: string, referenceType: string, alphanumeric: bool, ignoreCase: bool)

  datatype ProviderDesc = ProviderDesc(id: string, repoDomain: string, repoName: string)

  /** `repoDesc`: the repository as its owner and name. */
  datatype RepoDesc = RepoDesc(owner: string, name: string)

  // ---------------------------------------------------------------------------
  // Identity

  /** The path cut at its first `/`: the owner before it and the repository
      name after it. With no `/`, `indexOf` gives -1, so the owner is empty and
      the name is the whole path. */
  function SplitPath(path: string): (string, string)
  {
    var i := IndexOf(path, '/');
    (Substring(path, 0, i), SubstringFrom(path, i + 1))
  }

  lemma SplitPathAtFirstSlash(path: string)
    ensures '/' in path ==>
      SplitPath(path).0 + "/" + SplitPath(path).1 == path && '/' !in SplitPath(path).0
    ensures '/' !in path ==> SplitPath(path) == ("", path)
  {
    var i := IndexOf(path, '/');
    if '/' in path {
      SplitAtFirst(path, '/');
      assert Substring(path, 0, i) == path[..i];
      assert SubstringFrom(path, i + 1) == path[i + 1..];
    } else {
      assert SubstringFrom(path, 0) == path[0..|path|] == path;
    }
  }

  /** The remote key: `domain/path`, or the bare path when there is no domain. */
  function RemoteKeyOf(domain: string, path: string): string
  {
    if domain != "" then domain + "/" + path else path
  }

  /** A remote key cut at its first `/` gives back the domain and the path, when
      the domain holds no `/`. */
  lemma RemoteKeySplitsBack(domain: string, path: string)
    requires domain != "" && '/' !in domain
    ensures SplitPath(RemoteKeyOf(domain, path)) == (domain, path)
  {
    var key := RemoteKeyOf(domain, path);
    IndexOfAfter(domain, '/', path);
    assert key == domain + ['/'] + path;
    assert Substring(key, 0, |domain|) == key[..|domain|] == domain;
    assert SubstringFrom(key, |domain| + 1) == key[|domain| + 1..] == path;
  }

  /** Two remotes with a domain share a key only if they share domain and path. */
  lemma RemoteKeyInjective(domain1: string, path1: string, domain2: string, path2: string)
    requires domain1 != "" && '/' !in domain1
    requires domain2 != "" && '/' !in domain2
    requires RemoteKeyOf(domain1, path1) == RemoteKeyOf(domain2, path2)
    ensures domain1 == domain2 && path1 == path2
  {
    RemoteKeySplitsBack(domain1, path1);
    RemoteKeySplitsBack(domain2, path2);
  }

  // ---------------------------------------------------------------------------
  // URL encoding

  /** `s.replace(/#/g, '%23')` */
  function EscapeHash(s: string): (r: string)
    ensures '#' !in r
    ensures '#' !in s ==> r == s
    ensures |r| >= |s|
  {
    if s == [] then [] else (if s[0] == '#' then "%23" else [s[0]]) + EscapeHash(s[1..])
  }

  /** The reverse replacement, `%23` back to `#`. */
  function UnescapeHash(t: string): string
  {
    if |t| >= 3 && EscapedHashAt(t, 0) then "#" + UnescapeHash(t[3..])
    else if t == [] then []
    else [t[0]] + UnescapeHash(t[1..])
  }

  /** `s` holds `%23` at position `i`. */
  predicate EscapedHashAt(s: string, i: nat)
    requires i + 3 <= |s|
  {
    s[i] == '%' && s[i + 1] == '2' && s[i + 2] == '3'
  }

  /** `s` holds no `%23` of its own. */
  predicate NoEscapedHash(s: string)
  {
    forall i: nat :: i + 3 <= |s| ==> !EscapedHashAt(s, i)
  }

  lemma EscapeHashFirst(s: string)
    requires s != []
    ensures EscapeHash(s)[0] == if s[0] == '#' then '%' else s[0]
    ensures s[0] != '#' ==> EscapeHash(s)[1..] == EscapeHash(s[1..])
  {
  }

  lemma NoEscapedHashTail(s: string)
    requires s != [] && NoEscapedHash(s)
    ensures NoEscapedHash(s[1..])
  {
    var rest := s[1..];
    forall i: nat | i + 3 <= |rest| ensures !EscapedHashAt(rest, i) {
      assert !EscapedHashAt(s, i + 1);
    }
  }

  /** Escaping a text that starts with anything but `#` cannot create a leading
      `%23` unless the text already started with one. */
  lemma EscapeHashNoNewLead(s: string)
    requires s != [] && s[0] != '#' && NoEscapedHash(s)
    ensures !(|EscapeHash(s)| >= 3 && EscapedHashAt(EscapeHash(s), 0))
  {
    var e := EscapeHash(s);
    if |e| >= 3 && EscapedHashAt(e, 0) {
      EscapeHashFirst(s);
      var rest := s[1..];
      var er := EscapeHash(rest);
      assert er[0] == '2' && er[1] == '3';
      EscapeHashFirst(rest);
      var rest2 := rest[1..];
      EscapeHashFirst(rest2);
      assert EscapedHashAt(s, 0);
      assert false;
    }
  }

  /** Replacing `#` loses nothing: the reverse replacement recovers the text,
      as long as it did not already hold `%23`. */
  lemma {:induction false} UnescapeEscapeHash(s: string)
    requires NoEscapedHash(s)
    ensures UnescapeHash(EscapeHash(s)) == s
  {
    if s != [] {
      var rest := s[1..];
      NoEscapedHashTail(s);
      UnescapeEscapeHash(rest);
      var e := EscapeHash(s);
      if s[0] == '#' {
        assert e == "%23" + EscapeHash(rest);
        assert EscapedHashAt(e, 0) && e[3..] == EscapeHash(rest);
        assert UnescapeHash(e) == "#" + rest;
      } else {
        EscapeHashFirst(s);
        EscapeHashNoNewLead(s);
        assert UnescapeHash(e) == [s[0]] + UnescapeHash(EscapeHash(rest));
      }
      assert s == [s[0]] + rest;
    }
  }

  /** `encodeUrl`: the platform encoder (`encode`, not part of this model)
      followed by the escape of `#`, so that no `#` can start a fragment
      (section 3.5 of RFC 3986). An absent URL stays absent. */
  function EncodeUrl(url: Option<string>, encode: string -> string): (r: Option<string>)
    ensures r.None? <==> url.None?
    ensures r.Some? ==> '#' !in r.value
    ensures r.Some? ==> r.value == EscapeHash(encode(url.value))
    ensures r.Some? && NoEscapedHash(encode(url.value)) ==> UnescapeHash(r.value) == encode(url.value)
  {
    match url
    case None => None
    case Some(u) =>
      var e := encode(u);
      if NoEscapedHash(e) then UnescapeEscapeHash(e); Some(EscapeHash(e))
      else Some(EscapeHash(e))
  }

  // ---------------------------------------------------------------------------
  // Batch resolution

  /** The resolved URLs an outcome contributes: one if it gave a URL, none if it
      gave `undefined` or failed. */
  predicate Delivers(o: Outcome)
  {
    o.Resolved? && o.url.Some?
  }

  /** Settle-all, then keep the URLs: the successful, non-absent results in
      input order. */
  function Collect(outcomes: seq<Outcome>): (urls: seq<string>)
    ensures |urls| <= |outcomes|
  {
    if outcomes == [] then []
    else
      var last := outcomes[|outcomes| - 1];
      Collect(outcomes[..|outcomes| - 1]) + (if Delivers(last) then [last.url.value] else [])
  }

  /** Collecting a concatenation collects each part, in order. */
  lemma {:induction false} CollectAppend(a: seq<Outcome>, b: seq<Outcome>)
    ensures Collect(a + b) == Collect(a) + Collect(b)
    decreases |b|
  {
    if b != [] {
      var ab := a + b;
      assert ab[..|ab| - 1] == a + b[..|b| - 1];
      assert ab[|ab| - 1] == b[|b| - 1];
      CollectAppend(a, b[..|b| - 1]);
    } else {
      assert a + b == a;
    }
  }

  /** The collected URLs are exactly the URLs of the delivering outcomes, in the
      order of their positions: `idx` lists those positions, increasing, and
      misses none of them. */
  lemma {:induction false} CollectIndices(outcomes: seq<Outcome>) returns (idx: seq<nat>)
    ensures |idx| == |Collect(outcomes)|
    ensures forall k :: 0 <= k < |idx| ==>
      idx[k] < |outcomes| && outcomes[idx[k]] == Resolved(Some(Collect(outcomes)[k]))
    ensures forall k, l :: 0 <= k < l < |idx| ==> idx[k] < idx[l]
    ensures forall i :: 0 <= i < |outcomes| && Delivers(outcomes[i]) ==> exists k :: 0 <= k < |idx| && idx[k] == i
  {
    if outcomes == [] {
      idx := [];
    } else {
      var n := |outcomes| - 1;
      var init := outcomes[..n];
      var prev := CollectIndices(init);
      var before := Collect(init);
      assert forall k :: 0 <= k < |prev| ==> outcomes[prev[k]] == init[prev[k]];
      if Delivers(outcomes[n]) {
        idx := prev + [n];
        assert Collect(outcomes) == before + [outcomes[n].url.value];
      } else {
        idx := prev;
        assert Collect(outcomes) == before;
      }
      forall i | 0 <= i < |outcomes| && Delivers(outcomes[i])
        ensures exists k :: 0 <= k < |idx| && idx[k] == i
      {
        if i < n {
          assert init[i] == outcomes[i];
          var k :| 0 <= k < |prev| && prev[k] == i;
          assert idx[k] == i;
        } else {
          assert idx[|prev|] == i;
        }
      }
    }
  }

  /** Some resource threw while its URL was being asked for. */
  predicate AnyThrew(outcomes: seq<Outcome>)
  {
    exists i :: 0 <= i < |outcomes| && outcomes[i].Threw?
  }

  /** The text `copy` writes is readable back into the URLs, one per line, when
      no URL holds a line break. */
  lemma ClipboardTextSplitsBack(outcomes: seq<Outcome>)
    requires Collect(outcomes) != []
    requires forall i :: 0 <= i < |outcomes| && Delivers(outcomes[i]) ==> '\n' !in outcomes[i].url.value
    ensures Split(Join(Collect(outcomes), "\n"), '\n') == Collect(outcomes)
  {
    var urls := Collect(outcomes);
    var idx := CollectIndices(outcomes);
    forall k | 0 <= k < |urls| ensures '\n' !in urls[k] {
      assert Delivers(outcomes[idx[k]]);
    }
    SplitJoin(urls, '\n');
  }

  // ---------------------------------------------------------------------------
  // Effects the batch operations have on the editor's host

  /** The system clipboard: every text written to it, oldest first. */
  class Clipboard {
    var writes: seq<string>

    constructor ()
      ensures writes == []
    {
      writes := [];
    }

    method WriteText(text: string)
      modifies this
      ensures writes == old(writes) + [text]
    {
      writes := writes + [text];
    }
  }

  /** The platform's URL opener: every URL it was asked to open, oldest first,
      and how each attempt settles (`respond`, decided outside this model). An
      attempt is known by its number, so the same URL opened twice may settle
      differently each time. */
  class Browser {
    const respond: (nat, string) -> Settled<bool>
    var openedUrls: seq<string>

    constructor (respond: (nat, string) -> Settled<bool>)
      ensures this.respond == respond && openedUrls == []
    {
      this.respond := respond;
      openedUrls := [];
    }

    method OpenUrl(url: string) returns (r: Settled<bool>)
      modifies this
      ensures openedUrls == old(openedUrls) + [url]
      ensures r == respond(|old(openedUrls)|, url)
    {
      r := respond(|openedUrls|, url);
      openedUrls := openedUrls + [url];
    }
  }

  // ---------------------------------------------------------------------------
  // The provider

  class RemoteProvider {
    const domain: string
    const path: string
    const protocol: string
    const nameOverride: Option<string>
    const custom: bool
    const host: Host
    /** The memoized remote key. */
    var remoteKeyCache: Option<string>

    ghost predicate Valid()
      reads this
    {
      remoteKeyCache.Some? ==> remoteKeyCache.value == RemoteKeyOf(domain, path)
    }

    /** `protocol` defaults to `https` and `custom` to false when not given. */
    constructor (domain: string, path: string, protocol: Option<string>, name: Option<string>,
                 custom: Option<bool>, host: Host)
      ensures Valid() && remoteKeyCache == None
      ensures this.domain == domain && this.path == path
      ensures this.protocol == protocol.GetOr("https")
      ensures nameOverride == name && this.custom == custom.GetOr(false)
      ensures this.host == host
    {
      this.domain := domain;
      this.path := path;
      this.protocol := protocol.GetOr("https");
      nameOverride := name;
      this.custom := custom.GetOr(false);
      this.host := host;
      remoteKeyCache := None;
    }

    function Owner(): string
    {
      SplitPath(path).0
    }

    function RepoName(): string
    {
      SplitPath(path).1
    }

    /** The base's defaults for `avatarUri` (none), `displayPath`, `icon` and
        `repoDesc`; a host may override them. */
    function AvatarUri(): Option<string>
    {
      None
    }

    function DisplayPath(): string
    {
      path
    }

    function Icon(): string
    {
      "remote"
    }

    function GetRepoDesc(): RepoDesc
    {
      RepoDesc(Owner(), RepoName())
    }

    /** `remoteKey`, computed on the first read and cached from then on. */
    method RemoteKey() returns (key: string)
      requires Valid()
      modifies this`remoteKeyCache
      ensures Valid() && remoteKeyCache == Some(key)
      ensures key == RemoteKeyOf(domain, path)
      ensures old(remoteKeyCache).Some? ==> key == old(remoteKeyCache).value
    {
      if remoteKeyCache.Some? {
        key := remoteKeyCache.value;
      } else {
        key := RemoteKeyOf(domain, path);
        remoteKeyCache := Some(key);
      }
    }

    function GetRepoBaseUrl(repoPath: string): string
    {
      protocol + "://" + domain + "/" + repoPath
    }

    function BaseUrl(): string
    {
      GetRepoBaseUrl(path)
    }

    /** An explicit name wins verbatim; otherwise the service's own name, with
        the domain added for a user-configured remote. */
    function FormatName(name: string): string
    {
      if nameOverride.Some? then nameOverride.value
      else name + (if custom then " (" + domain + ")" else "")
    }

    /** `name`: each service formats its own name with `formatName`. */
    function Name(): string
    {
      FormatName(host.name)
    }

    function Autolinks(): seq<AutolinkReference>
    {
      [AutolinkReference(host.issueLinkPattern, "", "Open Issue #<num> on " + Name(), "branch", false, true)]
    }

    /** The owner and name are never undefined (`substring` always gives a
        string), so only a missing service id makes the descriptor absent. */
    function GetProviderDesc(): Option<ProviderDesc>
    {
      if host.gkProviderId.None? then None
      else Some(ProviderDesc(host.gkProviderId.value, Owner(), RepoName()))
    }

    function GetUrlForRepository(): Outcome
    {
      if host.urlForRepository.Some? then host.urlForRepository.value else Resolved(Some(BaseUrl()))
    }

    function IsReadyForCrossForkPullRequestUrls(): bool
    {
      host.crossForkReady.GetOr(true)
    }

    /** `url(resource)`: the builder each kind of resource is sent to. */
    function Url(resource: RemoteResource): Outcome
    {
      match resource
      case Branch(branch) => host.urlForBranch(branch)
      case Branches => host.urlForBranches
      case Commit(sha) => host.urlForCommit(sha)
      case Comparison(base, compare, notation) => host.urlForComparison(base, compare, notation.GetOr(ThreeDot))
      case CreatePullRequest(base, compare) =>
        if host.urlForCreatePullRequest.Some? then host.urlForCreatePullRequest.value(base, compare, None)
        else Resolved(None)
      case File(fileName, branchOrTag, range) => host.urlForFile(fileName, branchOrTag, None, range)
      case Repo => GetUrlForRepository()
      case Revision(fileName, branchOrTag, sha, range) => host.urlForFile(fileName, branchOrTag, sha, range)
      case Tag(_) => Resolved(None)
    }

    /** The outcome of asking for each resource's URL, in order. */
    function Resolve(resources: seq<RemoteResource>): (outcomes: seq<Outcome>)
      ensures |outcomes| == |resources|
      ensures forall i :: 0 <= i < |resources| ==> outcomes[i] == Url(resources[i])
    {
      if resources == [] then [] else Resolve(resources[..|resources| - 1]) + [Url(resources[|resources| - 1])]
    }

    /** What `getUrlsFromResources` settles to: rejected when some request threw
        (the throw escapes the loop that starts the requests), otherwise the
        collected URLs. */
    function BatchUrls(resource: Resources): Settled<seq<string>>
    {
      var outcomes := Resolve(Items(resource));
      if AnyThrew(outcomes) then Failed else Fulfilled(Collect(outcomes))
    }

    /** Starts every request (a single resource is a one-element batch), then
        settles them all and keeps the URLs, in order. */
    method GetUrlsFromResources(resource: Resources) returns (r: Settled<seq<string>>)
      ensures r == BatchUrls(resource)
    {
      var requests: seq<Outcome> := [];
      ghost var rs := Items(resource);
      if resource.Many? {
        var i := 0;
        while i < |resource.resources|
          invariant 0 <= i <= |rs|
          invariant requests == Resolve(rs[..i])
          invariant !AnyThrew(requests)
        {
          var o := Url(resource.resources[i]);
          if o.Threw? {
            assert Resolve(rs)[i].Threw?;
            return Failed;
          }
          assert rs[..i + 1][..i] == rs[..i];
          requests := requests + [o];
          i := i + 1;
        }
        assert rs[..i] == rs;
      } else {
        var o := Url(resource.resource);
        if o.Threw? {
          assert Resolve(rs)[0].Threw?;
          return Failed;
        }
        requests := [o];
      }
      var urls: seq<string> := [];
      var j := 0;
      while j < |requests|
        invariant 0 <= j <= |requests|
        invariant urls == Collect(requests[..j])
      {
        assert requests[..j + 1][..j] == requests[..j];
        if Delivers(requests[j]) {
          urls := urls + [requests[j].url.value];
        }
        j := j + 1;
      }
      assert requests[..j] == requests;
      r := Fulfilled(urls);
    }

    /** `copy`: nothing is written when no URL came out; otherwise the URLs,
        one per line, in a single write. */
    method Copy(clipboard: Clipboard, resource: Resources) returns (r: Settled<()>)
      modifies clipboard
      ensures BatchUrls(resource).Failed? ==> r == Failed && clipboard.writes == old(clipboard.writes)
      ensures BatchUrls(resource) == Fulfilled([]) ==>
        r == Fulfilled(()) && clipboard.writes == old(clipboard.writes)
      ensures BatchUrls(resource).Fulfilled? && BatchUrls(resource).value != [] ==>
        r == Fulfilled(()) &&
        clipboard.writes == old(clipboard.writes) + [Join(BatchUrls(resource).value, "\n")]
    {
      var urls := GetUrlsFromResources(resource);
      if urls.Failed? {
        return Failed;
      }
      if |urls.value| == 0 {
        return Fulfilled(());
      }
      clipboard.WriteText(Join(urls.value, "\n"));
      r := Fulfilled(());
    }

    /** `open`: false when no URL came out; otherwise every URL is opened, even
        after one fails, and the result is true only if every open reported
        true. */
    method Open(browser: Browser, resource: Resources) returns (r: Settled<bool>)
      modifies browser
      ensures BatchUrls(resource).Failed? ==> r == Failed && browser.openedUrls == old(browser.openedUrls)
      ensures BatchUrls(resource).Fulfilled? ==>
        var urls := BatchUrls(resource).value;
        browser.openedUrls == old(browser.openedUrls) + urls &&
        r == Fulfilled(urls != [] &&
                       forall i :: 0 <= i < |urls| ==> browser.respond(|old(browser.openedUrls)| + i, urls[i]) == Fulfilled(true))
    {
      var batch := GetUrlsFromResources(resource);
      if batch.Failed? {
        return Failed;
      }
      var urls := batch.value;
      if |urls| == 0 {
        return Fulfilled(false);
      }
      var allTrue := true;
      var i := 0;
      while i < |urls|
        invariant 0 <= i <= |urls|
        invariant browser.openedUrls == old(browser.openedUrls) + urls[..i]
        invariant allTrue <==>
          forall k :: 0 <= k < i ==> browser.respond(|old(browser.openedUrls)| + k, urls[k]) == Fulfilled(true)
      {
        var settled := browser.OpenUrl(urls[i]);
        assert urls[..i + 1] == urls[..i] + [urls[i]];
        allTrue := allTrue && settled == Fulfilled(true);
        i := i + 1;
      }
      assert urls[..i] == urls;
      r := Fulfilled(allTrue);
    }
  }

  // ---------------------------------------------------------------------------
  // Properties of the dispatch and the identity

  /** A `Repo` resource resolves to the base URL `protocol://domain/path`,
      unless the service supplies its own repository URL. */
  lemma RepoResolvesToBaseUrl(p: RemoteProvider)
    requires p.host.urlForRepository.None?
    ensures p.Url(Repo) == Resolved(Some(p.BaseUrl()))
    ensures p.BaseUrl() == p.protocol + "://" + p.domain + "/" + p.path
  {
  }

  /** An absent notation is sent as three-dot; an explicit one is kept. */
  lemma ComparisonNotation(p: RemoteProvider, base: string, compare: string, n: Notation)
    ensures p.Url(Comparison(base, compare, None)) == p.host.urlForComparison(base, compare, ThreeDot)
    ensures p.Url(Comparison(base, compare, Some(n))) == p.host.urlForComparison(base, compare, n)
  {
  }

  /** Without a pull-request builder the link is absent; with one, it gets the
      base and compare branches and no options. */
  lemma CreatePullRequestDispatch(p: RemoteProvider, base: PullRequestBase, compare: PullRequestHead)
    ensures p.host.urlForCreatePullRequest.None? ==> p.Url(CreatePullRequest(base, compare)) == Resolved(None)
    ensures p.host.urlForCreatePullRequest.Some? ==>
      p.Url(CreatePullRequest(base, compare)) == p.host.urlForCreatePullRequest.value(base, compare, None)
  {
  }

  /** A file link is a revision link without a sha; a revision passes its sha. */
  lemma FileIsRevisionWithoutSha(p: RemoteProvider, fileName: string, branchOrTag: Option<string>,
                                 sha: Option<string>, range: Option<Range>)
    ensures p.Url(File(fileName, branchOrTag, range)) == p.Url(Revision(fileName, branchOrTag, None, range))
    ensures p.Url(Revision(fileName, branchOrTag, sha, range)) == p.host.urlForFile(fileName, branchOrTag, sha, range)
  {
  }

  /** A tag has no builder, so it has no URL, and asking never fails. */
  lemma TagHasNoUrl(p: RemoteProvider, tag: string)
    ensures p.Url(Tag(tag)) == Resolved(None)
  {
  }

  /** The owner and repository name are the two halves of the path. */
  lemma OwnerAndRepoName(p: RemoteProvider)
    ensures '/' in p.path ==> p.Owner() + "/" + p.RepoName() == p.path && '/' !in p.Owner()
    ensures '/' !in p.path ==> p.Owner() == "" && p.RepoName() == p.path
  {
    SplitPathAtFirstSlash(p.path);
  }

  /** Without an override a remote has no avatar, is displayed by its path,
      shows the `remote` icon and describes its repository by the two halves
      of the path. */
  lemma DefaultGetters(p: RemoteProvider)
    ensures p.AvatarUri().None? && p.DisplayPath() == p.path && p.Icon() == "remote"
    ensures '/' in p.path ==>
      p.GetRepoDesc().owner + "/" + p.GetRepoDesc().name == p.path && '/' !in p.GetRepoDesc().owner
    ensures '/' !in p.path ==> p.GetRepoDesc() == RepoDesc("", p.path)
  {
    OwnerAndRepoName(p);
  }

  lemma DisplayName(p: RemoteProvider)
    ensures p.nameOverride.Some? ==> p.Name() == p.nameOverride.value
    ensures p.nameOverride.None? && !p.custom ==> p.Name() == p.host.name
    ensures p.nameOverride.None? && p.custom ==> p.Name() == p.host.name + " (" + p.domain + ")"
  {
  }

  /** One issue autolink, titled with the display name. */
  lemma AutolinkShape(p: RemoteProvider)
    ensures |p.Autolinks()| == 1
    ensures p.Autolinks()[0].url == p.host.issueLinkPattern
    ensures p.Autolinks()[0].title == "Open Issue #<num> on " + p.Name()
    ensures p.Autolinks()[0].referenceType == "branch" && p.Autolinks()[0].ignoreCase
    ensures !p.Autolinks()[0].alphanumeric && p.Autolinks()[0].prefix == ""
  {
  }

  lemma ProviderDescPresence(p: RemoteProvider)
    ensures p.GetProviderDesc().Some? <==> p.host.gkProviderId.Some?
    ensures p.GetProviderDesc().Some? ==>
      p.GetProviderDesc().value.id == p.host.gkProviderId.value &&
      p.GetProviderDesc().value.repoDomain == p.Owner() && p.GetProviderDesc().value.repoName == p.RepoName()
  {
  }

  lemma CrossForkReadyByDefault(p: RemoteProvider)
    ensures p.host.crossForkReady.None? ==> p.IsReadyForCrossForkPullRequestUrls()
  {
  }

  /** One resource and the one-element batch of it give the same URLs. */
  lemma SingleIsOneElementBatch(p: RemoteProvider, resource: RemoteResource)
    ensures p.BatchUrls(One(resource)) == p.BatchUrls(Many([resource]))
  {
  }

  /** When no request throws, the batch keeps exactly the URLs that resolved,
      and dropping the failed or absent ones never reorders the rest. */
  lemma BatchKeepsResolvedInOrder(p: RemoteProvider, a: seq<RemoteResource>, b: seq<RemoteResource>)
    requires !AnyThrew(p.Resolve(a + b))
    ensures p.BatchUrls(Many(a + b)).Fulfilled?
    ensures p.BatchUrls(Many(a + b)).value == Collect(p.Resolve(a)) + Collect(p.Resolve(b))
  {
    assert p.Resolve(a + b) == p.Resolve(a) + p.Resolve(b);
    CollectAppend(p.Resolve(a), p.Resolve(b));
  }
}
