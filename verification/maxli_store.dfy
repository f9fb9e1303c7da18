/**
 * Maxli Store: finds plugin files in a GitHub repository and hands one of
 * them to the chat. Modelled here is the decision logic: reading owner and
 * repository out of a GitHub URL, building the repository list, keeping the
 * `.py` files of a directory listing, filtering them by a query, capping
 * and numbering the results, choosing a module by its 1-based number and
 * choosing its download link.
 *
 * The directory listing the GitHub API returns is an input; every request,
 * file write and chat message is outside the model.
 */
module MaxliStore {
  import opened Wrappers
  import opened Text

  // ---------------------------------------------------------------------
  // extract_repo_info: the pattern github\.com/([^/]+)/([^/]+)
  // ---------------------------------------------------------------------

  datatype RepoInfo = RepoInfo(name: string, path: string, url: string)

  /** The two groups of a match: owner and repository. */
  datatype Groups = Groups(owner: string, repo: string)

  const Marker := "github.com/"

  predicate SlashFree(s: string) {
    forall k :: 0 <= k < |s| ==> s[k] != '/'
  }

  /**
   * The pattern matches `url` at `i`, with the owner group ending at `b`
   * (where the separating '/' stands) and the repository group at `c`.
   */
  predicate PatternAt(url: string, i: int, b: int, c: int) {
    && 0 <= i && i + |Marker| < b && b + 1 < c <= |url|
    && url[i..i + |Marker|] == Marker
    && SlashFree(url[i + |Marker|..b])
    && url[b] == '/'
    && SlashFree(url[b + 1..c])
  }

  ghost predicate HasPattern(url: string) {
    exists i, b, c :: PatternAt(url, i, b, c)
  }

  /** The end of the run of characters other than '/' that starts at `i`. */
  function SegmentEnd(s: string, i: nat): (j: nat)
    requires i <= |s|
    ensures i <= j <= |s|
    ensures SlashFree(s[i..j])
    ensures j == |s| || s[j] == '/'
    decreases |s| - i
  {
    if i == |s| || s[i] == '/' then i
    else
      var j := SegmentEnd(s, i + 1);
      assert s[i..j] == [s[i]] + s[i + 1..j];
      j
  }

  /** The greedy match of the pattern anchored at `i`, if there is one. */
  function MatchAt(url: string, i: nat): Option<Groups>
    requires i <= |url|
  {
    if !(i + |Marker| <= |url| && url[i..i + |Marker|] == Marker) then None
    else
      var ownerStart := i + |Marker|;
      var ownerEnd := SegmentEnd(url, ownerStart);
      if ownerEnd == ownerStart || ownerEnd == |url| then None
      else
        var repoEnd := SegmentEnd(url, ownerEnd + 1);
        if repoEnd == ownerEnd + 1 then None
        else Some(Groups(url[ownerStart..ownerEnd], url[ownerEnd + 1..repoEnd]))
  }

  /** `re.search`: the match at the leftmost position at or after `i`. */
  function Search(url: string, i: nat): Option<Groups>
    requires i <= |url|
    decreases |url| - i
  {
    var m := MatchAt(url, i);
    if m.Some? then m
    else if i == |url| then None
    else Search(url, i + 1)
  }

  /** `extract_repo_info(url)`. */
  function ExtractRepoInfo(url: string): (r: Option<RepoInfo>)
    ensures r.Some? ==> r.value.url == url && r.value.name == r.value.path
  {
    match Search(url, 0)
    case None => None
    case Some(g) =>
      var name := g.owner + "/" + RemoveAll(g.repo, ".git");
      Some(RepoInfo(name, name, url))
  }

  /** A run free of '/' that is closed by a '/' ends exactly there. */
  lemma SegmentEndAt(s: string, i: nat, b: nat)
    requires i <= b < |s| && SlashFree(s[i..b]) && s[b] == '/'
    ensures SegmentEnd(s, i) == b
  {
    var j := SegmentEnd(s, i);
    forall k | i <= k < b
      ensures s[k] != '/'
    {
      assert s[i..b][k - i] == s[k];
    }
    forall k | i <= k < j
      ensures s[k] != '/'
    {
      assert s[i..j][k - i] == s[k];
    }
  }

  /** A run free of '/' from `i` to `c` lies inside the segment starting at `i`. */
  lemma SegmentEndCovers(s: string, i: nat, c: nat)
    requires i <= c <= |s| && SlashFree(s[i..c])
    ensures c <= SegmentEnd(s, i)
  {
    forall k | i <= k < c
      ensures s[k] != '/'
    {
      assert s[i..c][k - i] == s[k];
    }
  }

  /** The anchored match succeeds exactly where the pattern occurs. */
  lemma MatchAtIff(url: string, i: nat)
    requires i <= |url|
    ensures MatchAt(url, i).Some? <==> exists b, c :: PatternAt(url, i, b, c)
  {
    if MatchAt(url, i).Some? {
      var b := SegmentEnd(url, i + |Marker|);
      var c := SegmentEnd(url, b + 1);
      assert PatternAt(url, i, b, c);
    }
    if exists b, c :: PatternAt(url, i, b, c) {
      var b, c :| PatternAt(url, i, b, c);
      SegmentEndAt(url, i + |Marker|, b);
      SegmentEndCovers(url, b + 1, c);
    }
  }

  /** The anchored match, when it succeeds, is the pattern with greedy groups. */
  lemma MatchAtShape(url: string, i: nat)
    requires i <= |url| && MatchAt(url, i).Some?
    ensures exists b, c ::
      && PatternAt(url, i, b, c)
      && (c == |url| || url[c] == '/')
      && MatchAt(url, i).value == Groups(url[i + |Marker|..b], url[b + 1..c])
  {
    var b := SegmentEnd(url, i + |Marker|);
    var c := SegmentEnd(url, b + 1);
    assert PatternAt(url, i, b, c);
  }

  /** The search finds a match exactly when one occurs at or after `i`, and takes the leftmost. */
  lemma {:induction false} SearchIsLeftmost(url: string, i: nat)
    requires i <= |url|
    ensures Search(url, i).None? <==> forall j :: i <= j <= |url| ==> MatchAt(url, j).None?
    ensures Search(url, i).Some? ==> exists j ::
      && i <= j <= |url|
      && Search(url, i) == MatchAt(url, j)
      && forall k :: i <= k < j ==> MatchAt(url, k).None?
    decreases |url| - i
  {
    if MatchAt(url, i).None? && i < |url| {
      SearchIsLeftmost(url, i + 1);
      if Search(url, i).Some? {
        var j :| i + 1 <= j <= |url| && Search(url, i + 1) == MatchAt(url, j)
                 && forall k :: i + 1 <= k < j ==> MatchAt(url, k).None?;
        assert forall k :: i <= k < j ==> MatchAt(url, k).None?;
      }
    }
  }

  /** `extract_repo_info` returns None exactly when the URL holds no owner/repository pair. */
  lemma ExtractRepoInfoNoneIff(url: string)
    ensures ExtractRepoInfo(url).None? <==> !HasPattern(url)
  {
    SearchIsLeftmost(url, 0);
    if ExtractRepoInfo(url).None? {
      forall i, b, c | PatternAt(url, i, b, c)
        ensures false
      {
        MatchAtIff(url, i);
      }
    } else {
      var j :| 0 <= j <= |url| && Search(url, 0) == MatchAt(url, j);
      MatchAtIff(url, j);
    }
  }

  /**
   * On success the name and the path are the owner, a '/', and the
   * repository with every ".git" removed, both groups taken greedily at the
   * leftmost place where the pattern occurs.
   */
  lemma ExtractRepoInfoShape(url: string)
    requires ExtractRepoInfo(url).Some?
    ensures exists i, b, c ::
      && PatternAt(url, i, b, c)
      && (c == |url| || url[c] == '/')
      && (forall k :: 0 <= k < i ==> MatchAt(url, k).None?)
      && ExtractRepoInfo(url).value.name == url[i + |Marker|..b] + "/" + RemoveAll(url[b + 1..c], ".git")
      && ExtractRepoInfo(url).value.path == ExtractRepoInfo(url).value.name
      && ExtractRepoInfo(url).value.url == url
  {
    SearchIsLeftmost(url, 0);
    var i :| 0 <= i <= |url| && Search(url, 0) == MatchAt(url, i)
             && forall k :: 0 <= k < i ==> MatchAt(url, k).None?;
    MatchAtShape(url, i);
  }

  // ---------------------------------------------------------------------
  // REPOSITORIES and get_current_repo
  // ---------------------------------------------------------------------

  const MaxliStoreUrl := "https://github.com/zyphralex/MaxliStore"

  const RepositoryUrls: seq<string> := [MaxliStoreUrl]

  const FallbackRepo := RepoInfo("zyphralex/MaxliStore", "zyphralex/MaxliStore", MaxliStoreUrl)

  /** The index of the repository in use; the plugin never changes it. */
  const CurrentRepoIndex: nat := 0

  /** The repositories parsed from `urls`, in order, unparsable URLs skipped. */
  function ParsedRepos(urls: seq<string>): (repos: seq<RepoInfo>)
    ensures |repos| <= |urls|
    ensures forall r :: r in repos ==> exists u :: u in urls && ExtractRepoInfo(u) == Some(r)
    ensures forall u :: u in urls && ExtractRepoInfo(u).Some? ==> ExtractRepoInfo(u).value in repos
  {
    if |urls| == 0 then []
    else
      var front := urls[..|urls| - 1];
      var last := urls[|urls| - 1];
      assert urls == front + [last];
      match ExtractRepoInfo(last)
      case None => ParsedRepos(front)
      case Some(r) => ParsedRepos(front) + [r]
  }

  /** Parsing a concatenation parses each part: the configured order is kept. */
  lemma {:induction false} ParsedReposAppend(a: seq<string>, b: seq<string>)
    ensures ParsedRepos(a + b) == ParsedRepos(a) + ParsedRepos(b)
    decreases |b|
  {
    if |b| == 0 {
      assert a + b == a;
    } else {
      var front := b[..|b| - 1];
      assert (a + b)[..|a + b| - 1] == a + front;
      assert (a + b)[|a + b| - 1] == b[|b| - 1];
      ParsedReposAppend(a, front);
    }
  }

  /** The module-level loop that builds `REPOSITORIES`, then the fallback. */
  method BuildRepositories(urls: seq<string>) returns (repos: seq<RepoInfo>)
    ensures |repos| > 0
    ensures ParsedRepos(urls) != [] ==> repos == ParsedRepos(urls)
    ensures ParsedRepos(urls) == [] ==> repos == [FallbackRepo]
  {
    repos := [];
    for i := 0 to |urls|
      invariant repos == ParsedRepos(urls[..i])
    {
      assert urls[..i + 1][..i] == urls[..i];
      var info := ExtractRepoInfo(urls[i]);
      if info.Some? {
        repos := repos + [info.value];
      }
    }
    assert urls[..|urls|] == urls;
    if |repos| == 0 {
      repos := [FallbackRepo];
    }
  }

  /** `get_current_repo()`: in bounds because the list is never empty. */
  function GetCurrentRepo(repositories: seq<RepoInfo>, index: nat): (r: RepoInfo)
    requires index < |repositories|
    ensures r in repositories
  {
    repositories[index]
  }

  /** Positions without a match are passed over by the search. */
  lemma {:induction false} SearchSkips(url: string, i: nat, j: nat)
    requires i <= j <= |url|
    requires forall k :: i <= k < j ==> MatchAt(url, k).None?
    ensures Search(url, i) == Search(url, j)
    decreases j - i
  {
    if i < j {
      SearchSkips(url, i + 1, j);
    }
  }

  /** A URL made of a head, the marker, an owner, a '/' and a repository matches right after the head. */
  lemma MatchAfterHead(head: string, owner: string, repo: string)
    requires |owner| > 0 && |repo| > 0 && SlashFree(owner) && SlashFree(repo)
    ensures var url := head + Marker + owner + "/" + repo;
      MatchAt(url, |head|) == Some(Groups(owner, repo))
  {
    var url := head + Marker + owner + "/" + repo;
    var i := |head|;
    var b := i + |Marker| + |owner|;
    assert url[i..i + |Marker|] == Marker;
    assert url[i + |Marker|..b] == owner;
    assert url[b] == '/';
    assert url[b + 1..|url|] == repo;
    SegmentEndAt(url, i + |Marker|, b);
    SegmentEndCovers(url, b + 1, |url|);
    assert SegmentEnd(url, b + 1) == |url|;
  }

  /** No match can start where the marker's '.' would fall on another character. */
  lemma NoMatchWithoutDot(url: string, k: nat)
    requires k + 6 < |url| && url[k + 6] != '.'
    ensures MatchAt(url, k).None?
  {
    if k + |Marker| <= |url| {
      assert url[k..k + |Marker|][6] == url[k + 6];
    }
  }

  lemma ConfiguredUrlParts()
    ensures MaxliStoreUrl == "https://" + Marker + "zyphralex" + "/" + "MaxliStore"
  {
  }

  lemma ConfiguredGroupsSlashFree()
    ensures SlashFree("zyphralex") && SlashFree("MaxliStore")
  {
  }

  lemma ConfiguredUrlMatchesAt8()
    ensures MatchAt(MaxliStoreUrl, 8) == Some(Groups("zyphralex", "MaxliStore"))
  {
    ConfiguredUrlParts();
    ConfiguredGroupsSlashFree();
    MatchAfterHead("https://", "zyphralex", "MaxliStore");
  }

  lemma ConfiguredUrlNoEarlierMatch(k: nat)
    requires k < 8
    ensures MatchAt(MaxliStoreUrl, k).None?
  {
    var url := MaxliStoreUrl;
    assert url[..14] == "https://github";
    assert url[k + 6] == url[..14][k + 6];
    NoMatchWithoutDot(url, k);
  }

  lemma RepoNameKept(repo: string)
    requires repo == "MaxliStore"
    ensures "zyphralex" + "/" + RemoveAll(repo, ".git") == "zyphralex/MaxliStore"
  {
    AbsentLeadNotContained(repo, ".git");
  }

  /** The configured URL parses to the very entry the fallback would supply. */
  lemma ConfiguredRepositoryParses()
    ensures ExtractRepoInfo(MaxliStoreUrl) == Some(FallbackRepo)
  {
    ConfiguredUrlMatchesAt8();
    forall k | 0 <= k < 8
      ensures MatchAt(MaxliStoreUrl, k).None?
    {
      ConfiguredUrlNoEarlierMatch(k);
    }
    SearchSkips(MaxliStoreUrl, 0, 8);
    RepoNameKept(Search(MaxliStoreUrl, 0).value.repo);
  }

  /**
   * The configured list parses to the single fallback entry, so the
   * fallback is never needed and the repository in use is that entry.
   */
  lemma ConfiguredRepositories()
    ensures ParsedRepos(RepositoryUrls) == [FallbackRepo]
    ensures GetCurrentRepo(ParsedRepos(RepositoryUrls), CurrentRepoIndex) == FallbackRepo
  {
    ConfiguredRepositoryParses();
    assert RepositoryUrls[..0] == [];
  }

  // ---------------------------------------------------------------------
  // Directory listing and search
  // ---------------------------------------------------------------------

  /** One entry of the GitHub contents listing. */
  datatype ContentItem = ContentItem(
    name: string,
    path: string,
    kind: string,
    downloadUrl: Option<string>)

  predicate IsPyFile(item: ContentItem) {
    item.kind == "file" && EndsWith(item.name, ".py")
  }

  /** The `.py` filter of `get_repo_modules`, in listing order. */
  function PyFiles(contents: seq<ContentItem>): (r: seq<ContentItem>)
    ensures |r| <= |contents|
    ensures forall x :: x in r <==> x in contents && IsPyFile(x)
  {
    if |contents| == 0 then []
    else (if IsPyFile(contents[0]) then [contents[0]] else []) + PyFiles(contents[1..])
  }

  /** The `.py` filter of a concatenation filters each part: the listing's order is kept. */
  lemma {:induction false} PyFilesAppend(a: seq<ContentItem>, b: seq<ContentItem>)
    ensures PyFiles(a + b) == PyFiles(a) + PyFiles(b)
  {
    if |a| > 0 {
      assert (a + b)[1..] == a[1..] + b;
      PyFilesAppend(a[1..], b);
    } else {
      assert a + b == b;
    }
  }

  /** `module['name'].lower().replace('.py', '')`. */
  function SearchKey(name: string): (k: string)
    ensures NoUpper(k)
  {
    LowerIsLower(name);
    RemoveAll(Lower(name), ".py")
  }

  predicate NameMatches(item: ContentItem, query: string) {
    Contains(SearchKey(item.name), query)
  }

  /** The modules whose search key contains `query`, in listing order. */
  function Matching(items: seq<ContentItem>, query: string): (r: seq<ContentItem>)
    ensures |r| <= |items|
    ensures forall x :: x in r <==> x in items && NameMatches(x, query)
  {
    if |items| == 0 then []
    else (if NameMatches(items[0], query) then [items[0]] else []) + Matching(items[1..], query)
  }

  /** Filtering a concatenation filters each part: the order of the listing is kept. */
  lemma {:induction false} MatchingAppend(a: seq<ContentItem>, b: seq<ContentItem>, query: string)
    ensures Matching(a + b, query) == Matching(a, query) + Matching(b, query)
  {
    if |a| > 0 {
      assert (a + b)[1..] == a[1..] + b;
      MatchingAppend(a[1..], b, query);
    } else {
      assert a + b == b;
    }
  }

  /** One more module of the listing adds itself to the matches exactly when it matches. */
  lemma MatchingStep(allModules: seq<ContentItem>, i: nat, query: string)
    requires i < |allModules|
    ensures Matching(allModules[..i + 1], query) ==
      Matching(allModules[..i], query) + (if NameMatches(allModules[i], query) then [allModules[i]] else [])
  {
    assert allModules[..i + 1] == allModules[..i] + [allModules[i]];
    MatchingAppend(allModules[..i], [allModules[i]], query);
    assert [allModules[i]][1..] == [];
  }

  /** The loop of the search commands that collects `matched_modules`. */
  method FilterModules(allModules: seq<ContentItem>, query: string) returns (matched: seq<ContentItem>)
    ensures matched == Matching(allModules, query)
  {
    matched := [];
    for i := 0 to |allModules|
      invariant matched == Matching(allModules[..i], query)
    {
      MatchingStep(allModules, i, query);
      if NameMatches(allModules[i], query) {
        matched := matched + [allModules[i]];
      }
    }
    assert allModules[..|allModules|] == allModules;
  }

  /** Every name contains the empty query, so it keeps the whole listing. */
  lemma {:induction false} MatchingEmptyQuery(items: seq<ContentItem>)
    ensures Matching(items, "") == items
  {
    if |items| > 0 {
      assert OccursAt(SearchKey(items[0].name), "", 0);
      MatchingEmptyQuery(items[1..]);
    }
  }

  /** A query with an upper-case letter matches nothing: the keys are all lower case. */
  lemma UpperCaseQueryMatchesNothing(items: seq<ContentItem>, query: string)
    requires !NoUpper(query)
    ensures Matching(items, query) == []
  {
    if Matching(items, query) != [] {
      var x := Matching(items, query)[0];
      assert x in Matching(items, query);
      NoUpperInPart(SearchKey(x.name), query);
    }
  }

  // ---------------------------------------------------------------------
  // Download links
  // ---------------------------------------------------------------------

  const RawBase := "https://raw.githubusercontent.com/"

  /** `get_raw_download_url`: the file on the repository's `main` branch. */
  function RawDownloadUrl(item: ContentItem, repoPath: string): (u: string)
    ensures StartsWith(u, RawBase + repoPath + "/main/")
    ensures EndsWith(u, item.path)
    ensures |u| == |RawBase + repoPath + "/main/"| + |item.path|
  {
    RawBase + repoPath + "/main/" + item.path
  }

  predicate HasDownloadUrl(item: ContentItem) {
    item.downloadUrl.Some? && item.downloadUrl.value != ""
  }

  /**
   * The link `download_module` uses: the listing's `download_url` when it is
   * set, else the raw link. It is never empty, so the "no link" error of
   * `download_module` cannot occur.
   */
  function DownloadUrl(item: ContentItem, repoPath: string): (u: string)
    ensures u != ""
    ensures HasDownloadUrl(item) ==> u == item.downloadUrl.value
    ensures !HasDownloadUrl(item) ==> u == RawDownloadUrl(item, repoPath)
    ensures !HasDownloadUrl(item) ==> StartsWith(u, RawBase + repoPath + "/main/")
                                        && EndsWith(u, item.path)
  {
    if HasDownloadUrl(item) then item.downloadUrl.value else RawDownloadUrl(item, repoPath)
  }

  // ---------------------------------------------------------------------
  // The commands
  // ---------------------------------------------------------------------

  /** A numbered line of `show_search_results`. */
  datatype ResultEntry = ResultEntry(number: nat, name: string)

  /** What a command answers; message texts and sizes are not modelled. */
  datatype Outcome =
    | ShowHelp
    | Usage
    | LoadFailed
    | NotFound(query: string, preview: seq<string>, moreCount: nat)
    | NotFoundHint(query: string)
    | Listed(query: string, modules: seq<ContentItem>)
    | SearchResults(query: string, modules: seq<ContentItem>, entries: seq<ResultEntry>, capNote: bool)
    | BadNumber(available: nat)
    | Download(item: ContentItem, url: string)

  const ResultCap := 20
  const PreviewSize := 10

  /** The search query: the arguments joined by spaces, lower-cased. */
  function SearchQuery(args: seq<string>): (q: string)
    ensures NoUpper(q)
    ensures |args| == 1 ==> q == Lower(args[0])
    ensures q == "" ==> forall i :: 0 <= i < |args| ==> args[i] == ""
  {
    LowerIsLower(Join(args, " "));
    Lower(Join(args, " "))
  }

  /** A module name as shown: `name.replace('.py', '')`. */
  function DisplayName(item: ContentItem): string {
    RemoveAll(item.name, ".py")
  }

  /**
   * The "highlighted" name of `show_search_results`: the three slices put
   * back together give the name unchanged, so nothing is marked.
   */
  function Highlight(name: string, query: string): (r: string)
    ensures r == name
  {
    if Contains(Lower(name), query) then
      var start := Find(Lower(name), query);
      var end := start + |query|;
      name[..start] + name[start..end] + name[end..]
    else name
  }

  /** `show_search_results`: numbered from 1, with a note when exactly 20 are shown. */
  method ShowSearchResults(modules: seq<ContentItem>, query: string)
    returns (entries: seq<ResultEntry>, capNote: bool)
    ensures |entries| == |modules|
    ensures forall i :: 0 <= i < |modules| ==> entries[i] == ResultEntry(i + 1, DisplayName(modules[i]))
    ensures capNote <==> |modules| == ResultCap
  {
    entries := [];
    for i := 0 to |modules|
      invariant |entries| == i
      invariant forall k :: 0 <= k < i ==> entries[k] == ResultEntry(k + 1, DisplayName(modules[k]))
    {
      var name := DisplayName(modules[i]);
      var highlighted := Highlight(name, query);
      entries := entries + [ResultEntry(i + 1, highlighted)];
    }
    capNote := |modules| == ResultCap;
  }

  /** The names shown when nothing matched: the first ten, and how many more there are. */
  function Preview(allModules: seq<ContentItem>): (p: seq<string>)
    ensures |p| == if |allModules| < PreviewSize then |allModules| else PreviewSize
    ensures forall i :: 0 <= i < |p| ==> p[i] == DisplayName(allModules[i])
  {
    var n := if |allModules| < PreviewSize then |allModules| else PreviewSize;
    seq(n, i requires 0 <= i < n => DisplayName(allModules[i]))
  }

  function MoreCount(allModules: seq<ContentItem>): nat {
    if |allModules| > PreviewSize then |allModules| - PreviewSize else 0
  }

  /** `.maxlistore <name>`: one match is downloaded at once, several are listed. */
  method SearchCommand(args: seq<string>, allModules: seq<ContentItem>, repo: RepoInfo)
    returns (out: Outcome)
    ensures |args| == 0 ==> out == ShowHelp
    ensures |args| > 0 && |allModules| == 0 ==> out == LoadFailed
    ensures |args| > 0 && |allModules| > 0 ==>
      var query := SearchQuery(args);
      var matched := Matching(allModules, query);
      && (|matched| == 0 ==> out == NotFound(query, Preview(allModules), MoreCount(allModules)))
      && (|matched| == 1 ==> out == Download(matched[0], DownloadUrl(matched[0], repo.path)))
      && (|matched| > 1 ==> out == Listed(query, matched))
  {
    if |args| == 0 {
      return ShowHelp;
    }
    var query := SearchQuery(args);
    if |allModules| == 0 {
      return LoadFailed;
    }
    var matched := FilterModules(allModules, query);
    if |matched| == 0 {
      return NotFound(query, Preview(allModules), MoreCount(allModules));
    }
    if |matched| == 1 {
      out := Download(matched[0], DownloadUrl(matched[0], repo.path));
    } else {
      out := Listed(query, matched);
    }
  }

  /** `.maxlistore_s <part>`: the first 20 matches, numbered. */
  method PartialSearchCommand(args: seq<string>, allModules: seq<ContentItem>)
    returns (out: Outcome)
    ensures |args| == 0 ==> out == Usage
    ensures |args| > 0 && |allModules| == 0 ==> out == LoadFailed
    ensures |args| > 0 && |allModules| > 0 ==>
      var query := SearchQuery(args);
      var matched := Matching(allModules, query);
      && (|matched| == 0 ==> out == NotFoundHint(query))
      && (|matched| > 0 ==>
            && out.SearchResults? && out.query == query
            && |out.modules| == (if |matched| < ResultCap then |matched| else ResultCap)
            && out.modules == matched[..|out.modules|]
            && |out.entries| == |out.modules|
            && (forall i :: 0 <= i < |out.modules| ==>
                  out.entries[i] == ResultEntry(i + 1, DisplayName(out.modules[i])))
            && (out.capNote <==> |out.modules| == ResultCap))
  {
    if |args| == 0 {
      return Usage;
    }
    var query := SearchQuery(args);
    if |allModules| == 0 {
      return LoadFailed;
    }
    var matched := FilterModules(allModules, query);
    if |matched| > ResultCap {
      matched := matched[..ResultCap];
    }
    if |matched| == 0 {
      return NotFoundHint(query);
    }
    var entries, capNote := ShowSearchResults(matched, query);
    out := SearchResults(query, matched, entries, capNote);
  }

  /** The modules a number refers to: the matches of a non-empty query, else all. */
  function Candidates(allModules: seq<ContentItem>, query: string): (r: seq<ContentItem>)
    ensures |r| <= |allModules|
    ensures forall x :: x in r ==> x in allModules
    ensures query == "" ==> r == allModules
    ensures query != "" ==> forall x :: x in r <==> x in allModules && NameMatches(x, query)
  {
    if query != "" then Matching(allModules, query) else allModules
  }

  /** The query of `.maxlistore_download <n> [words]`: the words joined, case kept. */
  function DownloadQuery(args: seq<string>): (q: string)
    ensures |args| <= 1 ==> q == ""
    ensures |args| == 2 ==> q == args[1]
    ensures q == "" ==> forall i :: 1 <= i < |args| ==> args[i] == ""
  {
    if |args| > 1 then Join(args[1..], " ") else ""
  }

  /** The same query lower-cased, as the two search commands have it. */
  function DownloadQueryLowered(args: seq<string>): string {
    Lower(DownloadQuery(args))
  }

  /** The selection shared by both versions of the download command. */
  method DownloadByNumber(number: nat, query: string, allModules: seq<ContentItem>, repo: RepoInfo)
    returns (out: Outcome)
    ensures |allModules| == 0 ==> out == LoadFailed
    ensures |allModules| > 0 ==>
      var candidates := Candidates(allModules, query);
      && (1 <= number <= |candidates| ==>
            out == Download(candidates[number - 1], DownloadUrl(candidates[number - 1], repo.path)))
      && (!(1 <= number <= |candidates|) ==> out == BadNumber(|candidates|))
  {
    if |allModules| == 0 {
      return LoadFailed;
    }
    var matched: seq<ContentItem>;
    if query != "" {
      matched := FilterModules(allModules, query);
    } else {
      matched := allModules;
    }
    if |matched| == 0 || number < 1 || number > |matched| {
      return BadNumber(|matched|);
    }
    var item := matched[number - 1];
    out := Download(item, DownloadUrl(item, repo.path));
  }

  /** `.maxlistore_download <n> [words]` as written: the words are not lower-cased. */
  method DownloadCommand(args: seq<string>, allModules: seq<ContentItem>, repo: RepoInfo)
    returns (out: Outcome)
    ensures |args| == 0 || !IsDigits(args[0]) ==> out == Usage
    ensures |args| > 0 && IsDigits(args[0]) && |allModules| == 0 ==> out == LoadFailed
    ensures |args| > 0 && IsDigits(args[0]) && |allModules| > 0 ==>
      var n := ParseNat(args[0]);
      var candidates := Candidates(allModules, DownloadQuery(args));
      && (1 <= n <= |candidates| ==> out == Download(candidates[n - 1], DownloadUrl(candidates[n - 1], repo.path)))
      && (!(1 <= n <= |candidates|) ==> out == BadNumber(|candidates|))
  {
    if |args| == 0 || !IsDigits(args[0]) {
      return Usage;
    }
    out := DownloadByNumber(ParseNat(args[0]), DownloadQuery(args), allModules, repo);
  }

  /** The download command with its words lower-cased like the searches'. */
  method DownloadCommandLowered(args: seq<string>, allModules: seq<ContentItem>, repo: RepoInfo)
    returns (out: Outcome)
    ensures |args| == 0 || !IsDigits(args[0]) ==> out == Usage
    ensures |args| > 0 && IsDigits(args[0]) && |allModules| == 0 ==> out == LoadFailed
    ensures |args| > 0 && IsDigits(args[0]) && |allModules| > 0 ==>
      var n := ParseNat(args[0]);
      var candidates := Candidates(allModules, DownloadQueryLowered(args));
      && (1 <= n <= |candidates| ==> out == Download(candidates[n - 1], DownloadUrl(candidates[n - 1], repo.path)))
      && (!(1 <= n <= |candidates|) ==> out == BadNumber(|candidates|))
  {
    if |args| == 0 || !IsDigits(args[0]) {
      return Usage;
    }
    out := DownloadByNumber(ParseNat(args[0]), DownloadQueryLowered(args), allModules, repo);
  }

  /**
   * As written, a download query with a capital letter never selects
   * anything, although the searches fold case: `.maxlistore_s Weather`
   * lists weather.py first, but `.maxlistore_download 1 Weather` has no
   * module 1.
   */
  lemma DownloadQueryCaseMismatch()
    ensures
      var weather := ContentItem("weather.py", "weather.py", "file", None);
      && Matching([weather], SearchQuery(["Weather"])) == [weather]
      && Candidates([weather], DownloadQuery(["1", "Weather"])) == []
  {
    var weather := ContentItem("weather.py", "weather.py", "file", None);
    WeatherKey(weather.name);
    LowerWeather(Join(["Weather"], " "));
    assert OccursAt("weather", "weather", 0);
    assert NameMatches(weather, SearchQuery(["Weather"]));
    assert DownloadQuery(["1", "Weather"]) == "Weather";
    UpperCaseQueryMatchesNothing([weather], DownloadQuery(["1", "Weather"]));
  }

  lemma WeatherKey(name: string)
    requires name == "weather.py"
    ensures SearchKey(name) == "weather"
  {
    assert Lower(name) == name;
    assert name == "weather" + ".py";
    RemoveAllTrailing("weather", ".py");
  }

  lemma LowerWeather(q: string)
    requires q == "Weather"
    ensures Lower(q) == "weather"
  {
  }

  /**
   * With the words lower-cased, module n of the download command is module
   * n of the list `.maxlistore_s` shows for the same words.
   */
  lemma LoweredDownloadFollowsListing(words: seq<string>, allModules: seq<ContentItem>, n: nat)
    requires |words| > 0
    requires 1 <= n <= |Matching(allModules, SearchQuery(words))|
    ensures
      var candidates := Candidates(allModules, DownloadQueryLowered(["0"] + words));
      n <= |candidates| && candidates[n - 1] == Matching(allModules, SearchQuery(words))[n - 1]
  {
    assert (["0"] + words)[1..] == words;
    assert DownloadQueryLowered(["0"] + words) == SearchQuery(words);
    if SearchQuery(words) == "" {
      MatchingEmptyQuery(allModules);
    }
  }
}
