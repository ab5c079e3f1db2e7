/** `AuthViewModel`: the repository-string parser, the personal-access-token
    sign-in and the GitHub App (OAuth with PKCE) sign-in.

    Every network call is a function parameter answering with a `Response`.
    The coroutine each sign-in launches runs here as straight-line steps
    after the synchronous part of the call. */
module AuthViewModel {
  import opened Wrappers
  import opened Text
  import opened Base64
  import opened GitHubApi
  import OAuthConfig
  import AuthManager

  // ------------------------------------------------------------ parseRepo

  /** The literal part of `(?:https?://)?github\.com/([^/]+)/([^/]+)`. */
  const HOST: string := "github.com/"

  /** The length of the longest run of characters other than `/` starting at
      `i`: what a greedy `[^/]+` consumes. */
  function Run(s: string, i: nat): (n: nat)
    requires i <= |s|
    ensures i + n <= |s|
    ensures i + n == |s| || s[i + n] == '/'
    decreases |s| - i
  {
    if i == |s| || s[i] == '/' then 0 else 1 + Run(s, i + 1)
  }

  /** The run holds no `/`. */
  lemma {:induction false} RunNoSlash(s: string, i: nat)
    requires i <= |s|
    ensures '/' !in s[i..i + Run(s, i)]
    decreases |s| - i
  {
    if i < |s| && s[i] != '/' {
      RunNoSlash(s, i + 1);
      assert s[i..i + Run(s, i)] == [s[i]] + s[i + 1..i + 1 + Run(s, i + 1)];
    }
  }

  /** `github.com/([^/]+)/([^/]+)` matches at `p`. A shorter first group
      would be followed by a character other than `/`, so backtracking
      never helps: the groups are the two maximal runs. */
  predicate HostMatchAt(s: string, p: nat) {
    p + |HOST| <= |s| && s[p..p + |HOST|] == HOST &&
    var n := Run(s, p + |HOST|);
    n > 0 && p + |HOST| + n < |s| && Run(s, p + |HOST| + n + 1) > 0
  }

  /** The two captured groups of a match at `p`. */
  function Groups(s: string, p: nat): (g: (string, string))
    requires HostMatchAt(s, p)
    ensures g.0 != [] && g.1 != [] && '/' !in g.0 && '/' !in g.1
  {
    var i := p + |HOST|;
    var n := Run(s, i);
    RunNoSlash(s, i);
    RunNoSlash(s, i + n + 1);
    (s[i..i + n], s[i + n + 1..i + n + 1 + Run(s, i + n + 1)])
  }

  /** Where the whole pattern, optional scheme included, matches when the
      regex engine starts at `i`: it tries `https://`, then `http://`, then
      no scheme, and the answer is where `github.com/` begins. */
  function MatchFrom(s: string, i: nat): (p: Option<nat>)
    requires i <= |s|
    ensures p.Some? ==> i <= p.value && HostMatchAt(s, p.value)
  {
    if i + 8 <= |s| && s[i..i + 8] == "https://" && HostMatchAt(s, i + 8) then Some(i + 8)
    else if i + 7 <= |s| && s[i..i + 7] == "http://" && HostMatchAt(s, i + 7) then Some(i + 7)
    else if HostMatchAt(s, i) then Some(i)
    else None
  }

  /** The scheme a match skips over holds no `g`. */
  lemma {:induction false} MatchFromSkipsNoG(s: string, i: nat)
    requires i <= |s| && MatchFrom(s, i).Some?
    ensures forall k :: i <= k < MatchFrom(s, i).value ==> s[k] != 'g'
  {
    var p := MatchFrom(s, i).value;
    if p == i + 8 {
      forall k | i <= k < p ensures s[k] != 'g' {
        assert s[k] == s[i..i + 8][k - i] == "https://"[k - i];
      }
    } else if p == i + 7 {
      forall k | i <= k < p ensures s[k] != 'g' {
        assert s[k] == s[i..i + 7][k - i] == "http://"[k - i];
      }
    }
  }

  /** `Regex.find`: the match with the leftmost start at or after `from`,
      reported by where its `github.com/` begins. */
  function Find(s: string, from: nat): (p: Option<nat>)
    requires from <= |s|
    ensures p.Some? ==> from <= p.value && HostMatchAt(s, p.value)
    decreases |s| - from
  {
    match MatchFrom(s, from)
    case Some(p) => Some(p)
    case None => if from == |s| then None else Find(s, from + 1)
  }

  /** The first position at or after `from` where `github.com/<owner>/<repo>`
      matches, scheme or no scheme. */
  function FirstHost(s: string, from: nat): (p: Option<nat>)
    requires from <= |s|
    ensures p.Some? ==> from <= p.value <= |s| && HostMatchAt(s, p.value)
    ensures p.Some? ==> forall q :: from <= q < p.value ==> !HostMatchAt(s, q)
    ensures p.None? ==> forall q :: from <= q <= |s| ==> !HostMatchAt(s, q)
    decreases |s| - from
  {
    if HostMatchAt(s, from) then Some(from)
    else if from == |s| then None
    else FirstHost(s, from + 1)
  }

  /** A match starts with the `g` of `github.com/`. */
  lemma {:induction false} HostStartsWithG(s: string, p: nat)
    requires HostMatchAt(s, p)
    ensures s[p] == 'g'
  {
    assert s[p..p + |HOST|][0] == s[p];
  }

  /** With no `g` before a match, that match is the first one. */
  lemma {:induction false} FirstHostSkip(s: string, from: nat, p: nat)
    requires from <= p <= |s| && HostMatchAt(s, p)
    requires forall k :: from <= k < p ==> s[k] != 'g'
    ensures FirstHost(s, from) == Some(p)
    decreases p - from
  {
    if from < p {
      if HostMatchAt(s, from) {
        HostStartsWithG(s, from);
      }
      FirstHostSkip(s, from + 1, p);
    }
  }

  /** The optional `https?://` never changes the groups: the leftmost match
      captures at the first place where `github.com/<owner>/<repo>` matches,
      because no scheme character is a `g`. */
  lemma {:induction false} FindIsFirstHost(s: string, from: nat)
    requires from <= |s|
    ensures Find(s, from) == FirstHost(s, from)
    decreases |s| - from
  {
    match MatchFrom(s, from)
    case Some(p) =>
      MatchFromSkipsNoG(s, from);
      FirstHostSkip(s, from, p);
    case None =>
      if from < |s| {
        FindIsFirstHost(s, from + 1);
      }
  }

  /** `trim()`, then `removeSuffix("/")`, `removeSuffix(".git")`,
      `removeSuffix("/")`, in that order. */
  function Normalize(input: string): string {
    RemoveSuffix(RemoveSuffix(RemoveSuffix(Trim(input), "/"), ".git"), "/")
  }

  /** The parser after normalisation: the groups of the leftmost URL match
      when both are non-blank, else exactly two non-blank parts around a
      single `/`, else nothing. */
  function ParseNormalized(t: string): (r: Option<(string, string)>)
    ensures r.Some? ==> !IsBlank(r.value.0) && !IsBlank(r.value.1)
    ensures r.Some? ==> '/' !in r.value.0 && '/' !in r.value.1
  {
    var found := Find(t, 0);
    if found.Some? && !IsBlank(Groups(t, found.value).0) && !IsBlank(Groups(t, found.value).1) then
      Some(Groups(t, found.value))
    else
      var parts := Split(t, '/');
      if |parts| == 2 && !IsBlank(parts[0]) && !IsBlank(parts[1]) then Some((parts[0], parts[1]))
      else None
  }

  /** `parseRepo(input)`: an owner and a repository name, both non-blank and
      free of `/`, or null. */
  function ParseRepo(input: string): (r: Option<(string, string)>)
    ensures r.Some? ==> !IsBlank(r.value.0) && !IsBlank(r.value.1)
    ensures r.Some? ==> '/' !in r.value.0 && '/' !in r.value.1
  {
    ParseNormalized(Normalize(input))
  }

  /** A match holds a `/` at the end of `github.com/` and another after
      the owner. */
  lemma {:induction false} HostSlashes(s: string, p: nat)
    requires HostMatchAt(s, p)
    ensures s[p + 10] == '/' && s[p + |HOST| + Run(s, p + |HOST|)] == '/'
  {
    assert s[p..p + |HOST|][10] == s[p + 10];
  }

  /** A string with a single `/` holds no URL match: a match needs two. */
  lemma {:induction false} OneSlashNoHost(s: string, slash: nat)
    requires forall k :: 0 <= k < |s| && s[k] == '/' ==> k == slash
    ensures FirstHost(s, 0) == None
  {
    forall q | 0 <= q <= |s| ensures !HostMatchAt(s, q) {
      if HostMatchAt(s, q) {
        HostSlashes(s, q);
      }
    }
  }

  /** `owner/repo` is parsed by the two-part split. */
  lemma {:induction false} ParseOwnerSlashRepo(owner: string, repo: string)
    requires !IsBlank(owner) && !IsBlank(repo) && '/' !in owner && '/' !in repo
    ensures ParseNormalized(owner + "/" + repo) == Some((owner, repo))
  {
    var s := owner + "/" + repo;
    forall k | 0 <= k < |s| && s[k] == '/' ensures k == |owner| {
    }
    OneSlashNoHost(s, |owner|);
    FindIsFirstHost(s, 0);
    assert Join([owner, repo], '/') == s;
    SplitJoin([owner, repo], '/');
  }

  /** `<prefix>github.com/<owner>/<repo>` is parsed by the URL match when the
      prefix holds no `g`: `https://`, `http://`, `https://www.`, or nothing. */
  lemma {:induction false} ParseHostedRepo(prefix: string, owner: string, repo: string)
    requires forall k :: 0 <= k < |prefix| ==> prefix[k] != 'g'
    requires !IsBlank(owner) && !IsBlank(repo) && '/' !in owner && '/' !in repo
    ensures ParseNormalized(prefix + HOST + owner + "/" + repo) == Some((owner, repo))
  {
    var s := prefix + HOST + owner + "/" + repo;
    HostedGroups(prefix, owner, repo);
    forall k | 0 <= k < |prefix| ensures s[k] != 'g' {
      assert s[k] == prefix[k];
    }
    FirstHostSkip(s, 0, |prefix|);
    FindIsFirstHost(s, 0);
  }

  /** In `<prefix>github.com/<owner>/<repo>` the pattern matches right after
      the prefix and captures the owner and the name. */
  lemma {:induction false} HostedGroups(prefix: string, owner: string, repo: string)
    requires owner != [] && repo != [] && '/' !in owner && '/' !in repo
    ensures HostMatchAt(prefix + HOST + owner + "/" + repo, |prefix|)
    ensures Groups(prefix + HOST + owner + "/" + repo, |prefix|) == (owner, repo)
  {
    var s := prefix + HOST + owner + "/" + repo;
    var i := |prefix| + |HOST|;
    assert s[|prefix|..i] == HOST;
    assert s[i..i + |owner|] == owner;
    assert s[i + |owner|] == '/';
    assert s[i + |owner| + 1..] == repo;
    RunIs(s, i, |owner|);
    RunIs(s, i + |owner| + 1, |repo|);
    assert s[i + |owner| + 1..i + |owner| + 1 + |repo|] == repo;
  }

  /** A run of `n` characters other than `/` that ends at `/` or at the end
      is what `Run` measures. */
  lemma {:induction false} RunIs(s: string, i: nat, n: nat)
    requires i + n <= |s|
    requires forall k :: i <= k < i + n ==> s[k] != '/'
    requires i + n == |s| || s[i + n] == '/'
    ensures Run(s, i) == n
    decreases n
  {
    if n > 0 {
      assert s[i] != '/';
      RunIs(s, i + 1, n - 1);
    }
  }

  /** A trimmed input that ends neither in `/` nor in `.git` is left as it is. */
  lemma {:induction false} NormalizeClean(s: string)
    requires IsTrimmed(s) && s != [] && s[|s| - 1] != '/' && !EndsWith(s, ".git")
    ensures Normalize(s) == s
  {
    TrimOfTrimmed(s);
  }

  /** A trailing `.git/` is stripped whole. */
  lemma {:induction false} NormalizeGitSlash(s: string)
    requires IsTrimmed(s) && s != [] && s[|s| - 1] != '/'
    ensures Normalize(s + ".git/") == s
  {
    var git := s + ".git";
    var t := git + "/";
    assert t == s + ".git/";
    assert IsTrimmed(t) by {
      assert t[0] == s[0];
    }
    TrimOfTrimmed(t);
    RemoveAppendedSuffix(git, "/");
    RemoveAppendedSuffix(s, ".git");

  }

  /** A string made of an owner, `/` and a repository name ends in `.git`
      only if the repository name does. */
  lemma {:induction false} SlashPairNoGit(owner: string, repo: string)
    requires '/' !in repo && !EndsWith(repo, ".git")
    ensures !EndsWith(owner + "/" + repo, ".git")
  {
    var s := owner + "/" + repo;
    if |s| >= 4 {
      if |repo| >= 4 {
        assert s[|s| - 4..] == repo[|repo| - 4..];
      } else {
        assert s[|s| - 4..][|owner| - (|s| - 4)] == '/';
      }
    }
  }

  /** Four endings the normalisation strips: nothing, `/`, `.git`
      and `.git/` all leave the same trimmed text behind. */
  lemma {:induction false} NormalizeEndings(s: string, ending: string)
    requires IsTrimmed(s) && s != [] && s[|s| - 1] != '/' && !EndsWith(s, ".git")
    requires ending == "" || ending == "/" || ending == ".git" || ending == ".git/"
    ensures Normalize(s + ending) == s
  {
    if ending == "" {
      assert s + ending == s;
      NormalizeClean(s);
    } else if ending == "/" {
      var t := s + ending;
      assert IsTrimmed(t) by {
        assert t[0] == s[0];
      }
      TrimOfTrimmed(t);
      RemoveAppendedSuffix(s, "/");
    } else if ending == ".git" {
      var t := s + ending;
      assert IsTrimmed(t) by {
        assert t[0] == s[0] && t[|t| - 1] == 't';
      }
      TrimOfTrimmed(t);
      assert !EndsWith(t, "/") by {
        assert t[|t| - 1] == 't';
      }
      RemoveAppendedSuffix(s, ".git");
    } else {
      NormalizeGitSlash(s);
    }
  }

  /** A repository URL, `https://github.com/<owner>/<repo>` and its variants
      with `http://`, `https://www.` or no scheme, with or without a
      trailing `/`, `.git` or `.git/`, gives its owner and name. */
  lemma {:induction false} ParseUrl(prefix: string, owner: string, repo: string, ending: string)
    requires prefix == [] || !IsWhitespace(prefix[0])
    requires forall k :: 0 <= k < |prefix| ==> prefix[k] != 'g'
    requires !IsBlank(owner) && !IsBlank(repo) && '/' !in owner && '/' !in repo
    requires !IsWhitespace(repo[|repo| - 1]) && !EndsWith(repo, ".git")
    requires ending == "" || ending == "/" || ending == ".git" || ending == ".git/"
    ensures ParseRepo(prefix + HOST + owner + "/" + repo + ending) == Some((owner, repo))
  {
    var head := prefix + HOST + owner;
    var url := head + "/" + repo;
    assert url == prefix + HOST + owner + "/" + repo;
    assert url[|url| - 1] == repo[|repo| - 1];
    assert url[0] == if prefix == [] then 'g' else prefix[0];
    SlashPairNoGit(head, repo);
    NormalizeEndings(url, ending);
    ParseHostedRepo(prefix, owner, repo);
  }

  /** The short form `<owner>/<repo>`, with or without a trailing `/`, `.git`
      or `.git/`, gives its two parts. */
  lemma {:induction false} ParseShortForm(owner: string, repo: string, ending: string)
    requires !IsBlank(owner) && !IsBlank(repo) && '/' !in owner && '/' !in repo
    requires !IsWhitespace(owner[0]) && !IsWhitespace(repo[|repo| - 1]) && !EndsWith(repo, ".git")
    requires ending == "" || ending == "/" || ending == ".git" || ending == ".git/"
    ensures ParseRepo(owner + "/" + repo + ending) == Some((owner, repo))
  {
    var short := owner + "/" + repo;
    assert short[|short| - 1] == repo[|repo| - 1] && short[0] == owner[0];
    SlashPairNoGit(owner, repo);
    NormalizeEndings(short, ending);
    ParseOwnerSlashRepo(owner, repo);
  }

  /** Text with no `/` at all is refused: there is neither a URL nor a pair. */
  lemma {:induction false} ParseNoSlash(input: string)
    requires '/' !in input
    ensures ParseRepo(input) == None
  {
    var t := Normalize(input);
    assert '/' !in t by {
      var i, j := TrimCut(input);
      assert '/' !in input[i..j];
      RemoveSuffixKeepsOut(Trim(input), "/", '/');
      RemoveSuffixKeepsOut(RemoveSuffix(Trim(input), "/"), ".git", '/');
      RemoveSuffixKeepsOut(RemoveSuffix(RemoveSuffix(Trim(input), "/"), ".git"), "/", '/');
    }
    OneSlashNoHost(t, 0);
    FindIsFirstHost(t, 0);
  }

  // --------------------------------------------------------- remote calls

  datatype Installation = Installation(id: int)

  /** An entry of `getInstallationRepos`: the owner's login and the name. */
  datatype InstallationRepo = InstallationRepo(ownerLogin: string, name: string)

  /** The remote services the view model calls, each answering with a
      `Response`. `exchange` is `OAuthTokenExchanger.exchangeCode(code,
      verifier)` and yields the access token; the others take the
      `Authorization` header first. */
  datatype Api = Api(
    exchange: (string, string) -> Response<string>,
    getUser: string -> Response<User>,
    getInstallations: string -> Response<seq<Installation>>,
    getInstallationRepos: (string, int) -> Response<seq<InstallationRepo>>,
    getRepository: (string, string, string) -> Response<()>)

  /** A request made to one of the services, in the order made. */
  datatype ApiCall =
    | ExchangeCode(code: string, verifier: string)
    | GetUser(auth: string)
    | GetInstallations(auth: string)
    | GetInstallationRepos(auth: string, installationId: int)
    | GetRepository(auth: string, owner: string, repo: string)

  /** A call on the credential store made by the OAuth sign-in. The store
      operations `saveOAuthTokens` and `saveInstallationId` are not part of
      `AuthManager` as modelled, so the sign-in reports its writes rather
      than applying them. */
  datatype StoreWrite =
    | WriteOAuthTokens(token: string, login: string)
    | WriteRepo(owner: string, name: string)
    | WriteInstallationId(id: int)

  const SESSION_EXPIRED: string := "OAuth session expired. Please try again."
  const NO_INSTALLATION: string := "No GitHub App installation found. Please install GitJot on a repository."
  const NO_REPOSITORY: string := "No repositories found. Please select a repository when installing GitJot."
  const SIGN_IN_FAILED: string := "Sign-in failed: "
  const TOKEN_REQUIRED: string := "Token is required"
  const REPO_REQUIRED: string := "Repository is required"
  const BAD_REPO_FORMAT: string := "Enter as owner/repo or paste the full GitHub URL"
  const TOKEN_INVALID: string := "Personal access token is invalid"
  const EM_DASH: char := '\U{2014}'
  const REPO_NOT_FOUND: string := "Repository not found " + [EM_DASH] + " check the name and token permissions"
  const NETWORK_ERROR: string := "Network error: "

  /** The `SavedStateHandle` keys of the PKCE session. */
  const VERIFIER_KEY: string := "oauth_verifier"
  const STATE_KEY: string := "oauth_state"

  // ------------------------------------------------------- OAuth sign-in

  /** How the coroutine of `handleOAuthCallback` ends: everything found, or
      the error message it shows. */
  datatype OAuthOutcome =
    | Installed(token: string, login: string, installationId: int, owner: string, name: string)
    | OAuthRefused(message: string)

  datatype OAuthRun = OAuthRun(outcome: OAuthOutcome, calls: seq<ApiCall>)

  /** The coroutine of `handleOAuthCallback`: exchange the code, look up the
      user, take the first installation and its first repository. Any
      exception ends it with `Sign-in failed: <message>`. */
  function OAuthSignIn(code: string, verifier: string, api: Api): (run: OAuthRun)
    ensures run.calls != [] && run.calls[0] == ExchangeCode(code, verifier)
  {
    var exchangeCall := ExchangeCode(code, verifier);
    match api.exchange(code, verifier)
    case Http(_, message) => OAuthRun(OAuthRefused(SIGN_IN_FAILED + message), [exchangeCall])
    case Failure(message) => OAuthRun(OAuthRefused(SIGN_IN_FAILED + message), [exchangeCall])
    case Ok(token) =>
      var auth := Bearer(token);
      var user := api.getUser(auth);
      if !user.Ok? then OAuthRun(OAuthRefused(SIGN_IN_FAILED + user.message), [exchangeCall, GetUser(auth)])
      else
        var installations := api.getInstallations(auth);
        var upToInstallations := [exchangeCall, GetUser(auth), GetInstallations(auth)];
        if !installations.Ok? then OAuthRun(OAuthRefused(SIGN_IN_FAILED + installations.message), upToInstallations)
        else if installations.value == [] then OAuthRun(OAuthRefused(NO_INSTALLATION), upToInstallations)
        else
          var id := installations.value[0].id;
          var repos := api.getInstallationRepos(auth, id);
          var all := upToInstallations + [GetInstallationRepos(auth, id)];
          if !repos.Ok? then OAuthRun(OAuthRefused(SIGN_IN_FAILED + repos.message), all)
          else if repos.value == [] then OAuthRun(OAuthRefused(NO_REPOSITORY), all)
          else OAuthRun(Installed(token, user.value.login, id, repos.value[0].ownerLogin, repos.value[0].name), all)
  }

  /** A completed OAuth sign-in went through every service with success,
      chose the first installation and that installation's first repository,
      and made exactly four calls; a refused code exchange ends it at once. */
  lemma {:induction false} OAuthSignInSpec(code: string, verifier: string, api: Api)
    ensures var run := OAuthSignIn(code, verifier, api);
      run.outcome.Installed? ==>
      var auth := Bearer(run.outcome.token);
      && api.exchange(code, verifier) == Ok(run.outcome.token)
      && api.getUser(auth) == Ok(User(run.outcome.login))
      && api.getInstallations(auth).Ok? && api.getInstallations(auth).value != []
      && run.outcome.installationId == api.getInstallations(auth).value[0].id
      && api.getInstallationRepos(auth, run.outcome.installationId).Ok?
      && api.getInstallationRepos(auth, run.outcome.installationId).value != []
      && api.getInstallationRepos(auth, run.outcome.installationId).value[0]
           == InstallationRepo(run.outcome.owner, run.outcome.name)
      && run.calls == [ExchangeCode(code, verifier), GetUser(auth), GetInstallations(auth),
                       GetInstallationRepos(auth, run.outcome.installationId)]
    ensures var run := OAuthSignIn(code, verifier, api);
      !api.exchange(code, verifier).Ok? ==>
      run == OAuthRun(OAuthRefused(SIGN_IN_FAILED + api.exchange(code, verifier).message), [ExchangeCode(code, verifier)])
  {
  }

  /** The store writes of a completed OAuth sign-in, in the order made. */
  function OAuthWrites(o: OAuthOutcome): (writes: seq<StoreWrite>)
    requires o.Installed?
    ensures |writes| == 3
    ensures writes[0] == WriteOAuthTokens(o.token, o.login)
    ensures writes[1] == WriteRepo(o.owner, o.name)
    ensures writes[2] == WriteInstallationId(o.installationId)
  {
    [WriteOAuthTokens(o.token, o.login), WriteRepo(o.owner, o.name), WriteInstallationId(o.installationId)]
  }

  /** No installation, or an installation with no repository, each ends the
      sign-in with its own message and nothing chosen. */
  lemma {:induction false} OAuthEmptyLists(code: string, verifier: string, api: Api, token: string, login: string)
    requires api.exchange(code, verifier) == Ok(token)
    requires api.getUser(Bearer(token)) == Ok(User(login))
    ensures api.getInstallations(Bearer(token)) == Ok([]) ==>
      OAuthSignIn(code, verifier, api).outcome == OAuthRefused(NO_INSTALLATION)
    ensures api.getInstallations(Bearer(token)).Ok? && api.getInstallations(Bearer(token)).value != [] &&
            api.getInstallationRepos(Bearer(token), api.getInstallations(Bearer(token)).value[0].id) == Ok([]) ==>
      OAuthSignIn(code, verifier, api).outcome == OAuthRefused(NO_REPOSITORY)
  {
  }

  // ---------------------------------------------------------- PAT sign-in

  /** A network-error message is never mistaken for the two messages the
      PAT sign-in reserves for a bad token and a missing repository. */
  lemma {:induction false} NetworkErrorDistinct(message: string)
    ensures NETWORK_ERROR + message != TOKEN_INVALID
    ensures NETWORK_ERROR + message != REPO_NOT_FOUND
  {
    assert (NETWORK_ERROR + message)[0] == 'N';
    assert TOKEN_INVALID[0] == 'P';
    assert REPO_NOT_FOUND[0] == 'R';
  }

  datatype PatOutcome = Validated(login: string) | PatRefused(message: string)

  datatype PatRun = PatRun(outcome: PatOutcome, calls: seq<ApiCall>)

  /** The coroutine of `submit`: look the user up (a 401 means a bad token),
      then the repository (a 404 means no such repository); any other
      exception ends it with `Network error: <message>`. */
  function PatSignIn(token: string, owner: string, repo: string, api: Api): (run: PatRun)
    ensures run.calls != [] && run.calls[0] == GetUser(Bearer(token))
  {
    var auth := Bearer(token);
    var user := api.getUser(auth);
    if user.IsHttp(401) then PatRun(PatRefused(TOKEN_INVALID), [GetUser(auth)])
    else if !user.Ok? then PatRun(PatRefused(NETWORK_ERROR + user.message), [GetUser(auth)])
    else
      var calls := [GetUser(auth), GetRepository(auth, owner, repo)];
      var found := api.getRepository(auth, owner, repo);
      if found.IsHttp(404) then PatRun(PatRefused(REPO_NOT_FOUND), calls)
      else if !found.Ok? then PatRun(PatRefused(NETWORK_ERROR + found.message), calls)
      else PatRun(Validated(user.value.login), calls)
  }

  /** The order of the PAT checks: a 401 from the user lookup means a bad
      token and nothing else is asked; a 404 from the repository lookup means
      a missing repository; the sign-in is validated exactly when both
      lookups succeed, with the login the user lookup returned. */
  lemma {:induction false} PatSignInOrder(token: string, owner: string, repo: string, api: Api)
    ensures var run := PatSignIn(token, owner, repo, api);
      api.getUser(Bearer(token)).IsHttp(401) <==> run == PatRun(PatRefused(TOKEN_INVALID), [GetUser(Bearer(token))])
    ensures var run := PatSignIn(token, owner, repo, api);
      run.outcome == PatRefused(REPO_NOT_FOUND) <==>
        api.getUser(Bearer(token)).Ok? && api.getRepository(Bearer(token), owner, repo).IsHttp(404)
    ensures var run := PatSignIn(token, owner, repo, api);
      run.outcome.Validated? <==> api.getUser(Bearer(token)).Ok? && api.getRepository(Bearer(token), owner, repo).Ok?
    ensures var run := PatSignIn(token, owner, repo, api);
      run.outcome.Validated? ==>
        && api.getUser(Bearer(token)).value.login == run.outcome.login
        && run.calls == [GetUser(Bearer(token)), GetRepository(Bearer(token), owner, repo)]
  {
    var auth := Bearer(token);
    var user := api.getUser(auth);
    if !user.Ok? {
      NetworkErrorDistinct(user.message);
    } else {
      var found := api.getRepository(auth, owner, repo);
      if !found.Ok? {
        NetworkErrorDistinct(found.message);
      }
    }
  }

  /** What the synchronous part of `submit` decides from the trimmed token
      and repository fields: stop with a message, or go on with a parsed
      owner and name. */
  datatype Guard = Stop(message: string) | Go(owner: string, repo: string)

  /** The checks of `submit`, in their order: blank token, blank
      repository, unparsable repository. */
  function SubmitGuard(token: string, repoInput: string): (g: Guard)
    ensures g.Stop? ==> g.message in {TOKEN_REQUIRED, REPO_REQUIRED, BAD_REPO_FORMAT}
  {
    if IsBlank(token) then Stop(TOKEN_REQUIRED)
    else if IsBlank(repoInput) then Stop(REPO_REQUIRED)
    else
      match ParseRepo(repoInput)
      case None => Stop(BAD_REPO_FORMAT)
      case Some((owner, repo)) => Go(owner, repo)
  }

  /** The order of the checks of `submit`: a blank token is reported first,
      then a blank repository, then one that does not parse; the sign-in goes
      on exactly when the token is present and the repository parses, with
      the owner and name the parser found. */
  lemma {:induction false} SubmitGuardOrder(token: string, repoInput: string)
    ensures IsBlank(token) ==> SubmitGuard(token, repoInput) == Stop(TOKEN_REQUIRED)
    ensures !IsBlank(token) && IsBlank(repoInput) ==> SubmitGuard(token, repoInput) == Stop(REPO_REQUIRED)
    ensures !IsBlank(token) && !IsBlank(repoInput) && ParseRepo(repoInput).None? ==>
      SubmitGuard(token, repoInput) == Stop(BAD_REPO_FORMAT)
    ensures SubmitGuard(token, repoInput).Go? <==> !IsBlank(token) && ParseRepo(repoInput).Some?
    ensures SubmitGuard(token, repoInput).Go? ==>
      (SubmitGuard(token, repoInput).owner, SubmitGuard(token, repoInput).repo) == ParseRepo(repoInput).value
  {
    if !IsBlank(token) && IsBlank(repoInput) {
      BlankRepoNeverParses(repoInput);
    }
  }

  // ------------------------------------------------------------ view model

  datatype AuthUiState = AuthUiState(
    token: string,
    repo: string,
    isValidating: bool,
    isSetupComplete: bool,
    error: Option<string>,
    isOAuthInProgress: bool,
    showPatFlow: bool)

  const INITIAL_UI: AuthUiState := AuthUiState("", "", false, false, None, false, false)

  class AuthViewModel {
    /** `_uiState.value`. */
    var ui: AuthUiState
    /** The `SavedStateHandle`: survives process death. */
    var saved: map<string, string>
    const store: AuthManager.AuthManager

    constructor (store: AuthManager.AuthManager, saved: map<string, string>)
      ensures this.store == store && this.saved == saved && ui == INITIAL_UI
    {
      this.store := store;
      this.saved := saved;
      ui := INITIAL_UI;
    }

    /** `startOAuthFlow()`, given the random octets of the verifier and of
        the state: both are kept in the saved state and the install URL is
        returned. */
    method StartOAuthFlow(verifierBytes: seq<byte>, stateBytes: seq<byte>) returns (url: string)
      requires |verifierBytes| == OAuthConfig.VERIFIER_BYTES && |stateBytes| == OAuthConfig.STATE_BYTES
      modifies this
      ensures saved == old(saved)[VERIFIER_KEY := OAuthConfig.GenerateCodeVerifier(verifierBytes)]
                                 [STATE_KEY := OAuthConfig.GenerateState(stateBytes)]
      ensures Decode(UrlSafe, saved[VERIFIER_KEY]) == Some(verifierBytes)
      ensures OAuthConfig.DecodeHex(saved[STATE_KEY]) == Some(stateBytes)
      ensures ui == old(ui).(isOAuthInProgress := true, error := None)
      ensures url == OAuthConfig.APP_INSTALL_URL
    {
      var verifier := OAuthConfig.GenerateCodeVerifier(verifierBytes);
      var state := OAuthConfig.GenerateState(stateBytes);
      OAuthConfig.VerifierRoundTrip(verifierBytes);
      OAuthConfig.StateRoundTrip(stateBytes);
      saved := saved[VERIFIER_KEY := verifier];
      saved := saved[STATE_KEY := state];
      ui := ui.(isOAuthInProgress := true, error := None);
      url := OAuthConfig.APP_INSTALL_URL;
    }

    /** `handleOAuthCallback(code, state)`. The returned `state` is not
        compared with the saved one; only the presence of both saved values
        is checked. The saved session is cleared only after a completed
        sign-in. */
    method HandleOAuthCallback(code: string, state: string, api: Api)
      returns (calls: seq<ApiCall>, writes: seq<StoreWrite>)
      modifies this
      ensures STATE_KEY !in old(saved) || VERIFIER_KEY !in old(saved) ==>
        && ui == old(ui).(isOAuthInProgress := false, error := Some(SESSION_EXPIRED))
        && saved == old(saved) && calls == [] && writes == []
      ensures STATE_KEY in old(saved) && VERIFIER_KEY in old(saved) ==>
        calls == OAuthSignIn(code, old(saved)[VERIFIER_KEY], api).calls
      ensures STATE_KEY in old(saved) && VERIFIER_KEY in old(saved) ==>
        var o := OAuthSignIn(code, old(saved)[VERIFIER_KEY], api).outcome;
        o.Installed? ==>
          && writes == OAuthWrites(o)
          && saved == old(saved) - {VERIFIER_KEY, STATE_KEY}
          && ui == old(ui).(isValidating := false, isOAuthInProgress := false, isSetupComplete := true, error := None)
      ensures STATE_KEY in old(saved) && VERIFIER_KEY in old(saved) ==>
        var o := OAuthSignIn(code, old(saved)[VERIFIER_KEY], api).outcome;
        o.OAuthRefused? ==>
          && writes == [] && saved == old(saved)
          && ui == old(ui).(isValidating := false, isOAuthInProgress := false, error := Some(o.message))
    {
      if STATE_KEY !in saved || VERIFIER_KEY !in saved {
        ui := ui.(isOAuthInProgress := false, error := Some(SESSION_EXPIRED));
        return [], [];
      }
      var verifier := saved[VERIFIER_KEY];
      ui := ui.(isValidating := true, error := None);
      var run := OAuthSignIn(code, verifier, api);
      calls := run.calls;
      match run.outcome
      case OAuthRefused(message) =>
        ui := ui.(isValidating := false, isOAuthInProgress := false, error := Some(message));
        writes := [];
      case Installed(token, login, id, owner, name) =>
        writes := [WriteOAuthTokens(token, login), WriteRepo(owner, name), WriteInstallationId(id)];
        saved := saved - {VERIFIER_KEY};
        saved := saved - {STATE_KEY};
        ui := ui.(isValidating := false, isOAuthInProgress := false, isSetupComplete := true);
    }

    /** `cancelOAuthFlow()`. */
    method CancelOAuthFlow()
      modifies this
      ensures ui == old(ui).(isOAuthInProgress := false) && saved == old(saved)
    {
      ui := ui.(isOAuthInProgress := false);
    }

    /** `showPatFlow()`. */
    method ShowPatFlow()
      modifies this
      ensures ui == old(ui).(showPatFlow := true, error := None) && saved == old(saved)
    {
      ui := ui.(showPatFlow := true, error := None);
    }

    /** `hidePatFlow()`. */
    method HidePatFlow()
      modifies this
      ensures ui == old(ui).(showPatFlow := false, error := None) && saved == old(saved)
    {
      ui := ui.(showPatFlow := false, error := None);
    }

    /** `updateToken(token)`: the field is replaced and any error cleared. */
    method UpdateToken(token: string)
      modifies this
      ensures ui == old(ui).(token := token, error := None) && saved == old(saved)
    {
      ui := ui.(token := token, error := None);
    }

    /** `updateRepo(repo)`. */
    method UpdateRepo(repo: string)
      modifies this
      ensures ui == old(ui).(repo := repo, error := None) && saved == old(saved)
    {
      ui := ui.(repo := repo, error := None);
    }

    /** The coroutine `submit` launches once its checks pass: validate the
        token and the repository remotely, then save both, in that order. */
    method RunPatSignIn(token: string, owner: string, repo: string, api: Api) returns (calls: seq<ApiCall>)
      modifies this, store
      ensures saved == old(saved)
      ensures calls == PatSignIn(token, owner, repo, api).calls
      ensures var o := PatSignIn(token, owner, repo, api).outcome;
        o.Validated? ==>
          && store.prefs == AuthManager.WithRepo(AuthManager.WithAuth(old(store.prefs), token, o.login), owner, repo)
          && ui == old(ui).(isValidating := false, isSetupComplete := true)
      ensures var o := PatSignIn(token, owner, repo, api).outcome;
        o.PatRefused? ==>
          && store.prefs == old(store.prefs)
          && ui == old(ui).(isValidating := false, error := Some(o.message))
    {
      var run := PatSignIn(token, owner, repo, api);
      calls := run.calls;
      match run.outcome
      case PatRefused(message) =>
        ui := ui.(isValidating := false, error := Some(message));
      case Validated(login) =>
        store.SaveAuth(token, login);
        store.SaveRepo(owner, repo);
        ui := ui.(isValidating := false, isSetupComplete := true);
    }

    /** `submit()`: the personal-access-token sign-in. The checks run in a
        fixed order (blank token, blank repository, unparsable repository)
        and each stops before any call; then the token and the repository
        are validated remotely, and only then saved. */
    method Submit(api: Api) returns (calls: seq<ApiCall>)
      modifies this, store
      ensures saved == old(saved)
      ensures var g := Checks(old(ui));
        g.Stop? ==> ui == old(ui).(error := Some(g.message)) && calls == [] && store.prefs == old(store.prefs)
      ensures var g := Checks(old(ui));
        g.Go? ==> calls == PatSignIn(Token(old(ui)), g.owner, g.repo, api).calls
      ensures var g := Checks(old(ui));
        g.Go? && PatSignIn(Token(old(ui)), g.owner, g.repo, api).outcome.Validated? ==>
          var o := PatSignIn(Token(old(ui)), g.owner, g.repo, api).outcome;
          && store.prefs == AuthManager.WithRepo(AuthManager.WithAuth(old(store.prefs), Token(old(ui)), o.login), g.owner, g.repo)
          && ui == old(ui).(isValidating := false, isSetupComplete := true, error := None)
      ensures var g := Checks(old(ui));
        g.Go? && PatSignIn(Token(old(ui)), g.owner, g.repo, api).outcome.PatRefused? ==>
          var o := PatSignIn(Token(old(ui)), g.owner, g.repo, api).outcome;
          && store.prefs == old(store.prefs)
          && ui == old(ui).(isValidating := false, error := Some(o.message))
    {
      var token := Token(ui);
      var guard := Checks(ui);
      if guard.Stop? {
        ui := ui.(error := Some(guard.message));
        return [];
      }
      ui := ui.(isValidating := true, error := None);
      calls := RunPatSignIn(token, guard.owner, guard.repo, api);
    }
  }

  /** The token `submit` sends: the field as typed, trimmed. */
  function Token(ui: AuthUiState): (token: string)
    ensures IsTrimmed(token)
  {
    TrimSpec(ui.token);
    Trim(ui.token)
  }

  /** The checks of `submit` on the trimmed fields. */
  function Checks(ui: AuthUiState): Guard {
    SubmitGuard(Token(ui), Trim(ui.repo))
  }

  /** A blank repository field can never parse: the check for it comes
      first only to give its own message. */
  lemma {:induction false} BlankRepoNeverParses(input: string)
    requires IsBlank(input)
    ensures ParseRepo(input).None?
  {
    ParseNoSlash(input);
  }
}
