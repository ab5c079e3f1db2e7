/** `AuthManager`: the credential record, a DataStore of string preferences
    under four keys. Each `edit` block is one atomic update of the map; the
    flows are projections of its current value. */
module AuthManager {
  import opened Wrappers

  /** The four `stringPreferencesKey`s: `access_token`, `username`,
      `repo_owner`, `repo_name`. */
  datatype Key = AccessToken | Username | RepoOwner | RepoName

  /** A getter's view of the map: the stored value or null. */
  function Lookup(prefs: map<Key, string>, k: Key): (v: Option<string>)
    ensures v.Some? <==> k in prefs
    ensures v.Some? ==> prefs[k] == v.value
  {
    if k in prefs then Some(prefs[k]) else None
  }

  /** What `saveAuth` leaves in the map. */
  function WithAuth(prefs: map<Key, string>, token: string, username: string): map<Key, string> {
    prefs[AccessToken := token][Username := username]
  }

  /** What `saveRepo` leaves in the map. */
  function WithRepo(prefs: map<Key, string>, owner: string, name: string): map<Key, string> {
    prefs[RepoOwner := owner][RepoName := name]
  }

  /** After `saveAuth` the token and user-name getters yield the values
      written, and the repository getters what they yielded before. */
  lemma {:induction false} SaveAuthLookups(prefs: map<Key, string>, token: string, username: string)
    ensures Lookup(WithAuth(prefs, token, username), AccessToken) == Some(token)
    ensures Lookup(WithAuth(prefs, token, username), Username) == Some(username)
    ensures Lookup(WithAuth(prefs, token, username), RepoOwner) == Lookup(prefs, RepoOwner)
    ensures Lookup(WithAuth(prefs, token, username), RepoName) == Lookup(prefs, RepoName)
  {
  }

  /** After `saveRepo` the repository getters yield the values written, and
      the token and user-name getters what they yielded before. */
  lemma {:induction false} SaveRepoLookups(prefs: map<Key, string>, owner: string, name: string)
    ensures Lookup(WithRepo(prefs, owner, name), RepoOwner) == Some(owner)
    ensures Lookup(WithRepo(prefs, owner, name), RepoName) == Some(name)
    ensures Lookup(WithRepo(prefs, owner, name), AccessToken) == Lookup(prefs, AccessToken)
    ensures Lookup(WithRepo(prefs, owner, name), Username) == Lookup(prefs, Username)
  {
  }

  /** A cleared store answers null for every key. */
  lemma {:induction false} ClearedLookups(k: Key)
    ensures Lookup(map[], k) == None
  {
  }

  class AuthManager {
    /** The preferences DataStore named "auth". */
    var prefs: map<Key, string>

    /** A fresh, empty store. */
    constructor ()
      ensures prefs == map[]
    {
      prefs := map[];
    }

    function AccessToken(): Option<string>
      reads this
    {
      Lookup(prefs, Key.AccessToken)
    }

    function Username(): Option<string>
      reads this
    {
      Lookup(prefs, Key.Username)
    }

    function RepoOwner(): Option<string>
      reads this
    {
      Lookup(prefs, Key.RepoOwner)
    }

    function RepoName(): Option<string>
      reads this
    {
      Lookup(prefs, Key.RepoName)
    }

    /** `isAuthenticated`: an access token is stored. */
    predicate IsAuthenticated()
      reads this
      ensures IsAuthenticated() <==> AccessToken().Some?
    {
      Key.AccessToken in prefs
    }

    /** `hasRepo`: both the owner and the name are stored. */
    predicate HasRepo()
      reads this
      ensures HasRepo() <==> RepoOwner().Some? && RepoName().Some?
    {
      Key.RepoOwner in prefs && Key.RepoName in prefs
    }

    /** `saveAuth`: writes the token and the user name and nothing else. */
    method SaveAuth(token: string, username: string)
      modifies this
      ensures prefs == WithAuth(old(prefs), token, username)
    {
      prefs := WithAuth(prefs, token, username);
    }

    /** `saveRepo`: writes the repository owner and name and nothing else. */
    method SaveRepo(owner: string, name: string)
      modifies this
      ensures prefs == WithRepo(old(prefs), owner, name)
    {
      prefs := WithRepo(prefs, owner, name);
    }

    /** `signOut`: `clear()` removes every key, so every getter yields null. */
    method SignOut()
      modifies this
      ensures prefs == map[]
    {
      prefs := map[];
    }
  }
}
