/** `SettingsViewModel`: the account summary shown on the settings screen,
    sign-out, and the full wipe of local data.

    Each coroutine runs here as straight-line steps. The `authType`
    preference and the token kept in the encrypted preferences are not
    part of `AuthManager` as modelled, so they are read as inputs. Every
    step the view model takes outside its own state is logged as an
    `Event`, with the `isSigningOut` flag the screen showed while it ran. */
module SettingsViewModel {
  import opened Wrappers
  import opened Text
  import AuthManager
  import LocalData
  import AuthViewModel

  datatype SettingsUiState = SettingsUiState(
    username: string,
    repoFullName: string,
    isAssistantDefault: bool,
    authType: string,
    isSigningOut: bool)

  const INITIAL_UI: SettingsUiState := SettingsUiState("", "", false, "", false)

  /** The value of `authType` that asks for a revocation. */
  const OAUTH: string := "oauth"

  // ------------------------------------------------------------ observeAuth

  /** The `owner/name` line of the summary, or "" unless both are stored. */
  function RepoFullName(owner: Option<string>, name: Option<string>): (full: string)
    ensures full == "" <==> owner.None? || name.None?
    ensures owner.Some? && name.Some? ==> |full| == |owner.value| + 1 + |name.value|
  {
    if owner.Some? && name.Some? then owner.value + "/" + name.value else ""
  }

  /** The summary line of a repository the sign-in stored reads back, through
      the repository parser, as the same owner and name. */
  lemma {:induction false} RepoFullNameParses(owner: string, name: string)
    requires !IsBlank(owner) && !IsBlank(name) && '/' !in owner && '/' !in name
    requires !IsWhitespace(owner[0]) && !IsWhitespace(name[|name| - 1]) && !EndsWith(name, ".git")
    ensures AuthViewModel.ParseRepo(RepoFullName(Some(owner), Some(name))) == Some((owner, name))
  {
    AuthViewModel.ParseShortForm(owner, name, "");
    assert owner + "/" + name + "" == owner + "/" + name;
  }

  /** The projection `observeAuth` applies to each combined value of the
      four preferences: missing values show as "". */
  function Projected(ui: SettingsUiState, username: Option<string>, owner: Option<string>, name: Option<string>,
                     authType: Option<string>): (r: SettingsUiState)
    ensures r.username == username.GetOr("") && r.authType == authType.GetOr("")
    ensures r.repoFullName == "" <==> owner.None? || name.None?
    ensures r.isAssistantDefault == ui.isAssistantDefault && r.isSigningOut == ui.isSigningOut
  {
    ui.(username := username.GetOr(""), repoFullName := RepoFullName(owner, name), authType := authType.GetOr(""))
  }

  // -------------------------------------------------------------- revocation

  /** `revokeOAuthTokenIfNeeded`: the token to revoke, if any. Only an OAuth
      sign-in with a token in the encrypted preferences revokes. */
  function RevokeTarget(authType: Option<string>, storedToken: Option<string>): (token: Option<string>)
    ensures token.Some? <==> authType == Some(OAUTH) && storedToken.Some?
    ensures token.Some? ==> token == storedToken
  {
    match authType
    case None => None
    case Some(kind) =>
      if kind != OAUTH then None
      else storedToken
  }

  /** A step of a sign-out or a wipe, outside the view model's own state. */
  datatype Action =
    | RevokeToken(token: string)
    | CancelAllWork
    | DeleteAllPending
    | DeleteAllSubmissions
    | ClearStore
    | Complete

  /** An action and the `isSigningOut` flag shown while it ran. */
  datatype Event = Event(action: Action, signingOut: bool)

  /** The revocation request, if one is made. Its answer, or the five-second
      timeout, is ignored either way. */
  function RevokeEvents(token: Option<string>): (events: seq<Event>)
    ensures |events| <= 1
    ensures events != [] <==> token.Some?
    ensures events != [] ==> events[0] == Event(RevokeToken(token.value), true)
  {
    if token.Some? then [Event(RevokeToken(token.value), true)] else []
  }

  /** The events of `signOut`. */
  function SignOutEvents(token: Option<string>): seq<Event> {
    RevokeEvents(token) + [Event(ClearStore, true), Event(Complete, false)]
  }

  /** The events of `clearAllData`. */
  function WipeEvents(token: Option<string>): seq<Event> {
    RevokeEvents(token) + WipeTail()
  }

  /** The steps of `clearAllData` after the revocation. */
  function WipeTail(): seq<Event> {
    [Event(CancelAllWork, true), Event(DeleteAllPending, true), Event(DeleteAllSubmissions, true),
     Event(ClearStore, true), Event(Complete, false)]
  }

  /** The index of the first event carrying `a`, if any. */
  function IndexOfAction(events: seq<Event>, a: Action): (i: Option<nat>)
    ensures i.Some? ==> i.value < |events| && events[i.value].action == a
    ensures i.Some? ==> forall k :: 0 <= k < i.value ==> events[k].action != a
    ensures i.None? ==> forall k :: 0 <= k < |events| ==> events[k].action != a
  {
    if events == [] then None
    else if events[0].action == a then Some(0)
    else match IndexOfAction(events[1..], a)
      case None => None
      case Some(j) => Some(j + 1)
  }

  /** A sign-out busies the screen until its end: `onComplete` is the last
      event, the only one with the flag down, and it comes right after the
      store is cleared. Neither table is touched. */
  lemma {:induction false} SignOutOrder(token: Option<string>)
    ensures var e := SignOutEvents(token);
      && e[|e| - 1] == Event(Complete, false)
      && e[|e| - 2] == Event(ClearStore, true)
      && (forall k :: 0 <= k < |e| - 1 ==> e[k].signingOut)
      && IndexOfAction(e, DeleteAllPending).None? && IndexOfAction(e, DeleteAllSubmissions).None?
  {
    var e := SignOutEvents(token);
    assert forall k :: 0 <= k < |e| ==> e[k].action != DeleteAllPending && e[k].action != DeleteAllSubmissions;
  }

  /** A wipe cancels the scheduled work, empties the pending table, empties
      the history table and clears the store, in that order, right after
      the revocation, and only then completes. */
  lemma {:induction false} WipeOrder(token: Option<string>)
    ensures var e := WipeEvents(token);
      var n := |RevokeEvents(token)|;
      && |e| == n + 5
      && IndexOfAction(e, CancelAllWork) == Some(n)
      && IndexOfAction(e, DeleteAllPending) == Some(n + 1)
      && IndexOfAction(e, DeleteAllSubmissions) == Some(n + 2)
      && IndexOfAction(e, ClearStore) == Some(n + 3)
      && IndexOfAction(e, Complete) == Some(n + 4)
  {
    WipeTailIndexes();
    WipeIndex(token, CancelAllWork, 0);
    WipeIndex(token, DeleteAllPending, 1);
    WipeIndex(token, DeleteAllSubmissions, 2);
    WipeIndex(token, ClearStore, 3);
    WipeIndex(token, Complete, 4);
  }

  /** A step of the wipe sits behind the revocation. */
  lemma {:induction false} WipeIndex(token: Option<string>, a: Action, i: nat)
    requires IndexOfAction(WipeTail(), a) == Some(i)
    ensures IndexOfAction(WipeEvents(token), a) == Some(|RevokeEvents(token)| + i)
  {
    assert !a.RevokeToken?;
    IndexPastRevoke(RevokeEvents(token), WipeTail(), a);
  }

  /** The screen stays busy through a wipe until its last event. */
  lemma {:induction false} WipeBusy(token: Option<string>)
    ensures var e := WipeEvents(token);
      && (forall k :: 0 <= k < |e| - 1 ==> e[k].signingOut) && !e[|e| - 1].signingOut
  {
    var e := WipeEvents(token);
    var n := |RevokeEvents(token)|;
    assert forall k :: n <= k < |e| ==> e[k] == WipeTail()[k - n];
  }

  /** Where each step of the wipe first appears after the revocation. */
  lemma {:induction false} WipeTailIndexes()
    ensures IndexOfAction(WipeTail(), CancelAllWork) == Some(0)
    ensures IndexOfAction(WipeTail(), DeleteAllPending) == Some(1)
    ensures IndexOfAction(WipeTail(), DeleteAllSubmissions) == Some(2)
    ensures IndexOfAction(WipeTail(), ClearStore) == Some(3)
    ensures IndexOfAction(WipeTail(), Complete) == Some(4)
  {
    var t := WipeTail();
    assert t[1..][1..][1..][1..] == [Event(Complete, false)];
  }

  /** Behind a prefix that does not hold `a`, the first `a` is found in the
      rest, shifted by the prefix's length. */
  lemma {:induction false} IndexPastRevoke(prefix: seq<Event>, rest: seq<Event>, a: Action)
    requires forall k :: 0 <= k < |prefix| ==> prefix[k].action != a
    requires IndexOfAction(rest, a).Some?
    ensures IndexOfAction(prefix + rest, a) == Some(|prefix| + IndexOfAction(rest, a).value)
    decreases |prefix|
  {
    if prefix != [] {
      assert (prefix + rest)[1..] == prefix[1..] + rest;
      IndexPastRevoke(prefix[1..], rest, a);
    } else {
      assert prefix + rest == rest;
    }
  }

  // -------------------------------------------------------------- view model

  class SettingsViewModel {
    /** `_uiState.value`. */
    var ui: SettingsUiState
    /** Every step taken outside the view model, in order. */
    var events: seq<Event>
    const store: AuthManager.AuthManager
    const db: LocalData.NoteDatabase

    constructor (store: AuthManager.AuthManager, db: LocalData.NoteDatabase)
      ensures this.store == store && this.db == db
      ensures ui == INITIAL_UI && events == []
    {
      this.store := store;
      this.db := db;
      ui := INITIAL_UI;
      events := [];
    }

    /** One value of the `observeAuth` flow. `authType` is the stored sign-in
        kind, which `AuthManager` as modelled does not hold. */
    method ObserveAuth(authType: Option<string>)
      modifies this
      ensures ui == Projected(old(ui), store.Username(), store.RepoOwner(), store.RepoName(), authType)
      ensures events == old(events)
    {
      ui := Projected(ui, store.Username(), store.RepoOwner(), store.RepoName(), authType);
    }

    /** `checkAssistantRole()`, given what the role manager answers. */
    method CheckAssistantRole(isDefault: bool)
      modifies this
      ensures ui == old(ui).(isAssistantDefault := isDefault) && events == old(events)
    {
      ui := ui.(isAssistantDefault := isDefault);
    }

    /** `revokeOAuthTokenIfNeeded()`, which both callers run with the
        screen already busy. */
    method RevokeIfNeeded(authType: Option<string>, storedToken: Option<string>)
      requires ui.isSigningOut
      modifies this
      ensures events == old(events) + RevokeEvents(RevokeTarget(authType, storedToken))
      ensures ui == old(ui)
    {
      var token := RevokeTarget(authType, storedToken);
      if token.Some? {
        events := events + [Event(RevokeToken(token.value), ui.isSigningOut)];
      }
    }

    /** `signOut(onComplete)`: the store is cleared, both tables are kept. */
    method SignOut(authType: Option<string>, storedToken: Option<string>)
      modifies this, store
      ensures store.prefs == map[]
      ensures db.pending == old(db.pending) && db.history == old(db.history)
      ensures ui == old(ui).(isSigningOut := false)
      ensures events == old(events) + SignOutEvents(RevokeTarget(authType, storedToken))
    {
      ui := ui.(isSigningOut := true);
      RevokeIfNeeded(authType, storedToken);
      store.SignOut();
      events := events + [Event(ClearStore, ui.isSigningOut)];
      ui := ui.(isSigningOut := false);
      events := events + [Event(Complete, ui.isSigningOut)];
    }

    /** `clearAllData(onComplete)`: scheduled uploads are cancelled, both
        tables emptied and the store cleared. */
    method ClearAllData(authType: Option<string>, storedToken: Option<string>)
      modifies this, store, db
      ensures db.pending == [] && db.history == [] && store.prefs == map[]
      ensures ui == old(ui).(isSigningOut := false)
      ensures events == old(events) + WipeEvents(RevokeTarget(authType, storedToken))
    {
      ui := ui.(isSigningOut := true);
      RevokeIfNeeded(authType, storedToken);
      events := events + [Event(CancelAllWork, ui.isSigningOut)];
      db.DeleteAllPending();
      events := events + [Event(DeleteAllPending, ui.isSigningOut)];
      db.DeleteAllSubmissions();
      events := events + [Event(DeleteAllSubmissions, ui.isSigningOut)];
      store.SignOut();
      events := events + [Event(ClearStore, ui.isSigningOut)];
      ui := ui.(isSigningOut := false);
      events := events + [Event(Complete, ui.isSigningOut)];
    }
  }
}
