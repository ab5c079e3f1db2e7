# GitJot note taker — a Dafny model of its data and view-model layers

GitJot is an Android app that captures short notes and commits each note as a Markdown file to `inbox/` in a GitHub repository. This project models the parts of the app that decide what happens, and proves properties about them:

- **the upload worker** (`NoteUploadWorker.doWork`): drains the pending-note table in order. For each note it marks the note uploading, tries `inbox/<filename>.md`, retries once at `inbox/<filename>-1.md` after a 422 conflict, then records and deletes the note, or marks it failed and stops.
- **the repository** (`NoteRepository`): immediate submission of a note, with its history record, and the reader of the `.current_topic` file.
- **the credential store** (`AuthManager`): a preferences map with `saveAuth`, `saveRepo`, `signOut` and the derived `isAuthenticated` / `hasRepo`.
- **the sign-in view model** (`AuthViewModel`): the repository-string parser, the personal-access-token (PAT) sign-in chain, and the PKCE callback of the GitHub App sign-in.
- **the settings view model** (`SettingsViewModel`): the account summary, sign-out, and the full data wipe.
- **the note-input view model** (`NoteViewModel`): speech-segment accumulation, the voice/keyboard switch, and submission.
- **the browse view model** (`BrowseViewModel`): directory navigation and file viewing.
- **`OAuthConfig`**: the PKCE code verifier and challenge (base64url without padding, RFC 7636 sections 4.1 and 4.2) and the hex `state` string.

## Modules

- **Shared modules:**
  - `wrappers.dfy`: `Option`.
  - `text.dfy`: the Kotlin string functions the core uses (`trim`, `isBlank`, `removeSuffix`, `split`, `substringBeforeLast`, `take`, `replace`), with Kotlin's `Char.isWhitespace` written out as a set of code points.
  - `base64.dfy`: RFC 4648 base64 and base64url (sections 4 and 5), padded or not, with a decoder and the round-trip lemma.
  - `github_api.dfy`: the remote calls as datatypes. A remote answer is `Ok(value)`, `Http(code, message)` (an `HttpException`) or `Failure(message)` (any other exception).
  - `local_data.dfy`: the pending and history tables, as a class over two sequences.
- **One module per core file:**
  - `note_upload_worker.dfy`, `note_repository.dfy` and `auth_manager.dfy`;
  - `oauth_config.dfy`;
  - `auth_view_model.dfy`, `settings_view_model.dfy`, `note_view_model.dfy` and `browse_view_model.dfy`.

Code that updates state step by step is modelled imperatively:

- the worker loop;
- the store's `edit` blocks;
- the tables;
- every view model: a class whose `ui` field is the `_uiState` value.

Code that only computes is modelled as functions:

- the parser;
- the encoders;
- the topic reader;
- the sign-in chains.

The worker loop `DrainTable` is proved against the specification function `Drain`, and the properties of the run are lemmas about `Drain`. The same pattern holds elsewhere: `Submit` is proved against `PatSignIn` and `HandleOAuthCallback` against `OAuthSignIn`.

Outside services are parameters: the GitHub API, the token exchanger, UTF-8 encoding, the clock, SecureRandom, SHA-256, the speech recognizer and the role manager. Each coroutine is read as straight-line steps: the first state update, then the update for the answer that is passed in. Calls a view model makes outside its own state are returned or logged as a trace, in order.

The source files come from divergent versions of the app. Each is modelled as written:

- **Submission:** `NoteRepository.submitNote` returns success or failure and never enqueues a note. A remote failure only adds a history row with `success = false`. The app's design notes describe an enqueue-on-failure submission that reports `QUEUED`; this model follows the code.
  - `NoteViewModel` expects the `SENT`/`QUEUED` result of the later version, so its submission outcome is a parameter.
  - Only the success path of `submit` changes the view model. After a failed submission `isSubmitting` stays true, and every later `Submit` is a no-op, as its contract states.
- **Store reads and writes outside `AuthManager.kt`:** `saveOAuthTokens`, `saveInstallationId` and `authType` do not appear in it.
  - The OAuth sign-in returns its store writes as values, in order.
  - `SettingsViewModel` takes the stored `authType` and the token in the encrypted preferences as inputs.
- **The OAuth `state` parameter:** the callback never compares the returned `state` with the saved one. It only checks that both saved values are present. The design notes call for state validation; the model follows the code.

## Model

| member | source | states |
|---|---|---|
| Text.TrimSpec | app/src/main/kotlin/com/carsondavis/notetaker/ui/viewmodels/AuthViewModel.kt:185 | `trim` removes only a blank prefix and a blank suffix, and its result starts and ends with non-whitespace |
| Text.TrimIdempotent | app/src/main/kotlin/com/carsondavis/notetaker/ui/viewmodels/AuthViewModel.kt:206-207 | trimming a trimmed field changes nothing |
| Text.BlankIffTrimEmpty | app/src/main/kotlin/com/carsondavis/notetaker/ui/viewmodels/AuthViewModel.kt:209 | a field is blank exactly when trimming leaves nothing |
| Text.RemoveSuffix | app/src/main/kotlin/com/carsondavis/notetaker/ui/viewmodels/AuthViewModel.kt:186-188 | `removeSuffix` strips the suffix when present (result plus suffix is the input) and otherwise returns the input |
| Text.RemoveAppendedSuffix | app/src/main/kotlin/com/carsondavis/notetaker/ui/viewmodels/AuthViewModel.kt:186-188 | removing a suffix that was appended gives back the original |
| Text.Take | app/src/main/kotlin/com/carsondavis/notetaker/data/worker/NoteUploadWorker.kt:76 | `take(n)` is a prefix of length min(n, length), counted in characters |
| Text.Split | app/src/main/kotlin/com/carsondavis/notetaker/ui/viewmodels/AuthViewModel.kt:197 | `split` yields at least one piece, no piece holds the separator, and joining the pieces gives back the input |
| Text.SplitJoin | app/src/main/kotlin/com/carsondavis/notetaker/ui/viewmodels/AuthViewModel.kt:197 | splitting a join of separator-free pieces gives back the pieces |
| Text.SplitAppend | app/src/main/kotlin/com/carsondavis/notetaker/ui/viewmodels/BrowseViewModel.kt:54 | appending a separator and a separator-free name adds exactly that name to the pieces |
| Text.SubstringBeforeLast | app/src/main/kotlin/com/carsondavis/notetaker/ui/viewmodels/BrowseViewModel.kt:104 | `substringBeforeLast` is the text before the last separator, or the fallback when there is none |
| Text.BeforeLastAppended | app/src/main/kotlin/com/carsondavis/notetaker/ui/viewmodels/BrowseViewModel.kt:104 | the text before the last separator of `s + sep + name` is `s` when `name` has no separator |
| Text.RemoveAll | app/src/main/kotlin/com/carsondavis/notetaker/data/repository/NoteRepository.kt:84 | removing every line feed leaves none, and leaves a text without line feeds unchanged |
| Text.RemoveAllAppend | app/src/main/kotlin/com/carsondavis/notetaker/data/repository/NoteRepository.kt:84 | removing a character from two texts put together removes it from each, so every other character is kept in order |
| Text.RemoveAllJoin | app/src/main/kotlin/com/carsondavis/notetaker/data/repository/NoteRepository.kt:84 | removing the separator from pieces joined by it gives the pieces put together with nothing between them |
| Base64.DecodeEncode | app/src/main/kotlin/com/carsondavis/notetaker/data/worker/NoteUploadWorker.kt:41 | decoding what was encoded gives back the octets, for both alphabets, padded or not |
| Base64.EncodedLength | app/src/main/kotlin/com/carsondavis/notetaker/data/auth/OAuthConfig.kt:22 | the encoding of n octets has length 4·ceil(n/3) when padded and ceil(4n/3) when not |
| Base64.EncodeInAlphabet | app/src/main/kotlin/com/carsondavis/notetaker/data/auth/OAuthConfig.kt:22 | every character of an encoding is in its alphabet, with '=' only as padding |
| Base64.UrlSafeUnpaddedChars | app/src/main/kotlin/com/carsondavis/notetaker/data/auth/OAuthConfig.kt:27 | unpadded base64url uses only `A-Z a-z 0-9 - _`, so no '+', '/' or '=' |
| Base64.EncodeHasNoLineFeed | app/src/main/kotlin/com/carsondavis/notetaker/data/worker/NoteUploadWorker.kt:41 | `NO_WRAP` output holds no line feed |
| GitHubApi.CreateNoteFile | app/src/main/kotlin/com/carsondavis/notetaker/data/worker/NoteUploadWorker.kt:40-53 | a note file is created at `inbox/<name>.md` with message `Add note <name>` and the bearer token |
| LocalData.WithStatus | app/src/main/kotlin/com/carsondavis/notetaker/data/worker/NoteUploadWorker.kt:38 | a status update changes the status of the rows with that id and leaves every other row as it was |
| LocalData.Without | app/src/main/kotlin/com/carsondavis/notetaker/data/worker/NoteUploadWorker.kt:80 | a delete leaves no row with that id |
| LocalData.WithoutAt | app/src/main/kotlin/com/carsondavis/notetaker/data/worker/NoteUploadWorker.kt:80 | with distinct ids, deleting a row's id removes exactly that row |
| LocalData.NoteDatabase.GetAllPending | app/src/main/kotlin/com/carsondavis/notetaker/data/worker/NoteUploadWorker.kt:34 | the pending notes are read as stored |
| LocalData.NoteDatabase.UpdateStatus | app/src/main/kotlin/com/carsondavis/notetaker/data/worker/NoteUploadWorker.kt:38 | only the pending table changes, by `WithStatus`, and distinct ids stay distinct |
| LocalData.NoteDatabase.Delete | app/src/main/kotlin/com/carsondavis/notetaker/data/worker/NoteUploadWorker.kt:80 | only the pending table changes, by `Without` |
| LocalData.NoteDatabase.Insert | app/src/main/kotlin/com/carsondavis/notetaker/data/worker/NoteUploadWorker.kt:73-79 | one row is appended to the history, the pending table is untouched |
| LocalData.NoteDatabase.DeleteAllPending | app/src/main/kotlin/com/carsondavis/notetaker/ui/viewmodels/SettingsViewModel.kt:95 | the pending table is emptied, the history is untouched |
| LocalData.NoteDatabase.DeleteAllSubmissions | app/src/main/kotlin/com/carsondavis/notetaker/ui/viewmodels/SettingsViewModel.kt:96 | the history is emptied, the pending table is untouched |
| AuthManager.Lookup | app/src/main/kotlin/com/carsondavis/notetaker/data/auth/AuthManager.kt:26-29 | a getter yields a value exactly when its key is stored, and then the stored value |
| AuthManager.SaveAuthLookups | app/src/main/kotlin/com/carsondavis/notetaker/data/auth/AuthManager.kt:39-44 | after `saveAuth` the token and username getters yield the new values, and owner and name are unchanged |
| AuthManager.SaveRepoLookups | app/src/main/kotlin/com/carsondavis/notetaker/data/auth/AuthManager.kt:46-51 | after `saveRepo` owner and name yield the new values, and token and username are unchanged |
| AuthManager.ClearedLookups | app/src/main/kotlin/com/carsondavis/notetaker/data/auth/AuthManager.kt:53-55 | after `signOut` every getter yields null |
| AuthManager.AuthManager.IsAuthenticated | app/src/main/kotlin/com/carsondavis/notetaker/data/auth/AuthManager.kt:31-33 | authenticated exactly when an access token is stored |
| AuthManager.AuthManager.HasRepo | app/src/main/kotlin/com/carsondavis/notetaker/data/auth/AuthManager.kt:35-37 | a repository is set exactly when both owner and name are stored |
| AuthManager.AuthManager.SaveAuth | app/src/main/kotlin/com/carsondavis/notetaker/data/auth/AuthManager.kt:39-44 | writes exactly the token and username keys |
| AuthManager.AuthManager.SaveRepo | app/src/main/kotlin/com/carsondavis/notetaker/data/auth/AuthManager.kt:46-51 | writes exactly the owner and name keys |
| AuthManager.AuthManager.SignOut | app/src/main/kotlin/com/carsondavis/notetaker/data/auth/AuthManager.kt:53-55 | removes every key |
| OAuthConfig.HexString | app/src/main/kotlin/com/carsondavis/notetaker/data/auth/OAuthConfig.kt:33 | two lowercase hex digits per octet |
| OAuthConfig.DecodeHexString | app/src/main/kotlin/com/carsondavis/notetaker/data/auth/OAuthConfig.kt:33 | hex-decoding the `%02x` rendering gives back the octets |
| OAuthConfig.GenerateState | app/src/main/kotlin/com/carsondavis/notetaker/data/auth/OAuthConfig.kt:30-34 | the state of 16 random octets is 32 lowercase hex digits |
| OAuthConfig.StateRoundTrip | app/src/main/kotlin/com/carsondavis/notetaker/data/auth/OAuthConfig.kt:30-34 | hex-decoding the state gives back the random octets |
| OAuthConfig.GenerateCodeVerifier | app/src/main/kotlin/com/carsondavis/notetaker/data/auth/OAuthConfig.kt:19-23 | the verifier of 32 random octets is 43 base64url characters |
| OAuthConfig.VerifierWellFormed | app/src/main/kotlin/com/carsondavis/notetaker/data/auth/OAuthConfig.kt:19-23 | the verifier meets section 4.1 of RFC 7636: 43 to 128 unreserved characters |
| OAuthConfig.VerifierRoundTrip | app/src/main/kotlin/com/carsondavis/notetaker/data/auth/OAuthConfig.kt:19-23 | base64url-decoding the verifier gives back the random octets |
| OAuthConfig.AsciiBytes | app/src/main/kotlin/com/carsondavis/notetaker/data/auth/OAuthConfig.kt:26 | US-ASCII encoding maps each ASCII character to its code |
| OAuthConfig.ChallengeWellFormed | app/src/main/kotlin/com/carsondavis/notetaker/data/auth/OAuthConfig.kt:25-28 | the S256 challenge of section 4.2 of RFC 7636: 43 base64url characters, no '=', decoding to SHA-256 of the verifier's ASCII octets |
| NoteRepository.Entry | app/src/main/kotlin/com/carsondavis/notetaker/data/repository/NoteRepository.kt:49-55 | a history row previews the first 50 characters of the text |
| NoteRepository.SubmitNote | app/src/main/kotlin/com/carsondavis/notetaker/data/repository/NoteRepository.kt:24-68 | no token fails "Not authenticated", no owner or name fails "No repo configured", both with no call and no row. Otherwise one call at `inbox/<filename>.md` carries the unwrapped base64 of the text, and exactly one row is appended: success on a created file, failure with the exception's message otherwise. The pending table is never touched |
| NoteRepository.TopicCall | app/src/main/kotlin/com/carsondavis/notetaker/data/repository/NoteRepository.kt:76-81 | the topic is read from `.current_topic` with the bearer token |
| NoteRepository.FetchCurrentTopic | app/src/main/kotlin/com/carsondavis/notetaker/data/repository/NoteRepository.kt:70-89 | a topic is returned only with every credential present, and it is trimmed |
| NoteRepository.TopicRoundTrip | app/src/main/kotlin/com/carsondavis/notetaker/data/repository/NoteRepository.kt:76-85 | a file whose content, with line feeds removed, is the base64 of some octets yields the trimmed text of those octets |
| NoteRepository.TopicAbsent | app/src/main/kotlin/com/carsondavis/notetaker/data/repository/NoteRepository.kt:83-88 | a failed read, missing content or undecodable content yields null |
| NoteRepository.UnwrappedTopic | app/src/main/kotlin/com/carsondavis/notetaker/data/repository/NoteRepository.kt:84 | removing line feeds from an unwrapped encoding changes nothing |
| NoteRepository.WrappedTopicRoundTrip | app/src/main/kotlin/com/carsondavis/notetaker/data/repository/NoteRepository.kt:76-85 | a file whose content is the base64 of some octets broken over lines yields the trimmed text of those octets |
| NoteUploadWorker.Attempts | app/src/main/kotlin/com/carsondavis/notetaker/data/worker/NoteUploadWorker.kt:43-71 | one or two calls per note, all for that note's id |
| NoteUploadWorker.AttemptContent | app/src/main/kotlin/com/carsondavis/notetaker/data/worker/NoteUploadWorker.kt:40-67 | the first attempt targets `inbox/<filename>.md` with `Add note <filename>`. The retry targets `inbox/<filename>-1.md` with `Add note <filename>-1` and the same content. The content is unwrapped base64 that decodes to the note's UTF-8 octets |
| NoteUploadWorker.DrainOutcome | app/src/main/kotlin/com/carsondavis/notetaker/data/worker/NoteUploadWorker.kt:37-87 | a run succeeds exactly when every note was delivered, and then the pending table is empty. A run that stops has delivered a prefix, marks the next note failed and leaves every later note exactly as it was |
| NoteUploadWorker.DrainHistory | app/src/main/kotlin/com/carsondavis/notetaker/data/worker/NoteUploadWorker.kt:73-79 | the k-th delivered note appends the k-th history row: success, stamped by the clock, with the first 50 characters |
| NoteUploadWorker.DrainSteps | app/src/main/kotlin/com/carsondavis/notetaker/data/worker/NoteUploadWorker.kt:37-85 | a run's trace is the steps of its first note followed, after a delivery only, by the run over the rest |
| NoteUploadWorker.ReplayNoteSteps | app/src/main/kotlin/com/carsondavis/notetaker/data/worker/NoteUploadWorker.kt:38-84 | replaying one note's steps deletes a delivered note and leaves a failed one marked failed in place |
| NoteUploadWorker.DrainReplay | app/src/main/kotlin/com/carsondavis/notetaker/data/worker/NoteUploadWorker.kt:37-85 | replaying a run's trace on the table it started from gives the table it leaves |
| NoteUploadWorker.DrainCallOrder | app/src/main/kotlin/com/carsondavis/notetaker/data/worker/NoteUploadWorker.kt:37-71 | every remote call is an attempt for some note, made while that note is marked uploading and every earlier note is gone, so notes are processed strictly in order |
| NoteUploadWorker.UploadNote | app/src/main/kotlin/com/carsondavis/notetaker/data/worker/NoteUploadWorker.kt:38-84 | one loop body: a delivered note is deleted and one row appended; otherwise it stays in place marked failed and no row is appended |
| NoteUploadWorker.DrainTable | app/src/main/kotlin/com/carsondavis/notetaker/data/worker/NoteUploadWorker.kt:37-87 | the loop leaves exactly the tables, result and trace of `Drain` |
| NoteUploadWorker.DoWork | app/src/main/kotlin/com/carsondavis/notetaker/data/worker/NoteUploadWorker.kt:29-88 | a missing token, owner or name returns retry with no call and no table change. An empty table returns success with no call and no row. Otherwise the tables, result and trace are those of `Drain` |
| AuthViewModel.FirstHost | app/src/main/kotlin/com/carsondavis/notetaker/ui/viewmodels/AuthViewModel.kt:190-191 | the leftmost position where `github.com/<owner>/<repo>` matches, or none |
| AuthViewModel.FindIsFirstHost | app/src/main/kotlin/com/carsondavis/notetaker/ui/viewmodels/AuthViewModel.kt:191 | the regex search finds the leftmost match |
| AuthViewModel.ParseRepo | app/src/main/kotlin/com/carsondavis/notetaker/ui/viewmodels/AuthViewModel.kt:184-203 | an accepted input yields a non-blank owner and name, neither holding '/' |
| AuthViewModel.NormalizeEndings | app/src/main/kotlin/com/carsondavis/notetaker/ui/viewmodels/AuthViewModel.kt:185-188 | `/`, `.git` and `.git/` endings are removed, and nothing else |
| AuthViewModel.ParseUrl | app/src/main/kotlin/com/carsondavis/notetaker/ui/viewmodels/AuthViewModel.kt:190-195 | a GitHub URL with any scheme prefix and any of the four endings, e.g. `https://github.com/o/r.git/`, parses to its owner and name |
| AuthViewModel.ParseShortForm | app/src/main/kotlin/com/carsondavis/notetaker/ui/viewmodels/AuthViewModel.kt:197-200 | `owner/name` with any of the four endings parses to `(owner, name)` |
| AuthViewModel.ParseNoSlash | app/src/main/kotlin/com/carsondavis/notetaker/ui/viewmodels/AuthViewModel.kt:197-202 | an input without '/', e.g. `not a repo`, is rejected |
| AuthViewModel.BlankRepoNeverParses | app/src/main/kotlin/com/carsondavis/notetaker/ui/viewmodels/AuthViewModel.kt:214-223 | a blank repository field never parses |
| AuthViewModel.OAuthSignIn | app/src/main/kotlin/com/carsondavis/notetaker/ui/viewmodels/AuthViewModel.kt:93-132 | the OAuth coroutine starts by exchanging the code with the saved verifier |
| AuthViewModel.OAuthSignInSpec | app/src/main/kotlin/com/carsondavis/notetaker/ui/viewmodels/AuthViewModel.kt:93-149 | a completed OAuth sign-in had every call succeed, chose the first installation and its first repository, and made exactly four calls. A refused exchange ends it at once with "Sign-in failed: …" |
| AuthViewModel.OAuthEmptyLists | app/src/main/kotlin/com/carsondavis/notetaker/ui/viewmodels/AuthViewModel.kt:104-130 | no installation, or no repository, each ends the sign-in with its own message |
| AuthViewModel.OAuthWrites | app/src/main/kotlin/com/carsondavis/notetaker/ui/viewmodels/AuthViewModel.kt:135-137 | a completed sign-in writes the tokens, then the repository, then the installation id |
| AuthViewModel.NetworkErrorDistinct | app/src/main/kotlin/com/carsondavis/notetaker/ui/viewmodels/AuthViewModel.kt:260-266 | a network-error message never equals the bad-token or missing-repository message |
| AuthViewModel.PatSignIn | app/src/main/kotlin/com/carsondavis/notetaker/ui/viewmodels/AuthViewModel.kt:228-268 | the PAT coroutine starts with the user lookup |
| AuthViewModel.PatSignInOrder | app/src/main/kotlin/com/carsondavis/notetaker/ui/viewmodels/AuthViewModel.kt:230-259 | a 401 from the user lookup means a bad token and nothing else is asked. A 404 from the repository lookup means no such repository. Validation succeeds exactly when both lookups succeed, with the looked-up login |
| AuthViewModel.SubmitGuard | app/src/main/kotlin/com/carsondavis/notetaker/ui/viewmodels/AuthViewModel.kt:209-223 | a stopped submission reports one of the three check messages |
| AuthViewModel.SubmitGuardOrder | app/src/main/kotlin/com/carsondavis/notetaker/ui/viewmodels/AuthViewModel.kt:209-225 | the checks report a blank token first, then a blank repository, then an unparsable one. The sign-in goes on exactly when the token is present and the repository parses |
| AuthViewModel.Token | app/src/main/kotlin/com/carsondavis/notetaker/ui/viewmodels/AuthViewModel.kt:206 | the token sent is trimmed |
| AuthViewModel.AuthViewModel.StartOAuthFlow | app/src/main/kotlin/com/carsondavis/notetaker/ui/viewmodels/AuthViewModel.kt:61-74 | verifier and state are saved and decode to their random octets, the flow is marked in progress, and the install URL is returned |
| AuthViewModel.AuthViewModel.HandleOAuthCallback | app/src/main/kotlin/com/carsondavis/notetaker/ui/viewmodels/AuthViewModel.kt:76-160 | a missing saved verifier or state reports an expired session with no call. Otherwise the calls are those of `OAuthSignIn`, and only a completed sign-in writes the store and clears the session. A failure keeps the session and shows its message |
| AuthViewModel.AuthViewModel.CancelOAuthFlow | app/src/main/kotlin/com/carsondavis/notetaker/ui/viewmodels/AuthViewModel.kt:162-164 | only the in-progress flag drops |
| AuthViewModel.AuthViewModel.ShowPatFlow | app/src/main/kotlin/com/carsondavis/notetaker/ui/viewmodels/AuthViewModel.kt:168-170 | shows the PAT form and clears the error |
| AuthViewModel.AuthViewModel.HidePatFlow | app/src/main/kotlin/com/carsondavis/notetaker/ui/viewmodels/AuthViewModel.kt:172-174 | hides the PAT form and clears the error |
| AuthViewModel.AuthViewModel.UpdateToken | app/src/main/kotlin/com/carsondavis/notetaker/ui/viewmodels/AuthViewModel.kt:176-178 | sets the token field and clears the error |
| AuthViewModel.AuthViewModel.UpdateRepo | app/src/main/kotlin/com/carsondavis/notetaker/ui/viewmodels/AuthViewModel.kt:180-182 | sets the repository field and clears the error |
| AuthViewModel.AuthViewModel.RunPatSignIn | app/src/main/kotlin/com/carsondavis/notetaker/ui/viewmodels/AuthViewModel.kt:228-268 | a validated sign-in saves token and login, then owner and name, and completes setup. A refused one saves nothing and shows its message |
| AuthViewModel.AuthViewModel.Submit | app/src/main/kotlin/com/carsondavis/notetaker/ui/viewmodels/AuthViewModel.kt:205-269 | a failed check shows its message with no call and no write. Otherwise the calls, store writes and final state are those of the PAT sign-in with the trimmed token |
| SettingsViewModel.RepoFullName | app/src/main/kotlin/com/carsondavis/notetaker/ui/viewmodels/SettingsViewModel.kt:66 | `owner/name` when both are stored, "" otherwise |
| SettingsViewModel.RepoFullNameParses | app/src/main/kotlin/com/carsondavis/notetaker/ui/viewmodels/SettingsViewModel.kt:66 | the summary line of a stored repository parses back to its owner and name |
| SettingsViewModel.Projected | app/src/main/kotlin/com/carsondavis/notetaker/ui/viewmodels/SettingsViewModel.kt:63-68 | username and authType default to "", and the repository line is "" unless both parts are stored |
| SettingsViewModel.RevokeTarget | app/src/main/kotlin/com/carsondavis/notetaker/ui/viewmodels/SettingsViewModel.kt:103-110 | a token is revoked exactly when the sign-in kind is "oauth" and a token is stored |
| SettingsViewModel.RevokeEvents | app/src/main/kotlin/com/carsondavis/notetaker/ui/viewmodels/SettingsViewModel.kt:107-109 | at most one revocation request, carrying the stored token, made while the screen is busy |
| SettingsViewModel.SignOutOrder | app/src/main/kotlin/com/carsondavis/notetaker/ui/viewmodels/SettingsViewModel.kt:80-88 | sign-out clears the store, then completes, with the busy flag up until the end. It touches neither table |
| SettingsViewModel.WipeOrder | app/src/main/kotlin/com/carsondavis/notetaker/ui/viewmodels/SettingsViewModel.kt:90-101 | the wipe, right after the revocation, cancels work, empties pending, empties history, clears the store, and completes, in that order |
| SettingsViewModel.WipeBusy | app/src/main/kotlin/com/carsondavis/notetaker/ui/viewmodels/SettingsViewModel.kt:92-99 | the busy flag is up for every step of the wipe but the completion |
| SettingsViewModel.IndexOfAction | app/src/main/kotlin/com/carsondavis/notetaker/ui/viewmodels/SettingsViewModel.kt:90-101 | the first event carrying an action, if any |
| SettingsViewModel.SettingsViewModel.ObserveAuth | app/src/main/kotlin/com/carsondavis/notetaker/ui/viewmodels/SettingsViewModel.kt:52-72 | the summary is the projection of the stored values |
| SettingsViewModel.SettingsViewModel.CheckAssistantRole | app/src/main/kotlin/com/carsondavis/notetaker/ui/viewmodels/SettingsViewModel.kt:74-78 | records whether the app holds the assistant role |
| SettingsViewModel.SettingsViewModel.RevokeIfNeeded | app/src/main/kotlin/com/carsondavis/notetaker/ui/viewmodels/SettingsViewModel.kt:103-110 | logs the revocation exactly when `RevokeTarget` names a token |
| SettingsViewModel.SettingsViewModel.SignOut | app/src/main/kotlin/com/carsondavis/notetaker/ui/viewmodels/SettingsViewModel.kt:80-88 | the store is emptied, both tables are unchanged, and the busy flag is down at the end |
| SettingsViewModel.SettingsViewModel.ClearAllData | app/src/main/kotlin/com/carsondavis/notetaker/ui/viewmodels/SettingsViewModel.kt:90-101 | both tables and the store are emptied, and the events are those of `WipeOrder` |
| BrowseViewModel.Segments | app/src/main/kotlin/com/carsondavis/notetaker/ui/viewmodels/BrowseViewModel.kt:54 | the breadcrumb is empty exactly at the root, its pieces hold no '/', and they join back to the path |
| BrowseViewModel.Parent | app/src/main/kotlin/com/carsondavis/notetaker/ui/viewmodels/BrowseViewModel.kt:104 | the parent is the path before the last '/', or the root |
| BrowseViewModel.ParentOfChild | app/src/main/kotlin/com/carsondavis/notetaker/ui/viewmodels/BrowseViewModel.kt:103-105 | going up from `parent/name` reaches `parent` |
| BrowseViewModel.ChildSegments | app/src/main/kotlin/com/carsondavis/notetaker/ui/viewmodels/BrowseViewModel.kt:54 | entering `name` adds it to the breadcrumb; going up removes it |
| BrowseViewModel.TopLevelSegments | app/src/main/kotlin/com/carsondavis/notetaker/ui/viewmodels/BrowseViewModel.kt:54 | a top-level directory has a one-piece breadcrumb and the root as its parent |
| BrowseViewModel.AfterLoad | app/src/main/kotlin/com/carsondavis/notetaker/ui/viewmodels/BrowseViewModel.kt:38-68 | a load clears the open file. On success it shows the path, its breadcrumb and its entries. On failure it keeps path and entries and shows the message or "Failed to load directory" |
| BrowseViewModel.DownAndUp | app/src/main/kotlin/com/carsondavis/notetaker/ui/viewmodels/BrowseViewModel.kt:93-107 | going into a subdirectory and back up shows the parent again with its breadcrumb |
| BrowseViewModel.BrowseViewModel.constructor | app/src/main/kotlin/com/carsondavis/notetaker/ui/viewmodels/BrowseViewModel.kt:34-36 | the view model starts by loading the root |
| BrowseViewModel.BrowseViewModel.BeginLoad | app/src/main/kotlin/com/carsondavis/notetaker/ui/viewmodels/BrowseViewModel.kt:40-47 | loading, with no error and no open file |
| BrowseViewModel.BrowseViewModel.FinishLoad | app/src/main/kotlin/com/carsondavis/notetaker/ui/viewmodels/BrowseViewModel.kt:49-66 | the answer to a directory load is applied as the source does |
| BrowseViewModel.BrowseViewModel.LoadDirectory | app/src/main/kotlin/com/carsondavis/notetaker/ui/viewmodels/BrowseViewModel.kt:38-68 | the state becomes `AfterLoad` of the old state |
| BrowseViewModel.BrowseViewModel.OpenFile | app/src/main/kotlin/com/carsondavis/notetaker/ui/viewmodels/BrowseViewModel.kt:70-90 | the file stays open. On success its content is shown; on failure the content is empty and the message or "Failed to load file" is shown |
| BrowseViewModel.BrowseViewModel.NavigateUp | app/src/main/kotlin/com/carsondavis/notetaker/ui/viewmodels/BrowseViewModel.kt:93-110 | an open file is closed; else a subdirectory loads its parent; else nothing changes. It returns true exactly in the first two cases |
| NoteViewModel.Appended | app/src/main/kotlin/com/carsondavis/notetaker/ui/viewmodels/NoteViewModel.kt:57-58 | a finalized segment becomes the text when there was none, else is joined by one space |
| NoteViewModel.AccumulatedJoins | app/src/main/kotlin/com/carsondavis/notetaker/ui/viewmodels/NoteViewModel.kt:57-59 | segments finalized from an empty text accumulate into the segments joined by single spaces |
| NoteViewModel.AccumulatedOnto | app/src/main/kotlin/com/carsondavis/notetaker/ui/viewmodels/NoteViewModel.kt:57-59 | segments accumulated onto a non-empty text join it with them |
| NoteViewModel.Display | app/src/main/kotlin/com/carsondavis/notetaker/ui/viewmodels/NoteViewModel.kt:110-117 | an empty partial shows the confirmed text alone |
| NoteViewModel.DisplayPreviewsSegment | app/src/main/kotlin/com/carsondavis/notetaker/ui/viewmodels/NoteViewModel.kt:110-117 | the live display is what the confirmed text becomes once the partial is finalized as it stands |
| NoteViewModel.SubmitCalls | app/src/main/kotlin/com/carsondavis/notetaker/ui/viewmodels/NoteViewModel.kt:172-205 | a submission stops the recognizer and submits the text. It fetches the topic again exactly after a sent note, and restarts the recognizer exactly after a success with voice, permission and recognizer |
| NoteViewModel.NoteViewModel.constructor | app/src/main/kotlin/com/carsondavis/notetaker/ui/viewmodels/NoteViewModel.kt:69-75 | the recognizer's availability is recorded and the topic fetch starts |
| NoteViewModel.NoteViewModel.StartTopicFetch | app/src/main/kotlin/com/carsondavis/notetaker/ui/viewmodels/NoteViewModel.kt:121-123 | the topic is marked loading and fetched |
| NoteViewModel.NoteViewModel.OnTopicFetched | app/src/main/kotlin/com/carsondavis/notetaker/ui/viewmodels/NoteViewModel.kt:124-125 | the topic is shown and loading ends |
| NoteViewModel.NoteViewModel.OnSegmentFinalized | app/src/main/kotlin/com/carsondavis/notetaker/ui/viewmodels/NoteViewModel.kt:57-60 | the confirmed text is `Appended` and the field mirrors it |
| NoteViewModel.NoteViewModel.OnSpeechError | app/src/main/kotlin/com/carsondavis/notetaker/ui/viewmodels/NoteViewModel.kt:61-66 | listening stops and the message is shown |
| NoteViewModel.NoteViewModel.OnSubmissions | app/src/main/kotlin/com/carsondavis/notetaker/ui/viewmodels/NoteViewModel.kt:77-93 | each history row becomes an item with its formatted time, preview and success, in order |
| NoteViewModel.NoteViewModel.OnPendingCount | app/src/main/kotlin/com/carsondavis/notetaker/ui/viewmodels/NoteViewModel.kt:95-101 | the pending count is shown |
| NoteViewModel.NoteViewModel.OnListeningState | app/src/main/kotlin/com/carsondavis/notetaker/ui/viewmodels/NoteViewModel.kt:103-108 | the recognizer's state is shown |
| NoteViewModel.NoteViewModel.OnPartialText | app/src/main/kotlin/com/carsondavis/notetaker/ui/viewmodels/NoteViewModel.kt:109-118 | in voice mode the field shows `Display`; in keyboard mode nothing changes |
| NoteViewModel.NoteViewModel.StartVoiceInput | app/src/main/kotlin/com/carsondavis/notetaker/ui/viewmodels/NoteViewModel.kt:138-144 | without permission or recognizer nothing changes; otherwise voice mode, the confirmed text is the trimmed field, and the recognizer starts |
| NoteViewModel.NoteViewModel.OnPermissionResult | app/src/main/kotlin/com/carsondavis/notetaker/ui/viewmodels/NoteViewModel.kt:129-136 | a grant with a recognizer starts voice input; anything else forces keyboard mode |
| NoteViewModel.NoteViewModel.SwitchToKeyboard | app/src/main/kotlin/com/carsondavis/notetaker/ui/viewmodels/NoteViewModel.kt:146-151 | the recognizer stops, keyboard mode, the field is kept and the confirmed text follows it trimmed |
| NoteViewModel.NoteViewModel.StopVoiceInput | app/src/main/kotlin/com/carsondavis/notetaker/ui/viewmodels/NoteViewModel.kt:153-155 | only the recognizer stops |
| NoteViewModel.NoteViewModel.ClearSubmitSuccess | app/src/main/kotlin/com/carsondavis/notetaker/ui/viewmodels/NoteViewModel.kt:157-159 | only the success flag drops |
| NoteViewModel.NoteViewModel.ClearSubmitQueued | app/src/main/kotlin/com/carsondavis/notetaker/ui/viewmodels/NoteViewModel.kt:161-163 | only the queued flag drops |
| NoteViewModel.NoteViewModel.UpdateNoteText | app/src/main/kotlin/com/carsondavis/notetaker/ui/viewmodels/NoteViewModel.kt:165-170 | the field is set and the error cleared. In keyboard mode the confirmed text follows the trimmed field; in voice mode it is kept |
| NoteViewModel.NoteViewModel.StartSubmission | app/src/main/kotlin/com/carsondavis/notetaker/ui/viewmodels/NoteViewModel.kt:176-181 | the recognizer stops, the screen shows a submission in flight, and the text is submitted |
| NoteViewModel.NoteViewModel.OnSubmitted | app/src/main/kotlin/com/carsondavis/notetaker/ui/viewmodels/NoteViewModel.kt:183-203 | a sent note clears the field, sets success and refetches the topic. A queued note clears the field and sets queued. Both clear the confirmed text and the in-flight flag, and restart voice input when it was on and still possible |
| NoteViewModel.NoteViewModel.Submit | app/src/main/kotlin/com/carsondavis/notetaker/ui/viewmodels/NoteViewModel.kt:172-205 | blank text or a submission in flight changes nothing. Otherwise the calls are `SubmitCalls`. A failure leaves the screen submitting; a success ends as `OnSubmitted` |

## Left out

- Device-code sign-in: only its endpoint declarations exist in `GitHubApi.kt`, with no flow behind them. The other Retrofit endpoints and DTOs are reduced to the calls and fields the core uses.
- `OAuthTokenExchanger`: HTTP and JSON plumbing. Its `exchangeCode` is an input that answers a token or a failure.
- Coroutines, `StateFlow`, `combine` and dispatchers: each coroutine is modelled as straight-line steps. Interleavings between concurrent coroutines and callbacks are not modelled.
- The five-second `withTimeoutOrNull` around token revocation: the revocation's answer, or its timeout, is ignored either way, so only the request is logged.
- `WorkManager.cancelAllWork`, scheduling and the worker's retry back-off: cancellation is an event in the wipe's log.
- Room and DataStore internals, and exceptions thrown by their writes: table and store writes always succeed, and `getAllPending` returns the table in its stored order.
- Platform services are inputs:
  - SecureRandom (random octets) and SHA-256 (a function);
  - the clock (a function of the insert's index) and the `h:mm a` formatter (a function);
  - UTF-8 `toByteArray` and decoding of the topic (functions);
  - the role manager (a boolean);
  - the speech recognizer (its callbacks are methods).
- `SpeechRecognizerManager`: its restart logic is not part of this model. `ListeningState` is carried as one of its three values.
- `NoteViewModel.onCleared`: it only releases the recognizer, which is not modelled.
- `NoteRepository.fetchDirectoryContents` and `fetchFileContent`: not part of this model, because they are absent from `NoteRepository.kt` as written. The browse view model takes their answers as inputs, and directory entries are a type parameter.
- `AuthManager.saveOAuthTokens`, `saveInstallationId` and `authType`: not part of this model, because they are absent from `AuthManager.kt` as written. The OAuth sign-in returns its writes and does not apply them. The installation id stays an integer rather than its decimal string.
- Android `Base64.decode` with `DEFAULT`: the real decoder tolerates characters outside the alphabet and missing padding. `Decode` is strict, so `FetchCurrentTopic` may return null where the app would decode leniently.
- Kotlin `Regex`: only the one pattern `parseRepo` uses is modelled, as a hand-written leftmost search.
- ParseRepo: its own contract states only that an accepted input yields a non-blank owner and name without '/'. Acceptance is proved for the URL and `owner/name` shapes with their four endings, and rejection for inputs without '/'. Other inputs are not characterised.
- Text.Take: strings are sequences of Unicode characters here, while Kotlin's `take(50)` counts UTF-16 code units. For text with characters outside the Basic Multilingual Plane (emoji, for example), the app's preview keeps fewer characters and may split a surrogate pair; the model keeps up to 50 whole characters.
- Integer widths: timestamps (`Long`) and ids (`Int`) are unbounded. The core does no arithmetic on them.
