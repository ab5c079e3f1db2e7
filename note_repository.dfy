/** `NoteRepository`: the immediate submission of one note and the read of
    the repository's current topic.

    The clock, the date formatter, UTF-8 conversion and the GitHub API are
    services the repository calls; here they are parameters. */
module NoteRepository {
  import opened Wrappers
  import opened Text
  import opened Base64
  import opened GitHubApi
  import opened LocalData
  import AuthManager

  /** `Result<Unit>`: success, or a failure carrying the exception's message. */
  datatype SubmitResult = Sent | NotSent(message: string)

  /** The number of characters a history preview keeps. */
  const PREVIEW_LENGTH: nat := 50

  /** The file that holds the topic, at the root of the repository. */
  const TOPIC_PATH: string := ".current_topic"

  /** The history row a submission leaves, stamped `millis`. */
  function Entry(text: string, millis: int, success: bool): (r: SubmissionRecord)
    ensures r.preview <= text && |r.preview| == if |text| < PREVIEW_LENGTH then |text| else PREVIEW_LENGTH
  {
    SubmissionRecord(millis, Take(text, PREVIEW_LENGTH), success)
  }

  /** `submitNote(text)`. `filename` is `ZonedDateTime.now()` formatted as
      `yyyy-MM-dd'T'HHmmssZ`, `millis` is `System.currentTimeMillis()` at the
      insert, `utf8` is `toByteArray()`, and `remote` answers `createFile`.
      The call made, if any, is returned beside the result. */
  method SubmitNote(auth: AuthManager.AuthManager, db: NoteDatabase, text: string, filename: string, millis: int,
                    utf8: string -> seq<byte>, remote: CreateFileCall -> Response<()>)
    returns (result: SubmitResult, call: Option<CreateFileCall>)
    modifies db
    ensures db.pending == old(db.pending)
    ensures auth.AccessToken().None? ==>
      result == NotSent("Not authenticated") && call == None && db.history == old(db.history)
    ensures auth.AccessToken().Some? && (auth.RepoOwner().None? || auth.RepoName().None?) ==>
      result == NotSent("No repo configured") && call == None && db.history == old(db.history)
    ensures auth.AccessToken().Some? && auth.RepoOwner().Some? && auth.RepoName().Some? ==>
      call == Some(CreateNoteFile(auth.AccessToken().value, auth.RepoOwner().value, auth.RepoName().value,
                                  filename, Encode(Standard, utf8(text), true)))
    ensures call.Some? ==> Decode(Standard, call.value.request.content) == Some(utf8(text))
    ensures call.Some? && remote(call.value).Ok? ==>
      result == Sent && db.history == old(db.history) + [Entry(text, millis, true)]
    ensures call.Some? && !remote(call.value).Ok? ==>
      result == NotSent(remote(call.value).message) && db.history == old(db.history) + [Entry(text, millis, false)]
  {
    var token := auth.AccessToken();
    if token.None? {
      return NotSent("Not authenticated"), None;
    }
    var owner := auth.RepoOwner();
    if owner.None? {
      return NotSent("No repo configured"), None;
    }
    var repo := auth.RepoName();
    if repo.None? {
      return NotSent("No repo configured"), None;
    }
    var bytes := utf8(text);
    var content := Encode(Standard, bytes, true);
    DecodeEncode(Standard, bytes, true);
    var request := CreateNoteFile(token.value, owner.value, repo.value, filename, content);
    call := Some(request);
    var response := remote(request);
    if response.Ok? {
      db.Insert(Entry(text, millis, true));
      result := Sent;
    } else {
      db.Insert(Entry(text, millis, false));
      result := NotSent(response.message);
    }
  }

  /** The request `fetchCurrentTopic` sends. */
  function TopicCall(token: string, owner: string, repo: string): (call: GetFileCall)
    ensures call.path == TOPIC_PATH && call.auth == Bearer(token)
    ensures call.owner == owner && call.repo == repo
  {
    GetFileCall(Bearer(token), owner, repo, TOPIC_PATH)
  }

  /** `fetchCurrentTopic()`. `get` answers `getFileContent`; `text` is
      `String(bytes)`, the platform's UTF-8 decoding. Every exception,
      from the API or from the base64 decoder, ends in null. */
  function FetchCurrentTopic(token: Option<string>, owner: Option<string>, repo: Option<string>,
                             get: GetFileCall -> Response<FileContent>, text: seq<byte> -> string): (topic: Option<string>)
    ensures topic.Some? ==> token.Some? && owner.Some? && repo.Some?
    ensures topic.Some? ==> IsTrimmed(topic.value)
  {
    if token.None? || owner.None? || repo.None? then None
    else
      var response := get(TopicCall(token.value, owner.value, repo.value));
      if !response.Ok? || response.value.content.None? then None
      else
        match Decode(Standard, RemoveAll(response.value.content.value, '\n'))
        case None => None
        case Some(bytes) =>
          TrimSpec(text(bytes));
          Some(Trim(text(bytes)))
  }

  /** A topic file holding the base64 of some bytes, wrapped into lines or
      not, reads back as the trimmed text of those bytes. */
  lemma {:induction false} TopicRoundTrip(token: string, owner: string, repo: string,
                                          get: GetFileCall -> Response<FileContent>, text: seq<byte> -> string,
                                          bytes: seq<byte>)
    requires get(TopicCall(token, owner, repo)).Ok?
    requires get(TopicCall(token, owner, repo)).value.content.Some?
    requires RemoveAll(get(TopicCall(token, owner, repo)).value.content.value, '\n') == Encode(Standard, bytes, true)
    ensures FetchCurrentTopic(Some(token), Some(owner), Some(repo), get, text) == Some(Trim(text(bytes)))
  {
    DecodeEncode(Standard, bytes, true);
  }

  /** Base64 written without line breaks needs none removed: the unwrapped
      encoding of a topic satisfies the round trip above as it stands. */
  lemma {:induction false} UnwrappedTopic(bytes: seq<byte>)
    ensures RemoveAll(Encode(Standard, bytes, true), '\n') == Encode(Standard, bytes, true)
  {
    EncodeHasNoLineFeed(Standard, bytes, true);
  }

  /** Base64 that the server wraps over several lines reads back as the
      topic: the line breaks are removed before decoding. */
  lemma {:induction false} WrappedTopicRoundTrip(token: string, owner: string, repo: string,
                                                 get: GetFileCall -> Response<FileContent>, text: seq<byte> -> string,
                                                 bytes: seq<byte>, lines: seq<string>)
    requires lines != [] && forall i :: 0 <= i < |lines| ==> '\n' !in lines[i]
    requires Concat(lines) == Encode(Standard, bytes, true)
    requires get(TopicCall(token, owner, repo)).Ok?
    requires get(TopicCall(token, owner, repo)).value.content == Some(Join(lines, '\n'))
    ensures FetchCurrentTopic(Some(token), Some(owner), Some(repo), get, text) == Some(Trim(text(bytes)))
  {
    RemoveAllJoin(lines, '\n');
    TopicRoundTrip(token, owner, repo, get, text, bytes);
  }

  /** A missing file body, a failed request or a body that is not base64
      all read as no topic. */
  lemma {:induction false} TopicAbsent(token: string, owner: string, repo: string,
                                       get: GetFileCall -> Response<FileContent>, text: seq<byte> -> string)
    requires !get(TopicCall(token, owner, repo)).Ok?
          || get(TopicCall(token, owner, repo)).value.content.None?
          || Decode(Standard, RemoveAll(get(TopicCall(token, owner, repo)).value.content.value, '\n')).None?
    ensures FetchCurrentTopic(Some(token), Some(owner), Some(repo), get, text) == None
  {
  }
}
