/** The Retrofit interface `GitHubApi` and its DTOs, as values. The HTTP
    client itself is external: every call is described by the request it
    sends and answered by a `Response`. */
module GitHubApi {
  import opened Wrappers

  /** How a suspending API call ends: a decoded body, an `HttpException`
      carrying the status code, or any other exception (I/O, decoding).
      `message` is the exception's `message`. */
  datatype Response<T> =
    | Ok(value: T)
    | Http(code: int, message: string)
    | Failure(message: string)
  {
    predicate IsHttp(c: int) {
      Http? && code == c
    }
  }

  /** The `Authorization` header every authenticated call sends. */
  function Bearer(token: string): string {
    "Bearer " + token
  }

  datatype CreateFileRequest = CreateFileRequest(message: string, content: string)

  /** `PUT repos/{owner}/{repo}/contents/{path}`. */
  datatype CreateFileCall = CreateFileCall(auth: string, owner: string, repo: string, path: string, request: CreateFileRequest)

  /** `GET repos/{owner}/{repo}/contents/{path}`. */
  datatype GetFileCall = GetFileCall(auth: string, owner: string, repo: string, path: string)

  /** `GitHubFileContent`: `content` is base64 and may be absent. */
  datatype FileContent = FileContent(content: Option<string>, encoding: Option<string>, sha: Option<string>)

  datatype User = User(login: string)

  datatype DirectoryEntry = DirectoryEntry(name: string, path: string, entryType: string)

  /** A note file under `inbox/`: the path `inbox/<name>.md` and the commit
      message `Add note <name>`, as both `NoteRepository.submitNote` and
      `NoteUploadWorker.doWork` build them. */
  function CreateNoteFile(token: string, owner: string, repo: string, name: string, content: string): (call: CreateFileCall)
    ensures call.path == "inbox/" + name + ".md"
    ensures call.request == CreateFileRequest("Add note " + name, content)
    ensures call.auth == Bearer(token) && call.owner == owner && call.repo == repo
  {
    CreateFileCall(Bearer(token), owner, repo, "inbox/" + name + ".md", CreateFileRequest("Add note " + name, content))
  }
}
