/** `NoteUploadWorker.doWork`: drains the pending-note table into the
    repository's `inbox/`, one note at a time and in table order.

    The run is specified by `Work`, a function of the credentials, the table
    it starts from and the services it talks to. It gives the result, the
    final table, the history rows appended, and the trace of every table
    write and remote call in the order they happen. `DoWork` is the loop;
    its postcondition ties it to `Work`, and the lemmas below say what
    `Work` promises. */
module NoteUploadWorker {
  import opened Wrappers
  import opened Text
  import opened Base64
  import opened GitHubApi
  import opened LocalData
  import AuthManager

  /** `Result.success()` or `Result.retry()`. */
  datatype WorkResult = Success | Retry

  /** One observable step of a run, in the order the worker takes them. */
  datatype Effect =
    | MarkStatus(id: int, status: NoteStatus)
    | CreateFile(id: int, call: CreateFileCall, response: Response<()>)
    | RecordSubmission(record: SubmissionRecord)
    | DeleteNote(id: int)

  /** The services a run depends on: the GitHub API, answering the `n`-th
      call of the run; UTF-8 `toByteArray`; and `System.currentTimeMillis`
      at the `n`-th history insert of the run. */
  datatype Env = Env(remote: (nat, CreateFileCall) -> Response<()>, utf8: string -> seq<byte>, clock: nat -> int)

  datatype Credentials = Credentials(token: string, owner: string, repo: string)

  /** What a run leaves behind: its result, the pending table, the history
      rows it appended, and its trace. */
  datatype Run = Run(result: WorkResult, pending: seq<PendingNote>, history: seq<SubmissionRecord>, effects: seq<Effect>)

  /** The number of characters a history preview keeps. */
  const PREVIEW_LENGTH: nat := 50

  /** The file content: the note's UTF-8 bytes in padded, unwrapped base64. */
  function Content(env: Env, note: PendingNote): string {
    Encode(Standard, env.utf8(note.text), true)
  }

  /** The first attempt: `inbox/<filename>.md`. */
  function PrimaryCall(c: Credentials, env: Env, note: PendingNote): CreateFileCall {
    CreateNoteFile(c.token, c.owner, c.repo, note.filename, Content(env, note))
  }

  /** The attempt after a 422 conflict: `inbox/<filename>-1.md`. */
  function RetryCall(c: Credentials, env: Env, note: PendingNote): CreateFileCall {
    CreateNoteFile(c.token, c.owner, c.repo, note.filename + "-1", Content(env, note))
  }

  /** The remote calls made for one note, starting with the run's `n`-th
      call: the primary attempt and, only when it fails with 422, one retry. */
  function Attempts(c: Credentials, env: Env, note: PendingNote, n: nat): (r: seq<Effect>)
    ensures 1 <= |r| <= 2
    ensures forall k :: 0 <= k < |r| ==> r[k].CreateFile? && r[k].id == note.id
  {
    var primary := PrimaryCall(c, env, note);
    var first := env.remote(n, primary);
    if first.IsHttp(422) then
      var retry := RetryCall(c, env, note);
      [CreateFile(note.id, primary, first), CreateFile(note.id, retry, env.remote(n + 1, retry))]
    else
      [CreateFile(note.id, primary, first)]
  }

  /** The note arrived: its last attempt returned a body. */
  predicate Delivered(attempts: seq<Effect>) {
    attempts != [] && attempts[|attempts| - 1].CreateFile? && attempts[|attempts| - 1].response.Ok?
  }

  /** The history row a delivered note leaves: successful, stamped by the
      clock at the run's `t`-th insert, previewing the first 50 characters. */
  function Record(env: Env, note: PendingNote, t: nat): SubmissionRecord {
    SubmissionRecord(env.clock(t), Take(note.text, PREVIEW_LENGTH), true)
  }

  /** The steps of the loop body for one note: mark it uploading, make its
      attempts, then record and delete it, or mark it failed. */
  function NoteSteps(c: Credentials, env: Env, note: PendingNote, n: nat, t: nat): seq<Effect> {
    var attempts := Attempts(c, env, note, n);
    [MarkStatus(note.id, Uploading)] + attempts +
    (if Delivered(attempts) then [RecordSubmission(Record(env, note, t)), DeleteNote(note.id)]
     else [MarkStatus(note.id, Failed)])
  }

  /** The `for` loop over `notes`, starting with the run's `n`-th remote call
      and `t`-th history insert. */
  function Drain(c: Credentials, notes: seq<PendingNote>, env: Env, n: nat, t: nat): Run
    decreases |notes|
  {
    if notes == [] then Run(Success, [], [], [])
    else
      var note := notes[0];
      var attempts := Attempts(c, env, note, n);
      if Delivered(attempts) then
        var rest := Drain(c, notes[1..], env, n + |attempts|, t + 1);
        Run(rest.result, rest.pending, [Record(env, note, t)] + rest.history, NoteSteps(c, env, note, n, t) + rest.effects)
      else
        Run(Retry, [note.(status := Failed)] + notes[1..], [], NoteSteps(c, env, note, n, t))
  }

  /** A run that has already appended `records` and taken `steps` before
      it continues as `r`. */
  function Resume(records: seq<SubmissionRecord>, steps: seq<Effect>, r: Run): Run {
    Run(r.result, r.pending, records + r.history, steps + r.effects)
  }

  /** A drain that delivers its first note continues with the rest. */
  lemma {:induction false} ResumeDelivered(c: Credentials, notes: seq<PendingNote>, env: Env, n: nat, t: nat,
                        records: seq<SubmissionRecord>, steps: seq<Effect>)
    requires notes != [] && Delivered(Attempts(c, env, notes[0], n))
    ensures Resume(records, steps, Drain(c, notes, env, n, t)) ==
      Resume(records + [Record(env, notes[0], t)], steps + NoteSteps(c, env, notes[0], n, t),
             Drain(c, notes[1..], env, n + |Attempts(c, env, notes[0], n)|, t + 1))
  {
    var rest := Drain(c, notes[1..], env, n + |Attempts(c, env, notes[0], n)|, t + 1);
    var record := Record(env, notes[0], t);
    var own := NoteSteps(c, env, notes[0], n, t);
    assert Drain(c, notes, env, n, t) == Run(rest.result, rest.pending, [record] + rest.history, own + rest.effects);
    ResumePrepend(records, steps, record, own, rest);
  }

  /** Resuming a run that starts with a record and some steps is resuming
      its rest with both already taken. */
  lemma {:induction false} ResumePrepend(records: seq<SubmissionRecord>, steps: seq<Effect>,
                                         record: SubmissionRecord, own: seq<Effect>, rest: Run)
    ensures Resume(records, steps, Run(rest.result, rest.pending, [record] + rest.history, own + rest.effects))
         == Resume(records + [record], steps + own, rest)
  {
    assert records + ([record] + rest.history) == (records + [record]) + rest.history;
    assert steps + (own + rest.effects) == (steps + own) + rest.effects;
  }

  /** A drain that does not deliver its first note stops there. */
  lemma {:induction false} ResumeStopped(c: Credentials, notes: seq<PendingNote>, env: Env, n: nat, t: nat,
                      records: seq<SubmissionRecord>, steps: seq<Effect>)
    requires notes != [] && !Delivered(Attempts(c, env, notes[0], n))
    ensures Resume(records, steps, Drain(c, notes, env, n, t)) ==
      Run(Retry, [notes[0].(status := Failed)] + notes[1..], records, steps + NoteSteps(c, env, notes[0], n, t))
  {
    assert records + [] == records;
  }

  /** One note of the loop, as `UploadNote` leaves the tables, moves the
      drain forward by that note: on to the rest, or to a stop. */
  lemma {:induction false} StepResumes(c: Credentials, table: seq<PendingNote>, env: Env, n: nat, t: nat,
                    records: seq<SubmissionRecord>, before: seq<Effect>, spec: Run,
                    delivered: bool, steps: seq<Effect>, calls: nat,
                    pending: seq<PendingNote>, history: seq<SubmissionRecord>)
    requires table != [] && DistinctIds(table)
    requires spec == Resume(records, before, Drain(c, table, env, n, t))
    requires calls == |Attempts(c, env, table[0], n)| && delivered == Delivered(Attempts(c, env, table[0], n))
    requires steps == NoteSteps(c, env, table[0], n, t)
    requires delivered ==> pending == table[1..] && history == records + [Record(env, table[0], t)]
    requires !delivered ==> pending == [table[0].(status := Failed)] + table[1..] && history == records
    ensures delivered ==> DistinctIds(pending)
    ensures delivered ==> spec == Resume(history, before + steps, Drain(c, pending, env, n + calls, t + 1))
    ensures !delivered ==> spec == Run(Retry, pending, history, before + steps)
  {
    if delivered {
      DistinctSuffix(table, 1);
      ResumeDelivered(c, table, env, n, t, records, before);
    } else {
      ResumeStopped(c, table, env, n, t, records, before);
    }
  }

  /** `doWork`, given what the store holds and the pending table. */
  function Work(token: Option<string>, owner: Option<string>, repo: Option<string>,
                table: seq<PendingNote>, env: Env): Run
  {
    if token.None? || owner.None? || repo.None? then Run(Retry, table, [], [])
    else if table == [] then Run(Success, [], [], [])
    else Drain(Credentials(token.value, owner.value, repo.value), table, env, 0, 0)
  }

  // ---------------------------------------------------------------- replay

  /** What a step does to the pending table. */
  function Apply(e: Effect, table: seq<PendingNote>): seq<PendingNote> {
    match e
    case MarkStatus(id, status) => WithStatus(table, id, status)
    case DeleteNote(id) => Without(table, id)
    case _ => table
  }

  /** The pending table after a sequence of steps. */
  function Replay(effects: seq<Effect>, table: seq<PendingNote>): seq<PendingNote>
    decreases |effects|
  {
    if effects == [] then table else Replay(effects[1..], Apply(effects[0], table))
  }

  lemma {:induction false} ReplayAppend(a: seq<Effect>, b: seq<Effect>, table: seq<PendingNote>)
    ensures Replay(a + b, table) == Replay(b, Replay(a, table))
    decreases |a|
  {
    if a == [] {
      assert a + b == b;
    } else {
      assert (a + b)[0] == a[0] && (a + b)[1..] == a[1..] + b;
      ReplayAppend(a[1..], b, Apply(a[0], table));
    }
  }

  /** Remote calls leave the table alone. */
  lemma {:induction false} ReplayCalls(a: seq<Effect>, table: seq<PendingNote>)
    requires forall k :: 0 <= k < |a| ==> a[k].CreateFile?
    ensures Replay(a, table) == table
    decreases |a|
  {
    if a != [] {
      ReplayCalls(a[1..], table);
    }
  }

  lemma {:induction false} ReplayMark(id: int, status: NoteStatus, table: seq<PendingNote>)
    ensures Replay([MarkStatus(id, status)], table) == WithStatus(table, id, status)
  {
    assert [MarkStatus(id, status)][1..] == [];
  }

  lemma {:induction false} ReplayRecordDelete(record: SubmissionRecord, id: int, table: seq<PendingNote>)
    ensures Replay([RecordSubmission(record), DeleteNote(id)], table) == Without(table, id)
  {
    var steps := [RecordSubmission(record), DeleteNote(id)];
    assert steps[1..] == [DeleteNote(id)] && [DeleteNote(id)][1..] == [];
    assert Replay(steps, table) == Replay([DeleteNote(id)], table);
    assert Replay([DeleteNote(id)], table) == Replay([], Without(table, id));
  }

  /** The three updates the loop makes to the row at the head of the table. */
  lemma {:induction false} HeadUpdates(notes: seq<PendingNote>)
    requires DistinctIds(notes) && notes != []
    ensures WithStatus(notes, notes[0].id, Uploading) == [notes[0].(status := Uploading)] + notes[1..]
    ensures Without(WithStatus(notes, notes[0].id, Uploading), notes[0].id) == notes[1..]
    ensures WithStatus(WithStatus(notes, notes[0].id, Uploading), notes[0].id, Failed)
            == [notes[0].(status := Failed)] + notes[1..]
  {
    var u := WithStatus(notes, notes[0].id, Uploading);
    WithStatusHead(notes, Uploading);
    assert DistinctIds(u) by {
      forall i, j | 0 <= i < j < |u| ensures u[i].id != u[j].id {
        assert u[i].id == notes[i].id && u[j].id == notes[j].id;
      }
    }
    WithoutAt(u, 0);
    WithStatusHead(u, Failed);
    assert u[1..] == notes[1..];
  }

  // ---------------------------------------------------------------- properties

  /** A drain whose first note arrives ends as the drain of the rest does,
      one history row and that note's steps longer. */
  lemma {:induction false} DrainDelivered(c: Credentials, notes: seq<PendingNote>, env: Env, n: nat, t: nat)
    requires notes != [] && Delivered(Attempts(c, env, notes[0], n))
    ensures var r := Drain(c, notes, env, n, t);
      var rest := Drain(c, notes[1..], env, n + |Attempts(c, env, notes[0], n)|, t + 1);
      r.result == rest.result && r.pending == rest.pending && r.history == [Record(env, notes[0], t)] + rest.history
  {
  }

  lemma {:induction false} DropAfter<T>(s: seq<T>, k: nat)
    requires k + 1 < |s|
    ensures s[1..][k] == s[k + 1] && s[1..][k + 1..] == s[k + 2..]
  {
  }

  /** The outcome of a drain over `notes`. The first `k` notes are
      delivered, one history row each. The run succeeds exactly when every
      note is delivered, and then the table is empty. Otherwise note `k` is
      marked failed and stays in the table together with every later note,
      each exactly as it was. */
  ghost predicate Outcome(r: Run, notes: seq<PendingNote>) {
    |r.history| <= |notes| &&
    (r.result == Success <==> |r.history| == |notes|) &&
    (r.result == Success ==> r.pending == []) &&
    (r.result == Retry ==>
       |r.history| < |notes| && r.pending == [notes[|r.history|].(status := Failed)] + notes[|r.history| + 1..])
  }

  /** Delivering the head note and then ending as an outcome for the rest
      of the table is an outcome for the whole table. */
  lemma {:induction false} OutcomeAfterHead(notes: seq<PendingNote>, record: SubmissionRecord, rest: Run, r: Run)
    requires notes != [] && Outcome(rest, notes[1..])
    requires r.result == rest.result && r.pending == rest.pending && r.history == [record] + rest.history
    ensures Outcome(r, notes)
  {
    if rest.result == Retry {
      DropAfter(notes, |rest.history|);
    }
  }

  /** A drain that does not deliver its first note stops there. */
  lemma {:induction false} DrainStopped(c: Credentials, notes: seq<PendingNote>, env: Env, n: nat, t: nat)
    requires notes != [] && !Delivered(Attempts(c, env, notes[0], n))
    ensures Drain(c, notes, env, n, t) == Run(Retry, [notes[0].(status := Failed)] + notes[1..], [], NoteSteps(c, env, notes[0], n, t))
  {
  }

  lemma {:induction false} DrainOutcome(c: Credentials, notes: seq<PendingNote>, env: Env, n: nat, t: nat)
    ensures Outcome(Drain(c, notes, env, n, t), notes)
    decreases |notes|
  {
    if notes != [] {
      var attempts := Attempts(c, env, notes[0], n);
      if Delivered(attempts) {
        DrainOutcome(c, notes[1..], env, n + |attempts|, t + 1);
        DeliveredOutcome(c, notes, env, n, t);
      } else {
        StoppedOutcome(c, notes, env, n, t);
      }
    }
  }

  /** A drain that delivers its first note is an outcome when the drain of
      the rest is. */
  lemma {:induction false} DeliveredOutcome(c: Credentials, notes: seq<PendingNote>, env: Env, n: nat, t: nat)
    requires notes != [] && Delivered(Attempts(c, env, notes[0], n))
    requires Outcome(Drain(c, notes[1..], env, n + |Attempts(c, env, notes[0], n)|, t + 1), notes[1..])
    ensures Outcome(Drain(c, notes, env, n, t), notes)
  {
    var rest := Drain(c, notes[1..], env, n + |Attempts(c, env, notes[0], n)|, t + 1);
    DrainDelivered(c, notes, env, n, t);
    OutcomeAfterHead(notes, Record(env, notes[0], t), rest, Drain(c, notes, env, n, t));
  }

  /** A drain that stops at its first note is an outcome with no row. */
  lemma {:induction false} StoppedOutcome(c: Credentials, notes: seq<PendingNote>, env: Env, n: nat, t: nat)
    requires notes != [] && !Delivered(Attempts(c, env, notes[0], n))
    ensures Outcome(Drain(c, notes, env, n, t), notes)
  {
    DrainStopped(c, notes, env, n, t);
    assert notes[0 + 1..] == notes[1..];
  }

  /** The history rows of a drain over `notes` from the run's `t`-th insert:
      the `i`-th delivered note gets one row, marked successful, stamped by
      the clock at the run's `t + i`-th insert, with the first 50 characters
      of its text as preview. */
  ghost predicate HistoryOf(history: seq<SubmissionRecord>, notes: seq<PendingNote>, env: Env, t: nat) {
    |history| <= |notes| &&
    forall i :: 0 <= i < |history| ==>
      history[i] == SubmissionRecord(env.clock(t + i), Take(notes[i].text, PREVIEW_LENGTH), true)
  }

  /** The head note's row in front of the rows for the rest of the table
      are the rows for the whole table. */
  lemma {:induction false} HistoryAfterHead(notes: seq<PendingNote>, env: Env, t: nat, rest: seq<SubmissionRecord>,
                                            h: seq<SubmissionRecord>)
    requires notes != [] && HistoryOf(rest, notes[1..], env, t + 1)
    requires h == [Record(env, notes[0], t)] + rest
    ensures HistoryOf(h, notes, env, t)
  {
    forall i | 0 <= i < |h|
      ensures h[i] == SubmissionRecord(env.clock(t + i), Take(notes[i].text, PREVIEW_LENGTH), true)
    {
      if i > 0 {
        assert h[i] == rest[i - 1] && notes[1..][i - 1] == notes[i];
        assert t + 1 + (i - 1) == t + i;
      }
    }
  }

  lemma {:induction false} DrainHistory(c: Credentials, notes: seq<PendingNote>, env: Env, n: nat, t: nat)
    ensures HistoryOf(Drain(c, notes, env, n, t).history, notes, env, t)
    decreases |notes|
  {
    if notes != [] {
      var attempts := Attempts(c, env, notes[0], n);
      if Delivered(attempts) {
        var rest := Drain(c, notes[1..], env, n + |attempts|, t + 1);
        DrainDelivered(c, notes, env, n, t);
        DrainHistory(c, notes[1..], env, n + |attempts|, t + 1);
        HistoryAfterHead(notes, env, t, rest.history, Drain(c, notes, env, n, t).history);
      } else {
        DrainStopped(c, notes, env, n, t);
      }
    }
  }

  /** A drain that starts with a note takes that note's steps first, and
      continues with the rest of the table only when the note arrived. */
  lemma {:induction false} DrainSteps(c: Credentials, notes: seq<PendingNote>, env: Env, n: nat, t: nat)
    requires notes != []
    ensures var attempts := Attempts(c, env, notes[0], n);
      Delivered(attempts) ==>
        Drain(c, notes, env, n, t).effects ==
        NoteSteps(c, env, notes[0], n, t) + Drain(c, notes[1..], env, n + |attempts|, t + 1).effects
    ensures !Delivered(Attempts(c, env, notes[0], n)) ==>
      Drain(c, notes, env, n, t).effects == NoteSteps(c, env, notes[0], n, t) + []
  {
    if Delivered(Attempts(c, env, notes[0], n)) {
      DeliveredSteps(c, notes, env, n, t);
    } else {
      DrainStopped(c, notes, env, n, t);
      assert NoteSteps(c, env, notes[0], n, t) + [] == NoteSteps(c, env, notes[0], n, t);
    }
  }

  lemma {:induction false} DeliveredSteps(c: Credentials, notes: seq<PendingNote>, env: Env, n: nat, t: nat)
    requires notes != [] && Delivered(Attempts(c, env, notes[0], n))
    ensures Drain(c, notes, env, n, t).effects ==
      NoteSteps(c, env, notes[0], n, t) + Drain(c, notes[1..], env, n + |Attempts(c, env, notes[0], n)|, t + 1).effects
  {
  }

  /** While its attempts are under way, the note at the head of the table is
      the only row changed, and it is marked uploading. */
  lemma {:induction false} ReplayAttempts(c: Credentials, env: Env, notes: seq<PendingNote>, n: nat, i: nat)
    requires DistinctIds(notes) && notes != []
    requires 1 <= i <= 1 + |Attempts(c, env, notes[0], n)|
    ensures Replay(([MarkStatus(notes[0].id, Uploading)] + Attempts(c, env, notes[0], n))[..i], notes)
            == [notes[0].(status := Uploading)] + notes[1..]
  {
    var mark := [MarkStatus(notes[0].id, Uploading)];
    var attempts := Attempts(c, env, notes[0], n);
    TakeAppend(mark, attempts, i - 1);
    HeadUpdates(notes);
    ReplayAppend(mark, attempts[..i - 1], notes);
    ReplayMark(notes[0].id, Uploading, notes);
    ReplayCalls(attempts[..i - 1], WithStatus(notes, notes[0].id, Uploading));
  }

  /** The steps for the note at the head of the table remove it when it
      arrived, and otherwise leave it marked failed; no other row changes. */
  lemma {:induction false} ReplayNoteSteps(c: Credentials, env: Env, notes: seq<PendingNote>, n: nat, t: nat)
    requires DistinctIds(notes) && notes != []
    ensures Delivered(Attempts(c, env, notes[0], n)) ==> Replay(NoteSteps(c, env, notes[0], n, t), notes) == notes[1..]
    ensures !Delivered(Attempts(c, env, notes[0], n)) ==>
      Replay(NoteSteps(c, env, notes[0], n, t), notes) == [notes[0].(status := Failed)] + notes[1..]
  {
    var note := notes[0];
    var attempts := Attempts(c, env, note, n);
    var start := [MarkStatus(note.id, Uploading)] + attempts;
    var u := WithStatus(notes, note.id, Uploading);
    ReplayAttempts(c, env, notes, n, |start|);
    assert start[..|start|] == start;
    HeadUpdates(notes);
    if Delivered(attempts) {
      var finish := [RecordSubmission(Record(env, note, t)), DeleteNote(note.id)];
      ReplayAppend(start, finish, notes);
      ReplayRecordDelete(Record(env, note, t), note.id, u);
    } else {
      ReplayAppend(start, [MarkStatus(note.id, Failed)], notes);
      ReplayMark(note.id, Failed, u);
    }
  }

  /** The steps of a drain, replayed on the table it started from, give the
      table it leaves: the trace accounts for every change. */
  lemma {:induction false} DrainReplay(c: Credentials, notes: seq<PendingNote>, env: Env, n: nat, t: nat)
    requires DistinctIds(notes)
    ensures Replay(Drain(c, notes, env, n, t).effects, notes) == Drain(c, notes, env, n, t).pending
    decreases |notes|
  {
    if notes != [] {
      var attempts := Attempts(c, env, notes[0], n);
      var steps := NoteSteps(c, env, notes[0], n, t);
      DrainSteps(c, notes, env, n, t);
      ReplayNoteSteps(c, env, notes, n, t);
      if Delivered(attempts) {
        var rest := Drain(c, notes[1..], env, n + |attempts|, t + 1);
        ReplayAppend(steps, rest.effects, notes);
        DistinctSuffix(notes, 1);
        DrainReplay(c, notes[1..], env, n + |attempts|, t + 1);
      } else {
        assert steps + [] == steps;
      }
    }
  }

  /** The remote call at step `j` is made for `notes[m]` while that row is
      marked uploading, every earlier note has been delivered and deleted,
      and every later note is untouched. */
  ghost predicate CalledWhileUploading(effects: seq<Effect>, notes: seq<PendingNote>, j: nat, m: nat)
    requires j < |effects| && m < |notes|
  {
    effects[j].CreateFile? && effects[j].id == notes[m].id &&
    Replay(effects[..j], notes) == [notes[m].(status := Uploading)] + notes[m + 1..]
  }

  /** The call at step `j` is the note's primary attempt, or its retry right
      after a primary attempt that failed with 422. */
  ghost predicate IsAttemptFor(effects: seq<Effect>, j: nat, c: Credentials, env: Env, note: PendingNote)
    requires j < |effects|
  {
    effects[j].CreateFile? &&
    (effects[j].call == PrimaryCall(c, env, note) ||
     (effects[j].call == RetryCall(c, env, note) && 0 < j && effects[j - 1].CreateFile? &&
      effects[j - 1].call == PrimaryCall(c, env, note) && effects[j - 1].response.IsHttp(422)))
  }

  /** A call among the head note's own steps is one of its attempts. */
  lemma {:induction false} StepCallIsAttempt(c: Credentials, env: Env, note: PendingNote, n: nat, t: nat, j: nat)
    requires j < |NoteSteps(c, env, note, n, t)| && NoteSteps(c, env, note, n, t)[j].CreateFile?
    ensures 1 <= j <= |Attempts(c, env, note, n)|
    ensures NoteSteps(c, env, note, n, t)[j] == Attempts(c, env, note, n)[j - 1]
  {
  }

  /** A call made for the head note, among that note's own steps, happens
      while it is marked uploading, and is its primary attempt or the retry
      right after a 422. */
  lemma {:induction false} CallOrderHead(c: Credentials, notes: seq<PendingNote>, env: Env, n: nat, t: nat,
                      later: seq<Effect>, j: nat)
    requires DistinctIds(notes) && notes != []
    requires j < |NoteSteps(c, env, notes[0], n, t)| && NoteSteps(c, env, notes[0], n, t)[j].CreateFile?
    ensures CallInOrderAt(NoteSteps(c, env, notes[0], n, t) + later, notes, j, 0, c, env)
  {
    var steps := NoteSteps(c, env, notes[0], n, t);
    var attempts := Attempts(c, env, notes[0], n);
    var start := [MarkStatus(notes[0].id, Uploading)] + attempts;
    StepCallIsAttempt(c, env, notes[0], n, t, j);
    var finish := steps[|start|..];
    TakeLeft(steps, later, j);
    assert steps == start + finish;
    TakeLeft(start, finish, j);
    ReplayAttempts(c, env, notes, n, j);
    assert (steps + later)[j] == attempts[j - 1];
    if j == 2 {
      assert (steps + later)[1] == attempts[0];
    }
  }

  /** A call of the drain of the rest of the table, after steps that remove
      the head row, is still made while its note is marked uploading, that
      note now being one row further down the original table. */
  lemma {:induction false} UploadingShift(notes: seq<PendingNote>, prefix: seq<Effect>, later: seq<Effect>, j: nat, m: nat)
    requires notes != [] && Replay(prefix, notes) == notes[1..]
    requires |prefix| <= j < |prefix| + |later| && m < |notes| - 1
    requires CalledWhileUploading(later, notes[1..], j - |prefix|, m)
    ensures CalledWhileUploading(prefix + later, notes, j, m + 1)
  {
    var tail := notes[1..];
    var k := j - |prefix|;
    var all := prefix + later;
    assert all[j] == later[k];
    ReplayShift(notes, prefix, later, k);
    assert Replay(all[..j], notes) == Replay(later[..k], tail);
    assert Replay(later[..k], tail) == [tail[m].(status := Uploading)] + tail[m + 1..];
    UploadingTail(notes, m);
  }

  lemma {:induction false} UploadingTail(notes: seq<PendingNote>, m: nat)
    requires m + 1 < |notes|
    ensures [notes[1..][m].(status := Uploading)] + notes[1..][m + 1..]
         == [notes[m + 1].(status := Uploading)] + notes[m + 2..]
  {
    assert notes[1..][m + 1..] == notes[m + 2..];
  }

  /** Replaying a prefix that removes the head row, then part of what
      follows, is replaying that part on the rest of the table. */
  lemma {:induction false} ReplayShift(notes: seq<PendingNote>, prefix: seq<Effect>, later: seq<Effect>, j: nat)
    requires notes != [] && Replay(prefix, notes) == notes[1..]
    requires j <= |later|
    ensures Replay((prefix + later)[..|prefix| + j], notes) == Replay(later[..j], notes[1..])
  {
    TakeAppend(prefix, later, j);
    ReplayAppend(prefix, later[..j], notes);
  }

  lemma {:induction false} TakeAppend<T>(a: seq<T>, b: seq<T>, j: nat)
    requires j <= |b|
    ensures (a + b)[..|a| + j] == a + b[..j]
  {
  }

  lemma {:induction false} TakeLeft<T>(a: seq<T>, b: seq<T>, j: nat)
    requires j <= |a|
    ensures (a + b)[..j] == a[..j]
  {
  }

  /** Steps put in front of a trace do not change which attempt a call is. */
  lemma {:induction false} AttemptShift(c: Credentials, env: Env, note: PendingNote, prefix: seq<Effect>, later: seq<Effect>, j: nat)
    requires |prefix| <= j < |prefix| + |later| && IsAttemptFor(later, j - |prefix|, c, env, note)
    ensures IsAttemptFor(prefix + later, j, c, env, note)
  {
    var k := j - |prefix|;
    assert (prefix + later)[j] == later[k];
    if k > 0 {
      assert (prefix + later)[j - 1] == later[k - 1];
    }
  }

  /** The call at step `j` goes out for `notes[m]` while that row is marked
      uploading, and is one of that note's attempts. */
  ghost predicate CallInOrderAt(effects: seq<Effect>, notes: seq<PendingNote>, j: nat, m: nat, c: Credentials, env: Env)
    requires j < |effects| && m < |notes|
  {
    CalledWhileUploading(effects, notes, j, m) && IsAttemptFor(effects, j, c, env, notes[m])
  }

  /** Every remote call in `effects` goes out for some row of `notes` while
      that row is marked uploading and is one of its attempts. */
  ghost predicate CallsInOrder(effects: seq<Effect>, notes: seq<PendingNote>, c: Credentials, env: Env) {
    forall j :: 0 <= j < |effects| && effects[j].CreateFile? ==>
      exists m :: 0 <= m < |notes| && CallInOrderAt(effects, notes, j, m, c, env)
  }

  /** A call of the drain of the rest of the table, behind steps that remove
      the head row, is in order for the whole table, its note now one row
      further down. */
  lemma {:induction false} ShiftCall(c: Credentials, env: Env, notes: seq<PendingNote>,
                                     prefix: seq<Effect>, later: seq<Effect>, j: nat, m: nat)
    requires notes != [] && Replay(prefix, notes) == notes[1..]
    requires |prefix| <= j < |prefix| + |later| && m < |notes| - 1
    requires CallInOrderAt(later, notes[1..], j - |prefix|, m, c, env)
    ensures CallInOrderAt(prefix + later, notes, j, m + 1, c, env)
  {
    assert notes[1..][m] == notes[m + 1];
    UploadingShift(notes, prefix, later, j, m);
    AttemptShift(c, env, notes[m + 1], prefix, later, j);
  }

  /** A call after a prefix that removes the head row, taken from calls in
      order for the rest of the table, is in order for the whole table. */
  lemma {:induction false} LaterCallInOrder(c: Credentials, env: Env, notes: seq<PendingNote>,
                                            prefix: seq<Effect>, later: seq<Effect>, j: nat)
    requires notes != [] && Replay(prefix, notes) == notes[1..]
    requires CallsInOrder(later, notes[1..], c, env)
    requires |prefix| <= j < |prefix| + |later| && (prefix + later)[j].CreateFile?
    ensures exists m :: 0 <= m < |notes| && CallInOrderAt(prefix + later, notes, j, m, c, env)
  {
    var k := j - |prefix|;
    assert later[k] == (prefix + later)[j];
    var m :| 0 <= m < |notes[1..]| && CallInOrderAt(later, notes[1..], k, m, c, env);
    ShiftCall(c, env, notes, prefix, later, j, m);
  }

  /** The head note's steps followed by calls in order for the rest of the
      table (which those steps leave behind) are calls in order for the
      whole table. */
  lemma {:induction false} CallsAfterHead(c: Credentials, notes: seq<PendingNote>, env: Env, n: nat, t: nat,
                                          later: seq<Effect>, effects: seq<Effect>)
    requires DistinctIds(notes) && notes != []
    requires later != [] ==> Delivered(Attempts(c, env, notes[0], n))
    requires CallsInOrder(later, notes[1..], c, env)
    requires effects == NoteSteps(c, env, notes[0], n, t) + later
    ensures CallsInOrder(effects, notes, c, env)
  {
    var steps := NoteSteps(c, env, notes[0], n, t);
    ReplayNoteSteps(c, env, notes, n, t);
    forall j | 0 <= j < |effects| && effects[j].CreateFile?
      ensures exists m :: 0 <= m < |notes| && CallInOrderAt(effects, notes, j, m, c, env)
    {
      if j < |steps| {
        assert steps[j] == effects[j];
        CallOrderHead(c, notes, env, n, t, later, j);
      } else {
        LaterCallInOrder(c, env, notes, steps, later, j);
      }
    }
  }

  /** Every remote call of a drain goes out for the note at the head of what
      is left of the table, in table order, after that note was marked
      uploading; and it is that note's primary attempt or its single retry
      after a 422. */
  lemma {:induction false} DrainCallOrder(c: Credentials, notes: seq<PendingNote>, env: Env, n: nat, t: nat)
    requires DistinctIds(notes)
    ensures CallsInOrder(Drain(c, notes, env, n, t).effects, notes, c, env)
    decreases |notes|
  {
    if notes != [] {
      var attempts := Attempts(c, env, notes[0], n);
      if Delivered(attempts) {
        DistinctSuffix(notes, 1);
        DrainCallOrder(c, notes[1..], env, n + |attempts|, t + 1);
        DeliveredCallOrder(c, notes, env, n, t);
      } else {
        StoppedCallOrder(c, notes, env, n, t);
      }
    }
  }

  /** A drain that delivers its first note makes its calls in order when
      the drain of the rest does. */
  lemma {:induction false} DeliveredCallOrder(c: Credentials, notes: seq<PendingNote>, env: Env, n: nat, t: nat)
    requires DistinctIds(notes) && notes != [] && Delivered(Attempts(c, env, notes[0], n))
    requires CallsInOrder(Drain(c, notes[1..], env, n + |Attempts(c, env, notes[0], n)|, t + 1).effects, notes[1..], c, env)
    ensures CallsInOrder(Drain(c, notes, env, n, t).effects, notes, c, env)
  {
    var rest := Drain(c, notes[1..], env, n + |Attempts(c, env, notes[0], n)|, t + 1);
    DeliveredSteps(c, notes, env, n, t);
    CallsAfterHead(c, notes, env, n, t, rest.effects, Drain(c, notes, env, n, t).effects);
  }

  /** A drain that stops at its first note makes only that note's calls,
      in order. */
  lemma {:induction false} StoppedCallOrder(c: Credentials, notes: seq<PendingNote>, env: Env, n: nat, t: nat)
    requires DistinctIds(notes) && notes != [] && !Delivered(Attempts(c, env, notes[0], n))
    ensures CallsInOrder(Drain(c, notes, env, n, t).effects, notes, c, env)
  {
    DrainSteps(c, notes, env, n, t);
    CallsAfterHead(c, notes, env, n, t, [], Drain(c, notes, env, n, t).effects);
  }

  /** Both attempts upload the same content: the base64 of the note's UTF-8
      bytes, which decodes back to those bytes. */
  lemma {:induction false} AttemptContent(c: Credentials, env: Env, note: PendingNote)
    ensures PrimaryCall(c, env, note).path == "inbox/" + note.filename + ".md"
    ensures PrimaryCall(c, env, note).request.message == "Add note " + note.filename
    ensures RetryCall(c, env, note).path == "inbox/" + note.filename + "-1.md"
    ensures RetryCall(c, env, note).request.message == "Add note " + note.filename + "-1"
    ensures RetryCall(c, env, note).request.content == PrimaryCall(c, env, note).request.content
    ensures Decode(Standard, PrimaryCall(c, env, note).request.content) == Some(env.utf8(note.text))
    ensures '\n' !in PrimaryCall(c, env, note).request.content
  {
    DecodeEncode(Standard, env.utf8(note.text), true);
    EncodeHasNoLineFeed(Standard, env.utf8(note.text), true);
  }

  // ---------------------------------------------------------------- the loop

  /** The body of the `for` loop for the note at the head of the table,
      starting with the run's `n`-th remote call and `t`-th history insert:
      mark it uploading, make its attempts, then record and delete it, or
      mark it failed. */
  method UploadNote(c: Credentials, db: NoteDatabase, env: Env, note: PendingNote, n: nat, t: nat)
    returns (delivered: bool, steps: seq<Effect>, calls: nat)
    requires db.pending != [] && db.pending[0] == note && DistinctIds(db.pending)
    modifies db
    ensures calls == |Attempts(c, env, note, n)| && delivered == Delivered(Attempts(c, env, note, n))
    ensures steps == NoteSteps(c, env, note, n, t)
    ensures delivered ==> db.pending == old(db.pending)[1..] && db.history == old(db.history) + [Record(env, note, t)]
    ensures !delivered ==> db.pending == [note.(status := Failed)] + old(db.pending)[1..] && db.history == old(db.history)
  {
    HeadUpdates(db.pending);
    db.UpdateStatus(note.id, Uploading);
    steps := [MarkStatus(note.id, Uploading)];
    var primary := PrimaryCall(c, env, note);
    var response := env.remote(n, primary);
    steps := steps + [CreateFile(note.id, primary, response)];
    calls := 1;
    if response.IsHttp(422) {
      var retry := RetryCall(c, env, note);
      response := env.remote(n + 1, retry);
      steps := steps + [CreateFile(note.id, retry, response)];
      calls := 2;
    }
    assert steps == [MarkStatus(note.id, Uploading)] + Attempts(c, env, note, n);
    delivered := response.Ok?;
    if delivered {
      var record := Record(env, note, t);
      db.Insert(record);
      steps := steps + [RecordSubmission(record)];
      db.Delete(note.id);
      steps := steps + [DeleteNote(note.id)];
    } else {
      db.UpdateStatus(note.id, Failed);
      steps := steps + [MarkStatus(note.id, Failed)];
    }
  }

  /** One turn of the loop, seen from the drain it carries out: `spec` is
      what the whole run comes to, and after this note it is what the rest
      of the table comes to, or the run has stopped there. */
  method UploadNext(c: Credentials, db: NoteDatabase, env: Env, n: nat, t: nat,
                    ghost before: seq<Effect>, ghost spec: Run)
    returns (delivered: bool, steps: seq<Effect>, calls: nat)
    requires db.pending != [] && DistinctIds(db.pending)
    requires spec == Resume(db.history, before, Drain(c, db.pending, env, n, t))
    modifies db
    ensures delivered ==> db.pending == old(db.pending)[1..] && DistinctIds(db.pending)
    ensures delivered ==> spec == Resume(db.history, before + steps, Drain(c, db.pending, env, n + calls, t + 1))
    ensures !delivered ==> spec == Run(Retry, db.pending, db.history, before + steps)
  {
    delivered, steps, calls := UploadNote(c, db, env, db.pending[0], n, t);
    StepResumes(c, old(db.pending), env, n, t, old(db.history), before, spec, delivered, steps, calls, db.pending, db.history);
  }

  /** The `for` loop of `doWork` over the table it read, with credentials
      in hand: the run ends as `Drain` says. */
  method DrainTable(c: Credentials, db: NoteDatabase, env: Env) returns (result: WorkResult, effects: seq<Effect>)
    requires db.Valid()
    modifies db
    ensures Run(result, db.pending, db.history, effects) == Resume(old(db.history), [], Drain(c, old(db.pending), env, 0, 0))
  {
    var todo := db.GetAllPending();
    ghost var spec := Resume(db.history, [], Drain(c, todo, env, 0, 0));
    effects := [];
    var calls: nat := 0;
    var t: nat := 0;
    while todo != []
      invariant todo == db.pending && DistinctIds(todo)
      invariant spec == Resume(db.history, effects, Drain(c, todo, env, calls, t))
      decreases |todo|
    {
      var delivered, steps, used := UploadNext(c, db, env, calls, t, effects, spec);
      effects := effects + steps;
      if !delivered {
        return Retry, effects;
      }
      calls := calls + used;
      todo := todo[1..];
      t := t + 1;
    }
    assert db.history + [] == db.history && effects + [] == effects;
    return Success, effects;
  }

  /** `doWork`. The store is only read; the run changes the two tables and
      returns its result together with its trace. */
  method DoWork(auth: AuthManager.AuthManager, db: NoteDatabase, env: Env) returns (result: WorkResult, effects: seq<Effect>)
    requires db.Valid()
    modifies db
    ensures var run := Work(auth.AccessToken(), auth.RepoOwner(), auth.RepoName(), old(db.pending), env);
      result == run.result && effects == run.effects &&
      db.pending == run.pending && db.history == old(db.history) + run.history
    ensures auth.AccessToken().None? || auth.RepoOwner().None? || auth.RepoName().None? ==>
      result == Retry && effects == [] && db.pending == old(db.pending) && db.history == old(db.history)
    ensures auth.AccessToken().Some? && auth.RepoOwner().Some? && auth.RepoName().Some? && old(db.pending) == [] ==>
      result == Success && effects == [] && db.pending == [] && db.history == old(db.history)
  {
    var token := auth.AccessToken();
    if token.None? {
      return Retry, [];
    }
    var owner := auth.RepoOwner();
    if owner.None? {
      return Retry, [];
    }
    var repo := auth.RepoName();
    if repo.None? {
      return Retry, [];
    }
    var pending := db.GetAllPending();
    if pending == [] {
      return Success, [];
    }
    result, effects := DrainTable(Credentials(token.value, owner.value, repo.value), db, env);
  }
}
