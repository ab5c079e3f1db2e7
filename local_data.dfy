/** The Room database behind `PendingNoteDao` and `SubmissionDao`: the
    pending-note table and the submission-history table, each an ordered
    sequence of rows. `getAllPending` returns the pending rows in the order
    they are held here. */
module LocalData {

  /** The `status` column of a pending note: "pending", "uploading" or "failed". */
  datatype NoteStatus = Pending | Uploading | Failed

  /** A row of the pending-note table. `id` is the primary key. */
  datatype PendingNote = PendingNote(id: int, text: string, filename: string, status: NoteStatus)

  /** `SubmissionEntity`: when, the first characters of the text, and whether it arrived. */
  datatype SubmissionRecord = SubmissionRecord(timestamp: int, preview: string, success: bool)

  /** The primary-key constraint of the pending table. */
  ghost predicate DistinctIds(notes: seq<PendingNote>) {
    forall i, j :: 0 <= i < j < |notes| ==> notes[i].id != notes[j].id
  }

  /** `UPDATE ... SET status = :status WHERE id = :id`: the row with that
      key gets the new status, every other row is left as it was. */
  function WithStatus(notes: seq<PendingNote>, id: int, status: NoteStatus): (r: seq<PendingNote>)
    ensures |r| == |notes|
    ensures forall i :: 0 <= i < |notes| && notes[i].id == id ==> r[i] == notes[i].(status := status)
    ensures forall i :: 0 <= i < |notes| && notes[i].id != id ==> r[i] == notes[i]
  {
    if notes == [] then []
    else [if notes[0].id == id then notes[0].(status := status) else notes[0]] + WithStatus(notes[1..], id, status)
  }

  /** `DELETE ... WHERE id = :id`: every row with that key goes, the others
      stay in their order. */
  function Without(notes: seq<PendingNote>, id: int): (r: seq<PendingNote>)
    ensures |r| <= |notes|
    ensures forall i :: 0 <= i < |r| ==> r[i].id != id
  {
    if notes == [] then []
    else if notes[0].id == id then Without(notes[1..], id)
    else [notes[0]] + Without(notes[1..], id)
  }

  /** Deleting the row at position `k` under a primary key removes exactly
      that row and keeps the order of the rest. */
  lemma {:induction false} WithoutAt(notes: seq<PendingNote>, k: nat)
    requires DistinctIds(notes) && k < |notes|
    ensures Without(notes, notes[k].id) == notes[..k] + notes[k + 1..]
  {
    var tail := notes[1..];
    DistinctSuffix(notes, 1);
    if k == 0 {
      forall i | 0 <= i < |tail| ensures tail[i].id != notes[0].id {
        assert tail[i] == notes[i + 1];
      }
      WithoutAbsent(tail, notes[0].id);
    } else {
      assert tail[k - 1] == notes[k];
      WithoutAt(tail, k - 1);
      assert notes[0].id != notes[k].id;
      assert tail[..k - 1] == notes[1..k] && tail[k..] == notes[k + 1..];
      assert notes[..k] == [notes[0]] + notes[1..k];
    }
  }

  /** Every suffix of a keyed table is keyed. */
  lemma {:induction false} DistinctSuffix(notes: seq<PendingNote>, k: nat)
    requires DistinctIds(notes) && k <= |notes|
    ensures DistinctIds(notes[k..])
  {
    var tail := notes[k..];
    forall i, j | 0 <= i < j < |tail| ensures tail[i].id != tail[j].id {
      assert tail[i] == notes[k + i] && tail[j] == notes[k + j];
    }
  }

  /** Deleting a key no row carries changes nothing. */
  lemma {:induction false} WithoutAbsent(notes: seq<PendingNote>, id: int)
    requires forall i :: 0 <= i < |notes| ==> notes[i].id != id
    ensures Without(notes, id) == notes
  {
    if notes != [] {
      WithoutAbsent(notes[1..], id);
    }
  }

  /** The status update of the first row under a primary key touches that
      row only. */
  lemma {:induction false} WithStatusHead(notes: seq<PendingNote>, status: NoteStatus)
    requires DistinctIds(notes) && notes != []
    ensures WithStatus(notes, notes[0].id, status) == [notes[0].(status := status)] + notes[1..]
  {
    var r := WithStatus(notes, notes[0].id, status);
    assert forall i :: 0 < i < |notes| ==> r[i] == notes[i];
  }

  class NoteDatabase {
    /** The pending-note table, in `getAllPending` order. */
    var pending: seq<PendingNote>
    /** The submission-history table, in insertion order. */
    var history: seq<SubmissionRecord>

    ghost predicate Valid()
      reads this
    {
      DistinctIds(pending)
    }

    constructor (pending: seq<PendingNote>, history: seq<SubmissionRecord>)
      requires DistinctIds(pending)
      ensures this.pending == pending && this.history == history
      ensures Valid()
    {
      this.pending := pending;
      this.history := history;
    }

    /** `PendingNoteDao.getAllPending`. */
    method GetAllPending() returns (notes: seq<PendingNote>)
      ensures notes == pending
    {
      notes := pending;
    }

    /** `PendingNoteDao.updateStatus`. */
    method UpdateStatus(id: int, status: NoteStatus)
      modifies this
      ensures pending == WithStatus(old(pending), id, status)
      ensures history == old(history)
      ensures old(Valid()) ==> Valid()
    {
      pending := WithStatus(pending, id, status);
    }

    /** `PendingNoteDao.delete`. */
    method Delete(id: int)
      modifies this
      ensures pending == Without(old(pending), id)
      ensures history == old(history)
    {
      pending := Without(pending, id);
    }

    /** `SubmissionDao.insert`: the record is appended. */
    method Insert(record: SubmissionRecord)
      modifies this
      ensures history == old(history) + [record]
      ensures pending == old(pending)
    {
      history := history + [record];
    }

    /** `PendingNoteDao.deleteAll`. */
    method DeleteAllPending()
      modifies this
      ensures pending == [] && history == old(history)
    {
      pending := [];
    }

    /** `SubmissionDao.deleteAll`. */
    method DeleteAllSubmissions()
      modifies this
      ensures history == [] && pending == old(pending)
    {
      history := [];
    }
  }
}
