/** `NoteViewModel`: the note-input screen. Finalized speech segments
    accumulate in `confirmedText`, partial results are shown behind them in
    voice mode, and `submit` hands the trimmed text to the repository.

    The speech recognizer, the repository and the clock formatter are
    outside the view model: the recognizer's callbacks and the repository's
    answers are method parameters, and the calls the view model makes on
    them are logged as `Call`s. Each coroutine runs here as straight-line
    steps. */
module NoteViewModel {
  import opened Wrappers
  import opened Text
  import LocalData

  datatype InputMode = Voice | Keyboard

  /** The recognizer's states, as the screen distinguishes them. */
  datatype ListeningState = Idle | Listening | Restarting

  /** A history row as the screen lists it. */
  datatype SubmissionItem = SubmissionItem(time: string, preview: string, success: bool)

  datatype NoteUiState = NoteUiState(
    noteText: string,
    topic: Option<string>,
    isTopicLoading: bool,
    isSubmitting: bool,
    submitSuccess: bool,
    submitQueued: bool,
    pendingCount: int,
    submissions: seq<SubmissionItem>,
    submitError: Option<string>,
    inputMode: InputMode,
    listeningState: ListeningState,
    speechAvailable: bool,
    permissionGranted: bool)

  const INITIAL_UI: NoteUiState :=
    NoteUiState("", None, false, false, false, false, 0, [], None, Voice, Idle, false, false)

  /** What a successful `submitNote` reports: sent now, or queued for the
      upload worker. */
  datatype SubmitResult = Sent | Queued

  /** The `Result` of `submitNote`: a report, or a failure. */
  datatype SubmitOutcome = Succeeded(result: SubmitResult) | SubmitFailed(message: string)

  /** A call made on the recognizer or the repository. */
  datatype Call = StartSpeech | StopSpeech | SubmitNote(text: string) | FetchTopic

  // ------------------------------------------------------------ speech text

  /** `confirmedText` after one more finalized segment: the segment alone,
      or joined to what was there by a single space. */
  function Appended(confirmed: string, segment: string): (r: string)
    ensures confirmed == "" ==> r == segment
    ensures confirmed != "" ==> |r| == |confirmed| + 1 + |segment|
    ensures confirmed != "" ==> r[..|confirmed|] == confirmed && r[|confirmed|] == ' ' && r[|confirmed| + 1..] == segment
  {
    if confirmed == "" then segment else confirmed + " " + segment
  }

  /** `confirmedText` after a series of finalized segments. */
  function Accumulated(confirmed: string, segments: seq<string>): string
    decreases |segments|
  {
    if segments == [] then confirmed
    else Accumulated(Appended(confirmed, segments[0]), segments[1..])
  }

  /** Starting from nothing, a series of segments whose first is not empty
      accumulates into the segments joined by single spaces. */
  lemma {:induction false} AccumulatedJoins(segments: seq<string>)
    requires segments != [] && segments[0] != ""
    ensures Accumulated("", segments) == Join(segments, ' ')
  {
    assert Accumulated("", segments) == Accumulated(segments[0], segments[1..]);
    if |segments| > 1 {
      AccumulatedOnto(segments[0], segments[1..]);
      assert [segments[0]] + segments[1..] == segments;
    }
  }

  /** The induction behind `AccumulatedJoins`: segments accumulated onto a
      non-empty text join it with them. */
  lemma {:induction false} AccumulatedOnto(confirmed: string, segments: seq<string>)
    requires confirmed != "" && segments != []
    ensures Accumulated(confirmed, segments) == Join([confirmed] + segments, ' ')
    decreases |segments|
  {
    var next := confirmed + " " + segments[0];
    var tail := segments[1..];
    assert Accumulated(confirmed, segments) == Accumulated(next, tail);
    assert ([confirmed] + segments)[1..] == segments;
    if tail == [] {
      assert segments[1..] == [];
    } else {
      AccumulatedOnto(next, tail);
      assert ([next] + tail)[1..] == tail;
      assert Join(segments, ' ') == segments[0] + " " + Join(tail, ' ');
    }
  }

  /** What voice mode shows while a segment is still being recognised. */
  function Display(confirmed: string, partial: string): (shown: string)
    ensures partial == "" ==> shown == confirmed
  {
    if confirmed == "" then partial
    else if partial == "" then confirmed
    else confirmed + " " + partial
  }

  /** The live display is what `confirmedText` becomes once the partial
      result is finalized as it stands. */
  lemma {:induction false} DisplayPreviewsSegment(confirmed: string, partial: string)
    requires partial != ""
    ensures Display(confirmed, partial) == Appended(confirmed, partial)
  {
  }

  // ----------------------------------------------------------------- submit

  /** The calls a submission that passed its guard makes, in order. */
  function SubmitCalls(text: string, outcome: SubmitOutcome, restart: bool): (calls: seq<Call>)
    ensures |calls| >= 2 && calls[..2] == [StopSpeech, SubmitNote(text)]
    ensures FetchTopic in calls <==> outcome == Succeeded(Sent)
    ensures StartSpeech in calls <==> outcome.Succeeded? && restart
  {
    [StopSpeech, SubmitNote(text)] +
    (if outcome == Succeeded(Sent) then [FetchTopic] else []) +
    (if outcome.Succeeded? && restart then [StartSpeech] else [])
  }

  class NoteViewModel {
    /** `_uiState.value`. */
    var ui: NoteUiState
    /** The finalized speech segments, joined. */
    var confirmedText: string
    /** Every call on the recognizer and the repository, in order. */
    var calls: seq<Call>

    /** `init`: the recognizer's availability is recorded and the topic
        is fetched. */
    constructor (speechAvailable: bool)
      ensures ui == INITIAL_UI.(speechAvailable := speechAvailable, isTopicLoading := true)
      ensures confirmedText == "" && calls == [FetchTopic]
    {
      ui := INITIAL_UI.(speechAvailable := speechAvailable);
      confirmedText := "";
      calls := [];
      new;
      StartTopicFetch();
    }

    /** The first half of `fetchTopic()`. */
    method StartTopicFetch()
      modifies this
      ensures ui == old(ui).(isTopicLoading := true)
      ensures calls == old(calls) + [FetchTopic] && confirmedText == old(confirmedText)
    {
      ui := ui.(isTopicLoading := true);
      calls := calls + [FetchTopic];
    }

    /** The second half of `fetchTopic()`, with what `fetchCurrentTopic`
        answered. */
    method OnTopicFetched(topic: Option<string>)
      modifies this
      ensures ui == old(ui).(topic := topic, isTopicLoading := false)
      ensures calls == old(calls) && confirmedText == old(confirmedText)
    {
      ui := ui.(topic := topic, isTopicLoading := false);
    }

    /** `onSegmentFinalized`: the segment is added and the text mirrors it. */
    method OnSegmentFinalized(segment: string)
      modifies this
      ensures confirmedText == Appended(old(confirmedText), segment)
      ensures ui == old(ui).(noteText := confirmedText) && calls == old(calls)
    {
      confirmedText := if confirmedText == "" then segment else confirmedText + " " + segment;
      ui := ui.(noteText := confirmedText);
    }

    /** `onError`: the recognizer stops and its message is shown. */
    method OnSpeechError(message: string)
      modifies this
      ensures ui == old(ui).(listeningState := Idle, submitError := Some(message))
      ensures confirmedText == old(confirmedText) && calls == old(calls)
    {
      ui := ui.(listeningState := Idle, submitError := Some(message));
    }

    /** One value of `recentSubmissions`, with `format` rendering a
        timestamp as `h:mm a` in the device's zone. */
    method OnSubmissions(entities: seq<LocalData.SubmissionRecord>, format: int -> string)
      modifies this
      ensures |ui.submissions| == |entities|
      ensures forall i :: 0 <= i < |entities| ==>
        ui.submissions[i] == SubmissionItem(format(entities[i].timestamp), entities[i].preview, entities[i].success)
      ensures ui == old(ui).(submissions := ui.submissions)
      ensures confirmedText == old(confirmedText) && calls == old(calls)
    {
      var items: seq<SubmissionItem> := [];
      var i := 0;
      while i < |entities|
        invariant 0 <= i <= |entities| && |items| == i
        invariant forall k :: 0 <= k < i ==>
          items[k] == SubmissionItem(format(entities[k].timestamp), entities[k].preview, entities[k].success)
      {
        var e := entities[i];
        items := items + [SubmissionItem(format(e.timestamp), e.preview, e.success)];
        i := i + 1;
      }
      ui := ui.(submissions := items);
    }

    /** One value of `pendingCount`. */
    method OnPendingCount(count: int)
      modifies this
      ensures ui == old(ui).(pendingCount := count)
      ensures confirmedText == old(confirmedText) && calls == old(calls)
    {
      ui := ui.(pendingCount := count);
    }

    /** One value of the recognizer's `listeningState`. */
    method OnListeningState(state: ListeningState)
      modifies this
      ensures ui == old(ui).(listeningState := state)
      ensures confirmedText == old(confirmedText) && calls == old(calls)
    {
      ui := ui.(listeningState := state);
    }

    /** One value of the recognizer's `partialText`: shown behind the
        confirmed text in voice mode, ignored in keyboard mode. */
    method OnPartialText(partial: string)
      modifies this
      ensures old(ui).inputMode == Voice ==> ui == old(ui).(noteText := Display(confirmedText, partial))
      ensures old(ui).inputMode == Keyboard ==> ui == old(ui)
      ensures confirmedText == old(confirmedText) && calls == old(calls)
    {
      if ui.inputMode == Voice {
        var display := if confirmedText == "" then partial
          else if partial == "" then confirmedText
          else confirmedText + " " + partial;
        ui := ui.(noteText := display);
      }
    }

    /** `startVoiceInput()`: only with the permission and a recognizer;
        the confirmed text restarts from what is in the field. */
    method StartVoiceInput()
      modifies this
      ensures !old(ui).permissionGranted || !old(ui).speechAvailable ==>
        ui == old(ui) && confirmedText == old(confirmedText) && calls == old(calls)
      ensures old(ui).permissionGranted && old(ui).speechAvailable ==>
        && confirmedText == Trim(old(ui).noteText)
        && ui == old(ui).(inputMode := Voice)
        && calls == old(calls) + [StartSpeech]
    {
      if !ui.permissionGranted || !ui.speechAvailable {
        return;
      }
      confirmedText := Trim(ui.noteText);
      ui := ui.(inputMode := Voice);
      calls := calls + [StartSpeech];
    }

    /** `onPermissionResult(granted)`: voice input starts when it can,
        otherwise the keyboard takes over. */
    method OnPermissionResult(granted: bool)
      modifies this
      ensures ui.permissionGranted == granted
      ensures granted && old(ui).speechAvailable ==>
        && ui == old(ui).(permissionGranted := true, inputMode := Voice)
        && confirmedText == Trim(old(ui).noteText) && calls == old(calls) + [StartSpeech]
      ensures !(granted && old(ui).speechAvailable) ==>
        && ui == old(ui).(permissionGranted := granted, inputMode := Keyboard)
        && confirmedText == old(confirmedText) && calls == old(calls)
    {
      ui := ui.(permissionGranted := granted);
      if granted && ui.speechAvailable {
        StartVoiceInput();
      } else {
        ui := ui.(inputMode := Keyboard);
      }
    }

    /** `switchToKeyboard()`: the recognizer stops and the field keeps its
        text, which the confirmed text now follows. */
    method SwitchToKeyboard()
      modifies this
      ensures ui == old(ui).(inputMode := Keyboard)
      ensures confirmedText == Trim(old(ui).noteText) && calls == old(calls) + [StopSpeech]
    {
      calls := calls + [StopSpeech];
      confirmedText := Trim(ui.noteText);
      ui := ui.(inputMode := Keyboard);
    }

    /** `stopVoiceInput()`. */
    method StopVoiceInput()
      modifies this
      ensures ui == old(ui) && confirmedText == old(confirmedText) && calls == old(calls) + [StopSpeech]
    {
      calls := calls + [StopSpeech];
    }

    /** `clearSubmitSuccess()`. */
    method ClearSubmitSuccess()
      modifies this
      ensures ui == old(ui).(submitSuccess := false)
      ensures confirmedText == old(confirmedText) && calls == old(calls)
    {
      ui := ui.(submitSuccess := false);
    }

    /** `clearSubmitQueued()`. */
    method ClearSubmitQueued()
      modifies this
      ensures ui == old(ui).(submitQueued := false)
      ensures confirmedText == old(confirmedText) && calls == old(calls)
    {
      ui := ui.(submitQueued := false);
    }

    /** `updateNoteText(text)`: typing always clears the error; in keyboard
        mode the confirmed text follows the field. */
    method UpdateNoteText(text: string)
      modifies this
      ensures ui == old(ui).(noteText := text, submitError := None) && calls == old(calls)
      ensures old(ui).inputMode == Keyboard ==> confirmedText == Trim(text)
      ensures old(ui).inputMode == Voice ==> confirmedText == old(confirmedText)
    {
      ui := ui.(noteText := text, submitError := None);
      if ui.inputMode == Keyboard {
        confirmedText := Trim(text);
      }
    }

    /** `submit()`, with `outcome` what `submitNote` returned. Blank text or
        a submission in flight makes it do nothing. A failed submission
        changes nothing after the start of the coroutine, so the screen
        stays submitting. */
    method Submit(outcome: SubmitOutcome)
      modifies this
      ensures Trim(old(ui).noteText) == "" || old(ui).isSubmitting ==>
        ui == old(ui) && confirmedText == old(confirmedText) && calls == old(calls)
      ensures Trim(old(ui).noteText) != "" && !old(ui).isSubmitting ==>
        calls == old(calls) + SubmitCalls(Trim(old(ui).noteText), outcome,
                                          old(ui).inputMode == Voice && old(ui).permissionGranted && old(ui).speechAvailable)
      ensures Trim(old(ui).noteText) != "" && !old(ui).isSubmitting && outcome.SubmitFailed? ==>
        ui == old(ui).(isSubmitting := true, submitError := None) && confirmedText == old(confirmedText)
      ensures Trim(old(ui).noteText) != "" && !old(ui).isSubmitting && outcome == Succeeded(Sent) ==>
        && ui == old(ui).(noteText := "", isSubmitting := false, submitSuccess := true, submitError := None,
                          isTopicLoading := true)
        && confirmedText == ""
      ensures Trim(old(ui).noteText) != "" && !old(ui).isSubmitting && outcome == Succeeded(Queued) ==>
        && ui == old(ui).(noteText := "", isSubmitting := false, submitQueued := true, submitError := None)
        && confirmedText == ""
    {
      var text := Trim(ui.noteText);
      if text == "" || ui.isSubmitting {
        return;
      }
      var wasVoice := ui.inputMode == Voice;
      StartSubmission(text);
      if outcome.Succeeded? {
        OnSubmitted(outcome.result, wasVoice);
      }
    }

    /** The steps of `submit()` up to the answer of `submitNote`: the
        recognizer stops, the screen shows the submission in flight, and
        the text is handed to the repository. */
    method StartSubmission(text: string)
      modifies this
      ensures ui == old(ui).(isSubmitting := true, submitError := None)
      ensures confirmedText == old(confirmedText) && calls == old(calls) + [StopSpeech, SubmitNote(text)]
    {
      calls := calls + [StopSpeech];
      ui := ui.(isSubmitting := true, submitError := None);
      calls := calls + [SubmitNote(text)];
    }

    /** The `onSuccess` block of `submit()`: the text is cleared, the topic
        is fetched again after a sent note, and a recognizer that was
        listening before the submission starts again. */
    method OnSubmitted(result: SubmitResult, wasVoice: bool)
      modifies this
      ensures confirmedText == ""
      ensures var restart := wasVoice && old(ui).permissionGranted && old(ui).speechAvailable;
        calls == old(calls) + (if result == Sent then [FetchTopic] else []) + (if restart then [StartSpeech] else [])
      ensures var mode := if wasVoice && old(ui).permissionGranted && old(ui).speechAvailable then Voice else old(ui).inputMode;
        result == Sent ==>
          ui == old(ui).(noteText := "", isSubmitting := false, submitSuccess := true, isTopicLoading := true, inputMode := mode)
      ensures var mode := if wasVoice && old(ui).permissionGranted && old(ui).speechAvailable then Voice else old(ui).inputMode;
        result == Queued ==>
          ui == old(ui).(noteText := "", isSubmitting := false, submitQueued := true, inputMode := mode)
    {
      confirmedText := "";
      match result {
        case Sent =>
          StartTopicFetch();
          ui := ui.(noteText := "", isSubmitting := false, submitSuccess := true);
        case Queued =>
          ui := ui.(noteText := "", isSubmitting := false, submitQueued := true);
      }
      if wasVoice && ui.permissionGranted && ui.speechAvailable {
        ui := ui.(inputMode := Voice);
        calls := calls + [StartSpeech];
      }
    }
  }
}
