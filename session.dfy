/** The Analyzer component's session state and its handlers: editing the
    text or the file, switching tabs, resetting, and the analyze flow with
    validation, the progress timer, completion and failure. The timer's
    ticks and the backend's completion or failure are explicit events. */
module Session {
  import opened Wrappers
  import opened JsText
  import opened Scoring

  /** The browser File the drop zone hands over; only its presence matters here. */
  datatype FileInfo = FileInfo(name: string, size: nat, mimeType: string)

  /** The progress labels shown while an analysis runs. */
  const Steps: seq<string> := [
    "Sending to analysis server...", "Cross-referencing fraud database...",
    "Running AI pattern analysis...", "Generating risk report..."]

  /** The index of the last progress label. */
  const LastStep := |Steps| - 1

  /** The timer's update `p => p < STEPS.length - 1 ? p + 1 : p`: one step
      forward, but never past the last label. */
  function NextStep(p: int): (q: int)
    ensures p <= q
    ensures p < LastStep ==> q == p + 1
    ensures p >= LastStep ==> q == p
  {
    if p < LastStep then p + 1 else p
  }

  /** The step after n ticks from p. */
  function StepAfter(p: int, n: nat): int
    decreases n
  {
    if n == 0 then p else StepAfter(NextStep(p), n - 1)
  }

  /** From any step on the progress list, n ticks advance by n but stop at
      the last label: the step never decreases and never passes 3. */
  lemma {:induction false} StepAfterTicks(p: int, n: nat)
    requires 0 <= p <= LastStep
    ensures StepAfter(p, n) == Min(p + n, LastStep)
    ensures p <= StepAfter(p, n) <= LastStep
    decreases n
  {
    if n > 0 {
      StepAfterTicks(NextStep(p), n - 1);
    }
  }

  /** More ticks never show an earlier step. */
  lemma StepAfterMonotone(p: int, n: nat, m: nat)
    requires 0 <= p <= LastStep && n <= m
    ensures StepAfter(p, n) <= StepAfter(p, m)
  {
    StepAfterTicks(p, n);
    StepAfterTicks(p, m);
  }

  /** What validate can object to: an empty or whitespace-only text on the
      text tab, a missing file on the video and audio tabs. */
  datatype Objection = EmptyInput | MissingFile(tab: Tab)

  /** The objection to submitting, if any: on the text tab a blank text,
      on the other tabs a missing file; nothing else is checked. */
  function Check(tab: Tab, text: string, file: Option<FileInfo>): (o: Option<Objection>)
    ensures o.Some? ==> o.value == if tab == TextTab then EmptyInput else MissingFile(tab)
    ensures o.None? <==> if tab == TextTab then !IsBlank(text) else file.Some?
  {
    if tab == TextTab && IsBlank(text) then Some(EmptyInput)
    else if tab != TextTab && file.None? then Some(MissingFile(tab))
    else None
  }

  /** Validation in terms of the characters: a submission is accepted
      exactly when, on the text tab, the text holds a character that is not
      whitespace, and on the other tabs a file is attached; a text of
      whitespace only is refused as empty input. */
  lemma CheckAcceptsIff(tab: Tab, text: string, file: Option<FileInfo>)
    ensures Check(tab, text, file).None? <==>
      if tab == TextTab then exists i :: 0 <= i < |text| && !IsWhitespace(text[i])
      else file.Some?
    ensures Check(tab, text, file) == Some(EmptyInput) <==> tab == TextTab && AllWhitespace(text)
  {
  }

  /** The warning shown for an objection; it is never empty, so the UI
      always displays it. */
  function WarningText(o: Objection): (w: string)
    ensures w != ""
    ensures o.MissingFile? ==> w == "Please upload a " + TabId(o.tab) + " file before analyzing."
  {
    match o
    case EmptyInput => "Please paste or type a message before analyzing."
    case MissingFile(tab) => "Please upload a " + TabId(tab) + " file before analyzing."
  }

  /** The unreachable-server text. It is written as three pieces so that the
      verifier can see, piece by piece, that it holds no 'f' (and so does
      not mention "fetch"); as one long literal that check does not fit its
      resource budget. */
  const ServerUnreachable := "Cannot reach server. " + "Is Django running " + "on localhost:8000?"

  /** The text of a failed run: the fixed unreachable-server text when the
      message mentions "fetch", otherwise the message itself (an error
      without a message shows nothing). */
  function ErrorText(message: Option<string>): (e: string)
    ensures message.Some? && Includes(message.value, "fetch") ==> e == ServerUnreachable
    ensures message.Some? && !Includes(message.value, "fetch") ==> e == message.value
    ensures message.None? ==> e == ""
  {
    match message
    case Some(m) => if Includes(m, "fetch") then ServerUnreachable else m
    case None => ""
  }

  /** Classifying the text a failure shows gives that text back: the
      unreachable-server text does not itself mention "fetch". */
  lemma ErrorTextStable(message: Option<string>)
    ensures ErrorText(Some(ErrorText(message))) == ErrorText(message)
  {
    ExcludedByChar(ServerUnreachable, "fetch", 'f');
  }

  /** A failure shows no text exactly when it carries no message, or an
      empty one. */
  lemma ErrorTextEmptyIff(message: Option<string>)
    ensures ErrorText(message) == "" <==> message.None? || message.value == ""
  {
    if message.Some? && message.value == "" {
      ExcludedByChar("", "fetch", 'f');
    }
  }

  /** The Analyzer's state. `runTab` and `runText` are the tab and text the
      pending analyze call handed to runAnalysis; later edits do not change
      what that call computes. */
  class Analyzer {
    var text: string
    var tab: Tab
    var loading: bool
    var step: int
    var results: Option<AnalysisResult>
    var file: Option<FileInfo>
    var warn: string
    var err: string
    var runTab: Tab
    var runText: string

    /** While a run is in flight the step is on the progress list and there
        is no result; a result is only there once a run has completed, and
        then it honours the result contract. */
    ghost predicate Valid()
      reads this
    {
      0 <= step <= |Steps|
      && (loading ==> step <= LastStep && results.None?)
      && (results.Some? ==> !loading && step == |Steps| && WellFormed(results.value))
    }

    /** The initial state of every useState hook. */
    constructor ()
      ensures Valid()
      ensures text == "" && tab == TextTab && !loading && step == 0
      ensures results.None? && file.None? && warn == "" && err == ""
    {
      text, tab, loading, step := "", TextTab, false, 0;
      results, file, warn, err := None, None, "", "";
      runTab, runText := TextTab, "";
    }

    /** The textarea's onChange: new text, warning and error dismissed. */
    method EditText(t: string)
      requires Valid()
      modifies this`text, this`warn, this`err
      ensures Valid()
      ensures text == t && warn == "" && err == ""
    {
      text, warn, err := t, "", "";
    }

    /** The drop zone's onFile: a picked (Some) or removed (None) file,
        warning and error dismissed. */
    method ChooseFile(f: Option<FileInfo>)
      requires Valid()
      modifies this`file, this`warn, this`err
      ensures Valid()
      ensures file == f && warn == "" && err == ""
    {
      file, warn, err := f, "", "";
    }

    /** The error's Dismiss button. */
    method DismissError()
      requires Valid()
      modifies this`err
      ensures Valid() && err == ""
    {
      err := "";
    }

    /** reset: clears the result, the input and the messages. It does not
        touch the tab, and it does not stop a run in flight: loading, step
        and the pending call are left as they are. */
    method Reset()
      requires Valid()
      modifies this`results, this`text, this`file, this`warn, this`err
      ensures Valid()
      ensures results.None? && text == "" && file.None? && warn == "" && err == ""
    {
      results, text, file, warn, err := None, "", None, "", "";
    }

    /** switchTab: select the tab, then reset. */
    method SwitchTab(id: Tab)
      requires Valid()
      modifies this`tab, this`results, this`text, this`file, this`warn, this`err
      ensures Valid()
      ensures tab == id
      ensures results.None? && text == "" && file.None? && warn == "" && err == ""
    {
      tab := id;
      Reset();
    }

    /** validate: on an objection set the warning and fail, otherwise clear
        the warning and succeed. */
    method Validate() returns (ok: bool)
      requires Valid()
      modifies this`warn
      ensures Valid()
      ensures ok <==> Check(tab, text, file).None?
      ensures warn == if ok then "" else WarningText(Check(tab, text, file).value)
    {
      var o := Check(tab, text, file);
      if o.Some? {
        warn := WarningText(o.value);
        return false;
      }
      warn := "";
      return true;
    }

    /** The synchronous part of analyze. The button is disabled while
        loading, so no run is in flight. A submission that fails
        validation changes nothing but the warning; one that passes starts
        a run at step 0 with no result and no error, and hands the current
        tab and text to runAnalysis. */
    method Analyze() returns (started: bool)
      requires Valid() && !loading
      modifies this`warn, this`loading, this`results, this`err, this`step, this`runTab, this`runText
      ensures Valid()
      ensures started <==> Check(tab, text, file).None?
      ensures warn == if started then "" else WarningText(Check(tab, text, file).value)
      ensures text == old(text) && tab == old(tab) && file == old(file)
      ensures !started ==> loading == old(loading) && results == old(results)
                           && step == old(step) && err == old(err)
                           && runTab == old(runTab) && runText == old(runText)
      ensures started ==> loading && results.None? && err == "" && step == 0
                          && runTab == tab && runText == text
    {
      started := Validate();
      if started {
        Start();
      }
    }

    /** The setters analyze runs once validation has passed: loading, no
        result, no error, the first step, and the pending call's input. */
    method Start()
      requires Valid()
      modifies this`loading, this`results, this`err, this`step, this`runTab, this`runText
      ensures Valid()
      ensures loading && results.None? && err == "" && step == 0
      ensures runTab == tab && runText == text
    {
      loading, results, err, step := true, None, "", 0;
      runTab, runText := tab, text;
    }

    /** One firing of the 750 ms progress interval, which runs only while
        loading. */
    method Tick()
      requires Valid() && loading
      modifies this`step
      ensures Valid()
      ensures step == NextStep(old(step))
    {
      step := if step < LastStep then step + 1 else step;
    }

    /** runAnalysis resolved: stop the timer, move the step past the last
        label, store the result computed from the submitted tab and text,
        and stop loading. */
    method Complete(mediaRoll: int, jitter: int)
      requires Valid() && loading
      requires 0 <= jitter < JitterRange
      requires runTab != TextTab ==> 0 <= mediaRoll < MediaRollRange
      modifies this`step, this`results, this`loading
      ensures Valid()
      ensures step == |Steps| && !loading
      ensures results == Some(RunAnalysis(runTab, runText, mediaRoll, jitter))
    {
      var data := RunAnalysis(runTab, runText, mediaRoll, jitter);
      step := |Steps|;
      results := Some(data);
      loading := false;
    }

    /** runAnalysis rejected: stop the timer, show the classified error and
        stop loading. No result is stored and the step stays where the
        timer left it. */
    method Fail(message: Option<string>)
      requires Valid() && loading
      modifies this`err, this`loading
      ensures Valid()
      ensures err == ErrorText(message) && !loading && results.None?
    {
      err := ErrorText(message);
      loading := false;
    }
  }

  /** A text-tab session up to the backend's answer: type the message and
      press analyze. A blank message is refused with the empty-input
      warning and nothing runs. Any other message starts a run for exactly
      that text; four firings of the timer then show every progress step,
      and the run is still waiting for the backend. */
  method TextSession(message: string) returns (started: bool, warn: string, step: int, pendingText: string)
    ensures started <==> !IsBlank(message)
    ensures !started ==> warn == WarningText(EmptyInput) && step == 0
    ensures started ==> warn == "" && step == LastStep && pendingText == message
  {
    var a := new Analyzer();
    a.EditText(message);
    assert a.tab == TextTab && a.text == message && !a.loading;
    started := a.Analyze();
    warn, step, pendingText := a.warn, a.step, a.runText;
    if started {
      assert a.step == 0 && a.loading;
      a.Tick();
      a.Tick();
      a.Tick();
      a.Tick();
      step := a.step;
    }
  }

  /** Pressing analyze with nothing to analyze: on every tab of a fresh
      session the run is refused with a non-empty warning. */
  method EmptySubmission(tab: Tab) returns (started: bool, warn: string, loading: bool)
    ensures !started && warn != "" && !loading
    ensures warn == WarningText(if tab == TextTab then EmptyInput else MissingFile(tab))
  {
    var a := new Analyzer();
    a.SwitchTab(tab);
    started := a.Analyze();
    warn, loading := a.warn, a.loading;
  }

  /** Reset while a run is in flight does not cancel it. The only control
      that resets mid-run is a tab button (the button that starts over sits
      in the results card, and there is no result while loading), so this
      is the user clicking the tab already selected: loading carries on and
      the pending call still analyzes the submitted text, although the text
      field has been cleared. */
  method ResetDuringRun(message: string) returns (started: bool, loadingAfterReset: bool, textAfterReset: string, pendingText: string)
    ensures started <==> !IsBlank(message)
    ensures textAfterReset == ""
    ensures started ==> loadingAfterReset && pendingText == message
  {
    var a := new Analyzer();
    a.EditText(message);
    assert a.tab == TextTab && a.text == message && !a.loading;
    started := a.Analyze();
    assert started <==> !IsBlank(message);
    if started {
      a.Tick();
    }
    assert started ==> a.loading && a.runText == message;
    a.SwitchTab(TextTab);
    loadingAfterReset, textAfterReset, pendingText := a.loading, a.text, a.runText;
  }

  /** Switching tab while a run is in flight: the timer keeps advancing the
      step, and when the pending call resolves its result, computed from
      the tab and text submitted before the switch, is stored on the new,
      cleared tab. */
  method SwitchTabThenResolve(a: Analyzer, id: Tab, mediaRoll: int, jitter: int)
    requires a.Valid() && a.loading
    requires 0 <= jitter < JitterRange
    requires a.runTab != TextTab ==> 0 <= mediaRoll < MediaRollRange
    modifies a
    ensures a.Valid()
    ensures a.tab == id && a.text == "" && a.file.None? && !a.loading && a.step == |Steps|
    ensures a.results == Some(RunAnalysis(old(a.runTab), old(a.runText), mediaRoll, jitter))
  {
    a.SwitchTab(id);
    a.Tick();
    a.Complete(mediaRoll, jitter);
  }
}
