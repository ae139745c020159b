/**
 * VoiceImeView: the dictation panel of the input method. It holds the session
 * state, the current recognizer and the speech kit, reacts to the mic, go and
 * keyboard buttons, to swipes, and to the recognizer's callbacks, and keeps
 * its five child views up to date. UI posts are taken to apply at once, in
 * program order; calls on the SDK and on the listener are recorded in a trace.
 */
module VoiceIme {
  import opened Wrappers
  import opened Display
  import opened EditorInfos
  import opened Sessions

  /** Constants.State, also the face the mic button shows. */
  datatype State = Init | Recording | Transcribing | Error

  /** The string resource the instruction label shows; LayoutDefault is the text the layout gives it. */
  datatype Instruction =
    | LayoutDefault
    | ButtonImeSpeak
    | ButtonImeStop
    | StatusImeTranscribing
    | ErrorImeResultNetworkError

  /** What the child views show: instruction label, message label, mic button face, and whether the keyboard and go buttons are visible. */
  datatype Screen = Screen(instruction: Instruction, message: string, mic: State, keyboardVisible: bool, goVisible: bool)

  /** The exception handed to onError: whether it is an UnknownHostException, and its message (possibly null). */
  datatype RecognizerError = RecognizerError(unknownHost: bool, message: Option<string>)

  /** What `setInitState` makes the child views show. */
  function InitScreen(s: Screen): Screen {
    s.(mic := Init, instruction := ButtonImeSpeak, keyboardVisible := true, goVisible := true)
  }

  class VoiceImeView {
    var state: State                  // mState
    var recognizer: Option<Handle>    // mCurrentRecognizer
    var created: nat                  // recognizers created so far
    var trace: seq<Event>             // calls made on the SDK and on the listener
    var speechKit: bool               // mSpeechKit != null
    var bound: bool                   // setListener has run: mListener and the child views are set

    var instruction: Instruction      // mTvInstruction
    var message: string               // mTvMessage
    var mic: State                    // mBImeStartStop
    var keyboardVisible: bool         // mBImeKeyboard
    var goVisible: bool               // mBImeGo

    function Recognition(): Sessions.Session
      reads this
    {
      Sessions.Session(recognizer, created, trace)
    }

    function Ui(): Screen
      reads this
    {
      Screen(instruction, message, mic, keyboardVisible, goVisible)
    }

    /** No recognizer is leaked, and a speech kit or a recognizer exists only once setListener has run. */
    ghost predicate Valid()
      reads this
    {
      && Sound(Recognition())
      && (speechKit ==> bound)
      && (created > 0 ==> bound)
    }

    /** The effect of `startSession`: the recognizer part as Started says, nothing else changed. */
    twostate predicate StartedSession()
      reads this
    {
      && Recognition() == Started(old(speechKit), old(Recognition()))
      && state == old(state) && Ui() == old(Ui())
      && speechKit == old(speechKit) && bound == old(bound)
    }

    /** The effect of `setInitState`: state INIT; the mic face, instruction and buttons reset when the views are there. */
    twostate predicate InitStateSet()
      reads this
    {
      && state == Init
      && Ui() == (if old(bound) then InitScreen(old(Ui())) else old(Ui()))
    }

    /** The effect of `closeSession`: the recognizer part as Closed says, then `setInitState`. */
    twostate predicate ClosedSession()
      reads this
    {
      && Recognition() == Closed(old(Recognition()))
      && InitStateSet()
      && speechKit == old(speechKit) && bound == old(bound)
    }

    /** Only `events` were emitted; the state and the recognizer are as they were. */
    twostate predicate Emitted(events: seq<Event>)
      reads this
    {
      && recognizer == old(recognizer) && created == old(created) && trace == old(trace) + events
      && state == old(state) && speechKit == old(speechKit) && bound == old(bound)
    }

    /** The constructor: state INIT, no recognizer, no speech kit, no listener yet. */
    constructor ()
      ensures Valid()
      ensures state == Init && Recognition() == Sessions.Session(None, 0, []) && !speechKit && !bound
      ensures Ui() == Screen(LayoutDefault, "", Init, true, true)
    {
      state := Init;
      recognizer := None;
      created := 0;
      trace := [];
      speechKit := false;
      bound := false;
      instruction := LayoutDefault;
      message := "";
      mic := Init;
      keyboardVisible := true;
      goVisible := true;
    }

    /**
     * `setListener`: installs the listener and the click handlers, resets the
     * labels and buttons, initialises the speech kit with the editor's
     * metadata (`kitAvailable` says whether it came back non-null), and starts
     * a session when the auto-start preference `autoStart` is set.
     */
    method SetListener(attribute: EditorInfo, kitAvailable: bool, autoStart: bool)
      requires Valid()
      modifies this
      ensures Valid()
      ensures bound && speechKit == kitAvailable && state == old(state)
      ensures Ui() == old(Ui()).(instruction := ButtonImeSpeak, message := "", keyboardVisible := true, goVisible := true)
      ensures var initialized := old(Recognition()).(trace := old(trace) + [Initialize(SetEditorInfo(attribute))]);
              Recognition() == if autoStart then Started(kitAvailable, initialized) else initialized
    {
      bound := true;
      instruction := ButtonImeSpeak;
      keyboardVisible := true;
      goVisible := true;
      message := "";
      var editorInfo := SetEditorInfo(attribute);
      RecordKeepsSound(Recognition(), Initialize(editorInfo));
      trace := trace + [Initialize(editorInfo)];
      speechKit := kitAvailable;
      if autoStart {
        StartSession();
      }
    }

    /** `startSession`. */
    method StartSession()
      requires Valid()
      modifies this
      ensures Valid()
      ensures StartedSession()
    {
      StartedKeepsSound(speechKit, Recognition());
      if speechKit {
        var call: Event;
        if recognizer == None {
          recognizer := Some(Handle(created));
          created := created + 1;
          call := Create(recognizer.value);
        } else {
          call := Event.SetListener(recognizer.value);
        }
        trace := trace + [call, Start(recognizer.value)];
      }
    }

    /** `setInitState`. */
    method SetInitState()
      requires Valid()
      modifies this
      ensures Valid()
      ensures InitStateSet()
      ensures Recognition() == old(Recognition()) && speechKit == old(speechKit) && bound == old(bound)
    {
      state := Init;
      if bound {
        mic := state;
        instruction := ButtonImeSpeak;
        keyboardVisible := true;
        goVisible := true;
      }
    }

    /** `closeSession`. */
    method CloseSession()
      requires Valid()
      modifies this
      ensures Valid()
      ensures ClosedSession()
    {
      ClosedKeepsSound(Recognition());
      if recognizer != None {
        trace := trace + [Cancel(recognizer.value)];
        recognizer := None;
      }
      SetInitState();
    }

    /**
     * A click on the mic button. Before setListener no click handler is
     * installed. In RECORDING with no recognizer held, the call on the null
     * recognizer throws a NullPointerException: `npe` reports it.
     */
    method MicClick() returns (npe: bool)
      requires Valid()
      modifies this
      ensures Valid()
      ensures !old(bound) ==> !npe && unchanged(this)
      ensures old(bound) && old(state) in {Init, Error} ==> !npe && StartedSession()
      ensures old(bound) && old(state) == Recording ==>
        && npe == old(recognizer).None?
        && Emitted(if npe then [] else [StopRecording(old(recognizer).value)])
        && Ui() == old(Ui())
      ensures old(bound) && old(state) == Transcribing ==> !npe && ClosedSession()
    {
      npe := false;
      if bound {
        match state
        case Init =>
          StartSession();
        case Recording =>
          if recognizer == None {
            npe := true;
          } else {
            RecordKeepsSound(Recognition(), StopRecording(recognizer.value));
            trace := trace + [StopRecording(recognizer.value)];
          }
        case Error =>
          StartSession();
        case Transcribing =>
          CloseSession();
      }
    }

    /** A click on the go button: the listener's onGo, once setListener has installed the handler. */
    method GoClick()
      requires Valid()
      modifies this
      ensures Valid()
      ensures Emitted(if old(bound) then [Go] else []) && Ui() == old(Ui())
    {
      if bound {
        RecordKeepsSound(Recognition(), Go);
        trace := trace + [Go];
      }
    }

    /** A click on the keyboard button: the listener's onKeyboard, once setListener has installed the handler. */
    method KeyboardClick()
      requires Valid()
      modifies this
      ensures Valid()
      ensures Emitted(if old(bound) then [Keyboard] else []) && Ui() == old(Ui())
    {
      if bound {
        RecordKeepsSound(Recognition(), Keyboard);
        trace := trace + [Keyboard];
      }
    }

    /** A swipe to the left: exactly one deleteLastWord; before setListener the listener is null (`npe`). */
    method SwipeLeft() returns (npe: bool)
      requires Valid()
      modifies this
      ensures Valid()
      ensures npe == !old(bound)
      ensures Emitted(if npe then [] else [DeleteLastWord]) && Ui() == old(Ui())
    {
      npe := !bound;
      if bound {
        RecordKeepsSound(Recognition(), DeleteLastWord);
        trace := trace + [DeleteLastWord];
      }
    }

    /** A swipe to the right: a final result of one line break; before setListener the listener is null (`npe`). */
    method SwipeRight() returns (npe: bool)
      requires Valid()
      modifies this
      ensures Valid()
      ensures npe == !old(bound)
      ensures Emitted(if npe then [] else [ListenerFinal(Some("\n"))]) && Ui() == old(Ui())
    {
      npe := !bound;
      if bound {
        RecordKeepsSound(Recognition(), ListenerFinal(Some("\n")));
        trace := trace + [ListenerFinal(Some("\n"))];
      }
    }

    // The recognizer callbacks. They come only from a recognizer this view
    // created (created > 0), and so only once setListener has run.

    /** `onRecordingBegin`: RECORDING, whatever the state was; the keyboard and go buttons are hidden. */
    method OnRecordingBegin()
      requires Valid() && created > 0
      modifies this
      ensures Valid()
      ensures state == Recording
      ensures Ui() == old(Ui()).(mic := Recording, instruction := ButtonImeStop, keyboardVisible := false, goVisible := false)
      ensures Recognition() == old(Recognition()) && speechKit == old(speechKit) && bound == old(bound)
    {
      state := Recording;
      mic := state;
      instruction := ButtonImeStop;
      keyboardVisible := false;
      goVisible := false;
    }

    /** `onRecordingDone`: TRANSCRIBING, whatever the state was. */
    method OnRecordingDone()
      requires Valid() && created > 0
      modifies this
      ensures Valid()
      ensures state == Transcribing
      ensures Ui() == old(Ui()).(mic := Transcribing, instruction := StatusImeTranscribing)
      ensures Recognition() == old(Recognition()) && speechKit == old(speechKit) && bound == old(bound)
    {
      state := Transcribing;
      mic := state;
      instruction := StatusImeTranscribing;
    }

    /**
     * `onError`: ERROR, whatever the state was. A network (unknown-host) error
     * shows on the mic button and in the instruction; any other error shows its
     * message, formatted as a partial preview, and leaves the mic button alone.
     */
    method OnError(error: RecognizerError)
      requires Valid() && created > 0
      modifies this
      ensures Valid()
      ensures state == Error
      ensures error.unknownHost ==> Ui() == old(Ui()).(mic := Error, instruction := ErrorImeResultNetworkError)
      ensures !error.unknownHost ==> Ui() == old(Ui()).(message := LastChars(error.message, false))
      ensures Recognition() == old(Recognition()) && speechKit == old(speechKit) && bound == old(bound)
    {
      state := Error;
      if error.unknownHost {
        mic := state;
        instruction := ErrorImeResultNetworkError;
      } else {
        message := LastChars(error.message, false);
      }
    }

    /** `onPartialResult`: the raw text goes to the listener; the message shows its partial preview. */
    method OnPartialResult(text: Option<string>)
      requires Valid() && created > 0
      modifies this
      ensures Valid()
      ensures Emitted([ListenerPartial(text)])
      ensures Ui() == old(Ui()).(message := LastChars(text, false))
    {
      RecordKeepsSound(Recognition(), ListenerPartial(text));
      trace := trace + [ListenerPartial(text)];
      message := LastChars(text, false);
    }

    /** `onFinalResult`: the raw text goes to the listener; the message shows its bracketed preview. */
    method OnFinalResult(text: Option<string>)
      requires Valid() && created > 0
      modifies this
      ensures Valid()
      ensures Emitted([ListenerFinal(text)])
      ensures Ui() == old(Ui()).(message := LastChars(text, true))
    {
      RecordKeepsSound(Recognition(), ListenerFinal(text));
      trace := trace + [ListenerFinal(text)];
      message := LastChars(text, true);
    }

    /** `onFinish`: INIT with the buttons visible, whatever the state was; the reason is not shown. */
    method OnFinish(reason: Option<string>)
      requires Valid() && created > 0
      modifies this
      ensures Valid()
      ensures state == Init && Ui() == InitScreen(old(Ui()))
      ensures Recognition() == old(Recognition()) && speechKit == old(speechKit) && bound == old(bound)
    {
      SetInitState();
    }
  }

  /** The bracketed preview of a two-line final result. */
  lemma FinalPreviewOfTwoLines()
    ensures LastChars(Some("hi\nyou"), true) == "[hi\U{21B2}you]"
  {
  }

  /**
   * One dictation: the mic click starts a session, recording begins, a
   * partial result arrives, the second mic click stops recording, the final
   * result arrives and the recognizer finishes. The view ends in INIT, still
   * holding its recognizer, with the bracketed final preview on screen.
   */
  method Dictation(view: VoiceImeView, text: string)
    requires view.Valid() && view.bound && view.speechKit && view.state == Init
    modifies view
    ensures view.Valid() && view.state == Init && view.speechKit && view.bound
    ensures var started := Started(true, old(view.Recognition()));
      view.Recognition() == started.(trace := started.trace +
        [ListenerPartial(Some(text)), StopRecording(started.recognizer.value), ListenerFinal(Some(text))])
    ensures view.message == LastChars(Some(text), true)
  {
    BeginDictation(view, text);
    EndDictation(view, text);
  }

  /** The first half of a dictation: the mic click starts a session, recording begins and a partial result arrives. */
  method BeginDictation(view: VoiceImeView, text: string)
    requires view.Valid() && view.bound && view.speechKit && view.state == Init
    modifies view
    ensures view.Valid() && view.state == Recording && view.speechKit && view.bound
    ensures var started := Started(true, old(view.Recognition()));
      view.Recognition() == started.(trace := started.trace + [ListenerPartial(Some(text))])
  {
    var npe := view.MicClick();
    view.OnRecordingBegin();
    view.OnPartialResult(Some(text));
  }

  /** The second half: the mic click stops recording, the final result arrives and the recognizer finishes. */
  method EndDictation(view: VoiceImeView, text: string)
    requires view.Valid() && view.bound && view.speechKit && view.state == Recording && view.recognizer.Some?
    modifies view
    ensures view.Valid() && view.state == Init && view.speechKit && view.bound
    ensures var held := old(view.Recognition());
      view.Recognition() == held.(trace := held.trace + [StopRecording(held.recognizer.value), ListenerFinal(Some(text))])
    ensures view.message == LastChars(Some(text), true)
  {
    var npe := view.MicClick();
    view.OnRecordingDone();
    view.OnFinalResult(Some(text));
    view.OnFinish(None);
  }

  /** A new view once setListener has found a speech kit, without auto-start: nothing but the initialization has been called. */
  method Listening(attribute: EditorInfo) returns (view: VoiceImeView)
    ensures fresh(view) && view.Valid() && view.bound && view.speechKit && view.state == Init
    ensures view.Recognition() == Sessions.Session(None, 0, [Initialize(SetEditorInfo(attribute))])
  {
    view := new VoiceImeView();
    view.SetListener(attribute, true, false);
  }

  /**
   * A dictation followed by a second one: the first creates and starts
   * recognizer 0 and forwards the raw text; the preview left on screen is the
   * bracketed final preview; the next mic click reuses the same recognizer.
   */
  method DictateTwice(attribute: EditorInfo, text: string) returns (calls: seq<Event>, preview: string)
    ensures calls == [
      Initialize(SetEditorInfo(attribute)),
      Create(Handle(0)), Start(Handle(0)),
      ListenerPartial(Some(text)),
      StopRecording(Handle(0)),
      ListenerFinal(Some(text)),
      Event.SetListener(Handle(0)), Start(Handle(0))]
    ensures preview == LastChars(Some(text), true)
  {
    var view := Listening(attribute);
    Dictation(view, text);
    assert view.recognizer == Some(Handle(0));
    assert view.trace == [Initialize(SetEditorInfo(attribute)), Create(Handle(0)), Start(Handle(0)),
      ListenerPartial(Some(text)), StopRecording(Handle(0)), ListenerFinal(Some(text))];
    ghost var first := view.trace;
    var npe := view.MicClick();
    assert view.trace == first + [Event.SetListener(Handle(0)), Start(Handle(0))];
    calls := view.trace;
    preview := view.message;
  }

  /**
   * A network error, then a retry: the error shows on the mic button and in
   * the instruction, and the next click (in ERROR) starts the held recognizer again.
   */
  method NetworkErrorThenRetry(attribute: EditorInfo) returns (calls: seq<Event>, shown: Screen, after: State)
    ensures calls == [Initialize(SetEditorInfo(attribute)), Create(Handle(0)), Start(Handle(0)), Event.SetListener(Handle(0)), Start(Handle(0))]
    ensures shown == Screen(ErrorImeResultNetworkError, "", Error, false, false)
    ensures after == Error
  {
    var view := new VoiceImeView();
    view.SetListener(attribute, true, true);
    view.OnRecordingBegin();
    view.OnError(RecognizerError(true, Some("host")));
    shown := view.Ui();
    var npe := view.MicClick();
    calls := view.trace;
    after := view.state;
  }
}
