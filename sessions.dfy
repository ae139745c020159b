/**
 * The recognizer side of VoiceImeView as values: which recognizer the view
 * holds, how many it has created, and the calls it has made on the SDK and
 * on its listener, recorded as an event trace.
 */
module Sessions {
  import opened Wrappers
  import EditorInfos

  /** An SDK recognizer, named by the order in which the view created it. */
  datatype Handle = Handle(id: nat)

  /** One outgoing call: to the speech kit, to a recognizer, or to the view's listener. */
  datatype Event =
    | Initialize(parameters: seq<EditorInfos.NameValuePair>)  // SpeechKit.initialize
    | Create(handle: Handle)               // SpeechKit.createRecognizer
    | SetListener(handle: Handle)          // Recognizer.setListener
    | Start(handle: Handle)                // Recognizer.start
    | StopRecording(handle: Handle)        // Recognizer.stopRecording
    | Cancel(handle: Handle)               // Recognizer.cancel
    | ListenerPartial(text: Option<string>) // listener.onPartialResult
    | ListenerFinal(text: Option<string>)   // listener.onFinalResult
    | DeleteLastWord                       // listener.deleteLastWord
    | Go                                   // listener.onGo
    | Keyboard                             // listener.onKeyboard
  {
    /** The call is made on a recognizer. */
    predicate OnRecognizer() {
      Create? || SetListener? || Start? || StopRecording? || Cancel?
    }
  }

  /** The recognizer held (mCurrentRecognizer), the number created so far, and every call made. */
  datatype Session = Session(recognizer: Option<Handle>, created: nat, trace: seq<Event>)

  /**
   * No recognizer is leaked: every call goes to a recognizer numbered below
   * `created`, the one held has not been cancelled, and every other one has
   * been.
   */
  ghost predicate NoLeak(s: Session) {
    && (forall i :: 0 <= i < |s.trace| && s.trace[i].OnRecognizer() ==> s.trace[i].handle.id < s.created)
    && (s.recognizer.Some? ==> s.recognizer.value.id < s.created && Cancel(s.recognizer.value) !in s.trace)
    && (forall id :: 0 <= id < s.created && s.recognizer != Some(Handle(id)) ==> Cancel(Handle(id)) in s.trace)
  }

  /** Call `e` may follow the calls `before`: not on a recognizer already cancelled, and not a second creation of one. */
  predicate Fits(before: seq<Event>, e: Event) {
    e.OnRecognizer() ==> Cancel(e.handle) !in before && (e.Create? ==> Create(e.handle) !in before)
  }

  /** Every call fits the calls before it. */
  ghost predicate WellOrdered(t: seq<Event>) {
    forall j :: 0 <= j < |t| ==> Fits(t[..j], t[j])
  }

  lemma WellOrderedAppend(t: seq<Event>, e: Event)
    requires WellOrdered(t) && Fits(t, e)
    ensures WellOrdered(t + [e])
  {
    forall j | 0 <= j < |t| + 1
      ensures Fits((t + [e])[..j], (t + [e])[j])
    {
      if j < |t| {
        assert (t + [e])[..j] == t[..j];
      } else {
        assert (t + [e])[..j] == t;
      }
    }
  }

  /** Once cancelled, a recognizer receives no further call. */
  lemma NoCallAfterCancel(t: seq<Event>, i: nat, j: nat)
    requires WellOrdered(t)
    requires i < j < |t| && t[i].Cancel? && t[j].OnRecognizer()
    ensures t[j].handle != t[i].handle
  {
    assert t[i] in t[..j];
  }

  /** No recognizer is created twice. */
  lemma CreatedOnce(t: seq<Event>, i: nat, j: nat)
    requires WellOrdered(t)
    requires i < j < |t| && t[i].Create? && t[j].Create?
    ensures t[j].handle != t[i].handle
  {
    assert t[i] in t[..j];
  }

  /** The invariant the view keeps over its recognizers. */
  ghost predicate Sound(s: Session) {
    NoLeak(s) && WellOrdered(s.trace)
  }

  /** Recognizers that have been created and not cancelled. */
  ghost predicate Live(s: Session, id: nat) {
    id < s.created && Cancel(Handle(id)) !in s.trace
  }

  /**
   * `startSession` once the speech kit is known to be present or absent:
   * without a kit nothing happens; otherwise the held recognizer gets a new
   * listener, or a recognizer is created when none is held, and it is started.
   */
  function Started(kit: bool, s: Session): (t: Session)
    ensures !kit ==> t == s
    ensures kit ==> t.recognizer.Some? && |t.trace| == |s.trace| + 2 && t.trace[..|s.trace|] == s.trace
    ensures kit ==> t.trace[|t.trace| - 1] == Start(t.recognizer.value)
    ensures kit && s.recognizer.Some? ==>
      t.recognizer == s.recognizer && t.created == s.created && t.trace[|s.trace|] == SetListener(s.recognizer.value)
    ensures kit && s.recognizer.None? ==>
      t.created == s.created + 1 && t.recognizer == Some(Handle(s.created)) && t.trace[|s.trace|] == Create(Handle(s.created))
  {
    if !kit then s
    else
      var (h, created, call) := match s.recognizer
        case None => (Handle(s.created), s.created + 1, Create(Handle(s.created)))
        case Some(h) => (h, s.created, SetListener(h));
      Session(Some(h), created, s.trace + [call, Start(h)])
  }

  /** The recognizer part of `closeSession`: cancel the held recognizer, if any, and drop it. */
  function Closed(s: Session): (t: Session)
    ensures t.recognizer == None && t.created == s.created
    ensures s.recognizer.None? ==> t.trace == s.trace
    ensures s.recognizer.Some? ==> t.trace == s.trace + [Cancel(s.recognizer.value)]
  {
    match s.recognizer
    case None => s
    case Some(h) => Session(None, s.created, s.trace + [Cancel(h)])
  }

  /** A call that creates and cancels nothing, made on the held recognizer if on any, keeps the invariant. */
  lemma RecordKeepsSound(s: Session, e: Event)
    requires Sound(s)
    requires e.OnRecognizer() ==> !e.Cancel? && !e.Create? && s.recognizer == Some(e.handle)
    ensures Sound(s.(trace := s.trace + [e]))
  {
    WellOrderedAppend(s.trace, e);
  }

  /** `startSession` keeps the invariant. */
  lemma StartedKeepsSound(kit: bool, s: Session)
    requires Sound(s)
    ensures Sound(Started(kit, s))
  {
    if kit {
      var t := Started(kit, s);
      var h := t.recognizer.value;
      var call := t.trace[|s.trace|];
      assert t.trace == s.trace + [call] + [Start(h)];
      WellOrderedAppend(s.trace, call);
      assert Cancel(h) !in s.trace + [call];
      WellOrderedAppend(s.trace + [call], Start(h));
    }
  }

  /** `closeSession` keeps the invariant. */
  lemma ClosedKeepsSound(s: Session)
    requires Sound(s)
    ensures Sound(Closed(s))
  {
    if s.recognizer.Some? {
      WellOrderedAppend(s.trace, Cancel(s.recognizer.value));
    }
  }

  /** The view holds at most one live recognizer at a time, and it is the one in mCurrentRecognizer. */
  lemma LiveIsHeld(s: Session, id: nat)
    requires Sound(s) && Live(s, id)
    ensures s.recognizer == Some(Handle(id))
  {
  }

  /** After `closeSession` no recognizer is live. */
  lemma ClosedLeavesNoneLive(s: Session, id: nat)
    requires Sound(s)
    ensures !Live(Closed(s), id)
  {
  }
}
