# VoiceImeView, modelled in Dafny

A model of `VoiceImeView`, the dictation panel of the Kõnele input method
(`app/src/ee/ioc/phon/android/speak/VoiceImeView.java`). The panel has a mic
button, a keyboard button, a go button, an instruction label and a message
label. It holds a session state (`INIT`, `RECORDING`, `TRANSCRIBING`, `ERROR`),
at most one speech recognizer, and a speech kit. It reacts to clicks, to
swipes and to the recognizer's callbacks, and it forwards results to the
listener supplied by the input-method service.

The model has five modules:

- `Wrappers`: `Option`, which stands for a Java reference that may be null.
- `Display`: `lastChars`, the preview formatter. Null shows as empty text.
  Each line feed becomes `↲` (U+21B2). A final result is wrapped in `[...]`.
- `EditorInfos`: `setEditorInfo`, the six name/value pairs sent to the speech
  kit, together with the decimal text `String.valueOf(int)` writes for the
  input type.
- `Sessions`: the recognizer side as values. A `Session` holds the recognizer
  held (`mCurrentRecognizer`), how many recognizers were created, and a trace
  of every outgoing call. The calls are `Initialize`, `Create`, `SetListener`,
  `Start`, `StopRecording`, `Cancel`, `ListenerPartial`, `ListenerFinal`,
  `DeleteLastWord`, `Go` and `Keyboard`. `Started` and `Closed` give what
  `startSession` and `closeSession` do to it. `Sound` is the invariant the
  view keeps. It has two parts. `NoLeak`: every created recognizer is either
  the one held or has been cancelled. `WellOrdered`: no call goes to a
  cancelled recognizer, and no recognizer is created twice.
- `VoiceIme`: the class `VoiceImeView`. Its fields are those of the Java
  class (`mState`, `mCurrentRecognizer`, `mSpeechKit`), whether `setListener`
  has run, what the five child views show, and the trace. Its methods change
  those fields step by step, as the Java methods do. Each method's `ensures`
  ties the new fields to the old ones, through `Started`, `Closed` and
  `LastChars`. `Valid()` (which includes `Sound`) is kept by every method.
  Client methods at the end drive whole dictations using those contracts
  alone.

Posting to the UI thread is taken to apply at once, in program order.
Before `setListener` has run, the child views are null. So the UI updates are
skipped, no click handler is installed, and a swipe throws a
NullPointerException because the listener is null. The model shows each of
these. A click on the mic button in `RECORDING` with no recognizer held also
calls a method on null. This can happen when `closeSession` is followed by a
late `onRecordingBegin`. `MicClick` reports it as `npe`.

The recognizer callbacks have a `requires created > 0`. The SDK calls only
the listener that `startSession` hands to a recognizer, so a callback means
the view has created a recognizer. That in turn means `setListener` has run.

Three behaviours of the code are easy to misread:

- A non-network error is not shown verbatim. It is passed through
  `lastChars(msg, false)`, so line feeds become `↲` and a null message shows
  as empty text.
- A mic click in `ERROR` or `INIT` only starts the recognizer. The state
  becomes `RECORDING` only when `onRecordingBegin` arrives. Likewise, a click
  in `RECORDING` only calls `stopRecording`, and `TRANSCRIBING` comes with
  `onRecordingDone`.
- A non-network error does not update the mic button. After an error during
  recording, the keyboard and go buttons stay hidden until `onFinish` or
  `closeSession` (`NetworkErrorThenRetry` shows the network case).

## Model

| member | source | states |
|---|---|---|
| `Display.ReplaceNewlines` | app/src/ee/ioc/phon/android/speak/VoiceImeView.java:229 | The result has the input's length. Each line feed becomes the glyph, and every other character stays in its place. The result contains no line feed. |
| `Display.LastChars` | app/src/ee/ioc/phon/android/speak/VoiceImeView.java:225-235 | Null gives `""`, or `"[]"` when final. The result never contains a line feed. A final result is `[`, then the display form of the text, then `]`. A partial result is exactly the display form of the text. |
| `Display.DisplayOfUnique` | app/src/ee/ioc/phon/android/speak/VoiceImeView.java:229 | The display form of a text is unique, so the contracts above fix the result completely. |
| `Display.FinalIsBracketedPartial` | app/src/ee/ioc/phon/android/speak/VoiceImeView.java:231-234 | A final preview is the partial preview of the same text inside brackets. |
| `Display.RestoreReplaceNewlines` | app/src/ee/ioc/phon/android/speak/VoiceImeView.java:229 | For text without a glyph of its own, turning glyphs back into line feeds restores the text exactly. |
| `Display.ReplaceNewlinesIdempotent` | app/src/ee/ioc/phon/android/speak/VoiceImeView.java:229 | Formatting an already formatted preview changes nothing. |
| `EditorInfos.SetEditorInfoFields` | app/src/ee/ioc/phon/android/speak/VoiceImeView.java:134-143 | Exactly six pairs, named `actionLabel`, `fieldName`, `hintText`, `inputType`, `label`, `packageName` in that order. Looking up each name gives its field, and the input type is given as decimal text. |
| `EditorInfos.Digits` | app/src/ee/ioc/phon/android/speak/VoiceImeView.java:139 | The decimal text of a natural number is non-empty, uses only digits, and has no leading zero. |
| `EditorInfos.DecimalStringFormat` | app/src/ee/ioc/phon/android/speak/VoiceImeView.java:139 | The text `String.valueOf(int)` writes starts with `-` exactly when the number is negative. Only digits follow, at least one and with no leading zero. Parsing the text gives back the input type. |
| `EditorInfos.ParameterNamesDistinct` | app/src/ee/ioc/phon/android/speak/VoiceImeView.java:136-141 | The six parameter names differ from each other, so each lookup by name finds its own pair. |
| `EditorInfos.LookupFinds` | app/src/ee/ioc/phon/android/speak/VoiceImeView.java:134-143 | A lookup by name finds the first pair with that name. |
| `Sessions.Started` | app/src/ee/ioc/phon/android/speak/VoiceImeView.java:120-132 | With no speech kit nothing changes. Otherwise a recognizer is held afterwards and the trace grows by two calls, the second being `Start` on that recognizer. A held recognizer is kept and gets `SetListener`. With none held, a new one (the next number) is made with `Create`. |
| `Sessions.Closed` | app/src/ee/ioc/phon/android/speak/VoiceImeView.java:145-149 | Afterwards no recognizer is held. `Cancel` is called on the held recognizer if there was one; otherwise the trace is unchanged. |
| `Sessions.WellOrderedAppend` | app/src/ee/ioc/phon/android/speak/VoiceImeView.java:120-149 | A call that goes to no cancelled recognizer and creates no recognizer a second time keeps the trace well ordered. |
| `Sessions.NoCallAfterCancel` | app/src/ee/ioc/phon/android/speak/VoiceImeView.java:145-149 | In a well-ordered trace, a recognizer receives no call after it has been cancelled. |
| `Sessions.CreatedOnce` | app/src/ee/ioc/phon/android/speak/VoiceImeView.java:123-128 | In a well-ordered trace, no recognizer is created twice. |
| `Sessions.StartedKeepsSound` | app/src/ee/ioc/phon/android/speak/VoiceImeView.java:120-132 | `startSession` keeps the invariant. Every created recognizer is held or cancelled, the held one is not cancelled, and the trace stays well ordered. |
| `Sessions.ClosedKeepsSound` | app/src/ee/ioc/phon/android/speak/VoiceImeView.java:145-149 | `closeSession` keeps the same invariant. |
| `Sessions.RecordKeepsSound` | app/src/ee/ioc/phon/android/speak/VoiceImeView.java:90 | The invariant is kept by a call that creates and cancels nothing and, if it goes to a recognizer, goes to the held one. Examples are a listener call and `stopRecording` on the held recognizer. |
| `Sessions.LiveIsHeld` | app/src/ee/ioc/phon/android/speak/VoiceImeView.java:123-128 | Under the invariant, any created and uncancelled recognizer is the one held. So at most one is live. |
| `Sessions.ClosedLeavesNoneLive` | app/src/ee/ioc/phon/android/speak/VoiceImeView.java:145-149 | After `closeSession` no recognizer is live. |
| `VoiceIme.VoiceImeView.constructor` | app/src/ee/ioc/phon/android/speak/VoiceImeView.java:49-67 | State `INIT`, with no recognizer, no speech kit, no listener and an empty trace. |
| `VoiceIme.VoiceImeView.SetListener` | app/src/ee/ioc/phon/android/speak/VoiceImeView.java:69-118 | The instruction is "speak", the message is empty, and both buttons are visible. The state is kept. `Initialize` is called with `SetEditorInfo(attribute)`, and the speech kit is what it returned. When auto-start is set the result is then `Started`. |
| `VoiceIme.VoiceImeView.StartSession` | app/src/ee/ioc/phon/android/speak/VoiceImeView.java:120-132 | The recognizer part becomes `Started(speechKit, …)`, and the state and screen are unchanged. |
| `VoiceIme.VoiceImeView.SetInitState` | app/src/ee/ioc/phon/android/speak/VoiceImeView.java:217-223 | State `INIT`. When the views are set, the mic button shows `INIT`, the instruction is "speak" and both buttons are visible. The message and recognizer are unchanged. |
| `VoiceIme.VoiceImeView.CloseSession` | app/src/ee/ioc/phon/android/speak/VoiceImeView.java:145-151 | The recognizer part becomes `Closed(…)`, then it acts as `SetInitState`. |
| `VoiceIme.VoiceImeView.MicClick` | app/src/ee/ioc/phon/android/speak/VoiceImeView.java:85-96 | Before `setListener` nothing happens. In `INIT` or `ERROR` it does exactly what `StartSession` does. In `RECORDING` it calls `StopRecording` on the held recognizer, changing neither the state nor the screen, and throws NullPointerException when none is held. In `TRANSCRIBING` it does exactly what `CloseSession` does. |
| `VoiceIme.VoiceImeView.GoClick` | app/src/ee/ioc/phon/android/speak/VoiceImeView.java:99-104 | Once the handler is installed it makes exactly one `Go` call. Nothing else changes. |
| `VoiceIme.VoiceImeView.KeyboardClick` | app/src/ee/ioc/phon/android/speak/VoiceImeView.java:106-111 | Once the handler is installed it makes exactly one `Keyboard` call. Nothing else changes. |
| `VoiceIme.VoiceImeView.SwipeLeft` | app/src/ee/ioc/phon/android/speak/VoiceImeView.java:56-58 | Makes exactly one `DeleteLastWord` call and nothing else. Throws NullPointerException before `setListener`. |
| `VoiceIme.VoiceImeView.SwipeRight` | app/src/ee/ioc/phon/android/speak/VoiceImeView.java:61-63 | Makes exactly one final-result call with a single line feed and nothing else. Throws NullPointerException before `setListener`. |
| `VoiceIme.VoiceImeView.OnRecordingBegin` | app/src/ee/ioc/phon/android/speak/VoiceImeView.java:158-165 | `RECORDING` from any state. The mic shows `RECORDING`, the instruction is "stop", and the keyboard and go buttons are hidden. The recognizer and trace are unchanged. |
| `VoiceIme.VoiceImeView.OnRecordingDone` | app/src/ee/ioc/phon/android/speak/VoiceImeView.java:168-173 | `TRANSCRIBING` from any state. The mic shows `TRANSCRIBING` and the instruction is "transcribing". |
| `VoiceIme.VoiceImeView.OnError` | app/src/ee/ioc/phon/android/speak/VoiceImeView.java:179-189 | `ERROR` from any state. An unknown-host error sets the mic to `ERROR` and shows the network-error instruction, and the message is unchanged. Any other error sets the message to `LastChars(msg, false)` and changes nothing else. |
| `VoiceIme.VoiceImeView.OnPartialResult` | app/src/ee/ioc/phon/android/speak/VoiceImeView.java:192-197 | The raw text goes to the listener in one `ListenerPartial` call, and the message becomes `LastChars(text, false)`. The state and recognizer are unchanged. |
| `VoiceIme.VoiceImeView.OnFinalResult` | app/src/ee/ioc/phon/android/speak/VoiceImeView.java:200-205 | The raw text goes to the listener in one `ListenerFinal` call, and the message becomes `LastChars(text, true)`. |
| `VoiceIme.VoiceImeView.OnFinish` | app/src/ee/ioc/phon/android/speak/VoiceImeView.java:208-213 | `INIT` from any state. The mic shows `INIT`, the instruction is "speak", both buttons are visible, and the message is unchanged. |
| `VoiceIme.FinalPreviewOfTwoLines` | app/src/ee/ioc/phon/android/speak/VoiceImeView.java:225-234 | The final preview of `hi\nyou` is `[hi↲you]`. |
| `VoiceIme.BeginDictation` | app/src/ee/ioc/phon/android/speak/VoiceImeView.java:85-197 | In `INIT`, with the speech kit present: a mic click, begin and a partial result. The session is the one `startSession` makes, followed by the raw text forwarded once, and the state is `RECORDING`. |
| `VoiceIme.EndDictation` | app/src/ee/ioc/phon/android/speak/VoiceImeView.java:85-213 | In `RECORDING` with a recognizer held: a mic click, done, final and finish. The held recognizer gets `StopRecording`, then the raw text is forwarded. The view ends in `INIT` and shows the final preview of the text. |
| `VoiceIme.Dictation` | app/src/ee/ioc/phon/android/speak/VoiceImeView.java:85-213 | In `INIT`, with the speech kit present: a mic click, begin, partial, a mic click, done, final and finish. The session is the one `startSession` makes, and the raw text is then forwarded twice with a `StopRecording` of the held recognizer between. The view ends in `INIT` and shows the final preview of the text. |
| `VoiceIme.Listening` | app/src/ee/ioc/phon/android/speak/VoiceImeView.java:69-118 | A new view after `setListener` has found a speech kit, without auto-start. It is in `INIT`, holds no recognizer, and has made only the `Initialize` call. |
| `VoiceIme.DictateTwice` | app/src/ee/ioc/phon/android/speak/VoiceImeView.java:69-132 | A first session creates recognizer 0. A second session reuses it through `SetListener`, with no new `Create`. The full call trace is fixed, and the preview shown is the final preview of the text. |
| `VoiceIme.NetworkErrorThenRetry` | app/src/ee/ioc/phon/android/speak/VoiceImeView.java:179-189 | After a network error the screen shows the network-error instruction and an `ERROR` mic, with the buttons still hidden. The next click restarts the held recognizer. |

## Left out

- `Sessions.Sound` does not state that every call on a recognizer comes after that recognizer's `Create`. It states only that the recognizer's number is below `created`. The stronger invariant holds for the code (lines 125-130), but stating it made the whole-dictation proofs too expensive.
- Two NullPointerExceptions are ruled out by the model's types. `setEditorInfo` on a null `EditorInfo` (line 136) cannot happen, because `SetListener` takes a non-null `EditorInfo`. A null return from `createRecognizer` (line 125), which would fail at `start()` on line 130, cannot happen either, because `Started` always holds a recognizer afterwards.
- Android view plumbing is not modelled: `findViewById`, resource lookups, the rendering of `MicButton`, `TextView` and `ImageButton`, and the asynchrony of `View.post`. The five views are plain fields, each post applies at once, and `findViewById` is taken to find all five views.
- The initial text and faces given by the layout are unknown. The model uses `LayoutDefault` for the instruction, an empty message, an `INIT` mic face and visible buttons.
- The internals of the speech kit and recognizer are not modelled: recognition, audio, the WebSocket service URL and the `"et_EE"` language code. Only the calls made on them are recorded. Whether `SpeechKit.initialize` returns null is the parameter `kitAvailable`.
- The auto-start preference lookup through `SharedPreferences` is the boolean parameter `autoStart` of `SetListener`.
- `asString` and the `SpannableString` conversion are not modelled, because they read foreign Android types. The EditorInfo fields are given already as their characters, with null kept as `None`.
- Listener identity is not modelled. The fresh `Recognizer.Listener` object made on each `startSession` is not tracked, so `SetListener` records only the recognizer.
- A null listener passed to `setListener` is not modelled.
- `Log` calls and the threads on which the SDK delivers its callbacks are not modelled.
- Java strings are UTF-16 and may hold unpaired surrogates; Dafny strings hold Unicode scalar values. Only `\n` is replaced; `\r` is kept, as in the source.
