/**
 * The preview formatting of VoiceImeView: recognised text is shown with every
 * line break replaced by a visible glyph, and a final result is shown in
 * square brackets so that committed text stands apart from partial text.
 */
module Display {
  import opened Wrappers

  /** The glyph shown in place of a line break: U+21B2, DOWNWARDS ARROW WITH TIP LEFTWARDS. */
  const ReturnGlyph: char := '\U{21B2}'

  /** `d` is the on-screen form of `s`: as long as `s`, a glyph wherever `s` has a line break, and every other character of `s` in its place. */
  ghost predicate DisplayOf(d: string, s: string) {
    && |d| == |s|
    && forall i :: 0 <= i < |s| ==> d[i] == (if s[i] == '\n' then ReturnGlyph else s[i])
  }

  /** `s.replaceAll("\\n", "↲")`: the regular expression `\n` matches one line-feed character, and the replacement has no group references. */
  function ReplaceNewlines(s: string): (r: string)
    ensures DisplayOf(r, s)
    ensures '\n' !in r
  {
    if s == [] then []
    else (if s[0] == '\n' then [ReturnGlyph] else [s[0]]) + ReplaceNewlines(s[1..])
  }

  /**
   * `lastChars(str, isFinal)`: null shows as empty text; otherwise line breaks
   * become the glyph; a final result is then wrapped in brackets.
   */
  function LastChars(str: Option<string>, isFinal: bool): (r: string)
    ensures '\n' !in r
    ensures str == None ==> r == (if isFinal then "[]" else "")
    ensures isFinal ==> |r| >= 2 && r[0] == '[' && r[|r| - 1] == ']' && DisplayOf(r[1..|r| - 1], str.GetOr(""))
    ensures !isFinal ==> DisplayOf(r, str.GetOr(""))
  {
    var shown := match str
      case None => ""
      case Some(s) => ReplaceNewlines(s);
    if isFinal then "[" + shown + "]" else shown
  }

  /** The on-screen form is determined by the text: `DisplayOf` pins down every character. */
  lemma DisplayOfUnique(d1: string, d2: string, s: string)
    requires DisplayOf(d1, s) && DisplayOf(d2, s)
    ensures d1 == d2
  {
  }

  /** A final preview is the partial preview of the same text inside brackets. */
  lemma FinalIsBracketedPartial(str: Option<string>)
    ensures LastChars(str, true) == "[" + LastChars(str, false) + "]"
  {
  }

  /** Turns every glyph back into a line break: undoes ReplaceNewlines on text that held no glyph of its own. */
  function RestoreNewlines(d: string): string {
    if d == [] then []
    else (if d[0] == ReturnGlyph then ['\n'] else [d[0]]) + RestoreNewlines(d[1..])
  }

  /** Text without a glyph of its own can be recovered from its preview: the preview loses nothing but the glyph/line-break distinction. */
  lemma {:induction false} RestoreReplaceNewlines(s: string)
    requires ReturnGlyph !in s
    ensures RestoreNewlines(ReplaceNewlines(s)) == s
  {
    if s != [] {
      var head := if s[0] == '\n' then [ReturnGlyph] else [s[0]];
      assert ReplaceNewlines(s) == head + ReplaceNewlines(s[1..]);
      assert ReturnGlyph !in s[1..] by {
        assert forall c :: c in s[1..] ==> c in s;
      }
      RestoreReplaceNewlines(s[1..]);
      assert (head + ReplaceNewlines(s[1..]))[1..] == ReplaceNewlines(s[1..]);
    }
  }

  /** Formatting an already formatted preview changes nothing: the preview holds no line break. */
  lemma ReplaceNewlinesIdempotent(s: string)
    ensures ReplaceNewlines(ReplaceNewlines(s)) == ReplaceNewlines(s)
  {
  }
}
