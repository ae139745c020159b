/**
 * The session metadata VoiceImeView hands to the speech kit: six name/value
 * pairs taken from the host text field's EditorInfo, in a fixed order.
 */
module EditorInfos {
  import opened Wrappers

  /** A Java `int`. */
  newtype int32 = x: int | -0x8000_0000 <= x < 0x8000_0000

  /** The fields of EditorInfo that are read, each text already converted to its characters (null stays null). */
  datatype EditorInfo = EditorInfo(
    actionLabel: Option<string>,
    fieldName: Option<string>,
    hintText: Option<string>,
    inputType: int32,
    labelText: Option<string>,
    packageName: Option<string>)

  /** A BasicNameValuePair; its value may be null. */
  datatype NameValuePair = NameValuePair(name: string, value: Option<string>)

  /** The names of the pairs, in the order they are sent. */
  const ParameterNames: seq<string> := ["actionLabel", "fieldName", "hintText", "inputType", "label", "packageName"]

  function Names(ps: seq<NameValuePair>): (ns: seq<string>)
    ensures |ns| == |ps|
    ensures forall i :: 0 <= i < |ps| ==> ns[i] == ps[i].name
  {
    if ps == [] then [] else [ps[0].name] + Names(ps[1..])
  }

  /** The value of the first pair named `key`, or None when no pair has that name. */
  function Lookup(ps: seq<NameValuePair>, key: string): Option<Option<string>> {
    if ps == [] then None
    else if ps[0].name == key then Some(ps[0].value)
    else Lookup(ps[1..], key)
  }

  /** Lookup finds the first pair with the name asked for. */
  lemma {:induction false} LookupFinds(ps: seq<NameValuePair>, i: nat)
    requires i < |ps|
    requires forall j :: 0 <= j < i ==> ps[j].name != ps[i].name
    ensures Lookup(ps, ps[i].name) == Some(ps[i].value)
  {
    if i > 0 {
      LookupFinds(ps[1..], i - 1);
    }
  }

  function DigitChar(d: nat): (c: char)
    requires d < 10
  {
    (d + '0' as int) as char
  }

  /** The decimal digits of `n`, most significant first. */
  function Digits(n: nat): (s: string)
    ensures |s| >= 1
    ensures forall i :: 0 <= i < |s| ==> '0' <= s[i] <= '9'
    ensures s[0] == '0' ==> n == 0
    decreases n
  {
    if n < 10 then [DigitChar(n)] else Digits(n / 10) + [DigitChar(n % 10)]
  }

  /** `String.valueOf(int)`: an optional minus sign, then the digits of the magnitude. */
  function DecimalString(x: int32): string {
    var n := if x < 0 then -(x as int) else x as int;
    if x < 0 then "-" + Digits(n) else Digits(n)
  }

  /** The value of a string of decimal digits. */
  function DigitsValue(s: string): nat
    requires forall i :: 0 <= i < |s| ==> '0' <= s[i] <= '9'
  {
    if s == [] then 0 else DigitsValue(s[..|s| - 1]) * 10 + (s[|s| - 1] as int - '0' as int)
  }

  /** Integer.parseInt on the decimal strings DecimalString produces. */
  function ParseDecimal(s: string): int
    requires |s| >= 1
    requires forall i :: (if s[0] == '-' then 1 else 0) <= i < |s| ==> '0' <= s[i] <= '9'
  {
    if s[0] == '-' then -(DigitsValue(s[1..]) as int) else DigitsValue(s)
  }

  lemma {:induction false} DigitsRoundTrip(n: nat)
    ensures DigitsValue(Digits(n)) == n
    decreases n
  {
    if n >= 10 {
      var s := Digits(n);
      assert s == Digits(n / 10) + [DigitChar(n % 10)];
      assert s[..|s| - 1] == Digits(n / 10);
      DigitsRoundTrip(n / 10);
    }
  }

  /**
   * The text `String.valueOf(int)` writes: a minus sign exactly for a negative
   * number, then at least one digit, with no leading zero; reading it back
   * gives the number.
   */
  lemma DecimalStringFormat(x: int32)
    ensures var s := DecimalString(x);
      && |s| >= 1 && (s[0] == '-' <==> x < 0)
      && var sign := if x < 0 then 1 else 0;
      && |s| > sign
      && (forall i :: sign <= i < |s| ==> '0' <= s[i] <= '9')
      && (s[sign] == '0' ==> x == 0)
      && ParseDecimal(s) == x as int
  {
    DigitsRoundTrip(if x < 0 then -(x as int) else x as int);
  }

  /** `setEditorInfo(attribute)`: the name/value pairs sent to the speech kit. */
  function SetEditorInfo(e: EditorInfo): seq<NameValuePair> {
    [ NameValuePair("actionLabel", e.actionLabel),
      NameValuePair("fieldName", e.fieldName),
      NameValuePair("hintText", e.hintText),
      NameValuePair("inputType", Some(DecimalString(e.inputType))),
      NameValuePair("label", e.labelText),
      NameValuePair("packageName", e.packageName) ]
  }

  /** The six parameter names differ from each other. */
  lemma ParameterNamesDistinct()
    ensures forall i, j :: 0 <= i < j < |ParameterNames| ==> ParameterNames[i] != ParameterNames[j]
  {
  }

  /**
   * `setEditorInfo` gives six pairs named as ParameterNames says, in that
   * order, and each name carries its field; the input type as decimal text.
   */
  lemma SetEditorInfoFields(e: EditorInfo)
    ensures Names(SetEditorInfo(e)) == ParameterNames
    ensures var ps := SetEditorInfo(e);
      && Lookup(ps, "actionLabel") == Some(e.actionLabel)
      && Lookup(ps, "fieldName") == Some(e.fieldName)
      && Lookup(ps, "hintText") == Some(e.hintText)
      && Lookup(ps, "inputType") == Some(Some(DecimalString(e.inputType)))
      && Lookup(ps, "label") == Some(e.labelText)
      && Lookup(ps, "packageName") == Some(e.packageName)
  {
    var ps := SetEditorInfo(e);
    assert forall i :: 0 <= i < |ps| ==> ps[i].name == ParameterNames[i];
    ParameterNamesDistinct();
    LookupFinds(ps, 0);
    LookupFinds(ps, 1);
    LookupFinds(ps, 2);
    LookupFinds(ps, 3);
    LookupFinds(ps, 4);
    LookupFinds(ps, 5);
  }
}
