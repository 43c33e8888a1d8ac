/** The labelled input (src/components/ui/InputField.tsx): the element id
    derived from the caption, the `aria-*` attributes, and which of the error
    and helper paragraphs is rendered. */
module InputField {
  import opened Types
  import opened Validation

  function LowerChar(c: char): char {
    if 'A' <= c <= 'Z' then (c as int + 32) as char else c
  }

  /** `toLowerCase` on the ASCII letters. */
  function LowerAscii(s: string): (r: string)
    ensures |r| == |s|
    ensures forall k | 0 <= k < |s| :: r[k] == LowerChar(s[k])
    ensures forall k | 0 <= k < |s| :: IsWhitespace(r[k]) <==> IsWhitespace(s[k])
    ensures forall k | 0 <= k < |s| :: !('A' <= r[k] <= 'Z')
  {
    if s == [] then [] else [LowerChar(s[0])] + LowerAscii(s[1..])
  }

  /** Drops the leading run of whitespace. */
  function DropWhitespace(s: string): (r: string)
    ensures |r| <= |s| && r == s[|s| - |r|..]
    ensures r == [] || !IsWhitespace(r[0])
    ensures forall k | 0 <= k < |s| - |r| :: IsWhitespace(s[k])
    decreases |s|
  {
    if s != [] && IsWhitespace(s[0]) then DropWhitespace(s[1..]) else s
  }

  /** `replace(/\s+/g, '-')`: each maximal run of whitespace becomes one dash. */
  function DashRuns(s: string): (r: string)
    ensures NoWhitespace(r)
    ensures |r| <= |s|
    decreases |s|
  {
    if s == [] then []
    else if IsWhitespace(s[0]) then "-" + DashRuns(DropWhitespace(s[1..]))
    else [s[0]] + DashRuns(s[1..])
  }

  /** Text without whitespace is left alone. */
  lemma {:induction false} DashRunsKeepsPlainText(s: string)
    requires NoWhitespace(s)
    ensures DashRuns(s) == s
    decreases |s|
  {
    if s != [] {
      assert !IsWhitespace(s[0]);
      DashRunsKeepsPlainText(s[1..]);
    }
  }

  /** A run of whitespace between plain text and a non-space character is one dash. */
  lemma {:induction false} DashRunsOneRun(a: string, run: string, b: string)
    requires NoWhitespace(a)
    requires run != [] && forall k | 0 <= k < |run| :: IsWhitespace(run[k])
    requires b == [] || !IsWhitespace(b[0])
    ensures DashRuns(a + run + b) == a + "-" + DashRuns(b)
    decreases |a|
  {
    var s := a + run + b;
    if a == [] {
      assert s == run + b && s[0] == run[0];
      assert s[1..] == run[1..] + b;
      DropWhitespaceRun(run[1..], b);
      assert DashRuns(s) == "-" + DashRuns(DropWhitespace(s[1..]));
    } else {
      assert s[0] == a[0] && !IsWhitespace(a[0]);
      assert s[1..] == a[1..] + run + b;
      assert NoWhitespace(a[1..]);
      DashRunsOneRun(a[1..], run, b);
      assert DashRuns(s) == [a[0]] + DashRuns(s[1..]);
      assert [a[0]] + (a[1..] + "-" + DashRuns(b)) == a + "-" + DashRuns(b);
    }
  }

  lemma {:induction false} DropWhitespaceRun(run: string, b: string)
    requires forall k | 0 <= k < |run| :: IsWhitespace(run[k])
    requires b == [] || !IsWhitespace(b[0])
    ensures DropWhitespace(run + b) == b
    decreases |run|
  {
    if run != [] {
      assert (run + b)[0] == run[0];
      assert (run + b)[1..] == run[1..] + b;
      DropWhitespaceRun(run[1..], b);
    } else {
      assert run + b == b;
    }
  }

  /** Applying the replacement again changes nothing. */
  lemma DashRunsIdempotent(s: string)
    ensures DashRuns(DashRuns(s)) == DashRuns(s)
  {
    DashRunsKeepsPlainText(DashRuns(s));
  }

  const ID_PREFIX: string := "input-"

  /** `id || `input-${caption?.toLowerCase().replace(/\s+/g, '-')}`` */
  function InputId(id: Option<string>, caption: Option<string>): (r: string)
    ensures Truthy(id) ==> r == id.value
    ensures !Truthy(id) ==> ID_PREFIX <= r
    ensures !Truthy(id) && caption.None? ==> r == ID_PREFIX + "undefined"
    ensures !Truthy(id) && caption.Some? ==> |r| <= |ID_PREFIX| + |caption.value|
  {
    if Truthy(id) then id.value
    else if caption.None? then ID_PREFIX + "undefined"
    else ID_PREFIX + DashRuns(LowerAscii(caption.value))
  }

  /** A derived id has no whitespace after its prefix, whatever the caption. */
  lemma DerivedIdHasNoWhitespace(caption: string)
    ensures NoWhitespace(InputId(None, Some(caption))[|ID_PREFIX|..])
  {
    var tail := DashRuns(LowerAscii(caption));
    assert (ID_PREFIX + tail)[|ID_PREFIX|..] == tail;
  }

  /** A caption of one word is lower-cased and prefixed, e.g. "Email" gives "input-email". */
  lemma EmailLabelId()
    ensures InputId(None, Some("Email")) == "input-email"
  {
    LowerWord("Email", "email");
    DashRunsKeepsPlainText("email");
  }

  /** A run of whitespace inside a caption becomes one dash of the id, e.g.
      "First Name" gives "input-first-name". */
  lemma InputIdJoinsWords(a: string, run: string, b: string)
    requires NoWhitespace(a)
    requires run != [] && forall k | 0 <= k < |run| :: IsWhitespace(run[k])
    requires b == [] || !IsWhitespace(b[0])
    ensures InputId(None, Some(a + run + b)) == ID_PREFIX + (LowerAscii(a) + "-" + DashRuns(LowerAscii(b)))
  {
    CaptionDashes(a, run, b);
    assert InputId(None, Some(a + run + b)) == ID_PREFIX + DashRuns(LowerAscii(a + run + b));
  }

  lemma CaptionDashes(a: string, run: string, b: string)
    requires NoWhitespace(a)
    requires run != [] && forall k | 0 <= k < |run| :: IsWhitespace(run[k])
    requires b == [] || !IsWhitespace(b[0])
    ensures DashRuns(LowerAscii(a + run + b)) == LowerAscii(a) + "-" + DashRuns(LowerAscii(b))
  {
    LowerAsciiSplits(a, run, b);
    LowerKeepsWhitespace(a, run, b);
    DashRunsOneRun(LowerAscii(a), LowerAscii(run), LowerAscii(b));
  }

  lemma LowerAsciiSplits(a: string, run: string, b: string)
    ensures LowerAscii(a + run + b) == LowerAscii(a) + LowerAscii(run) + LowerAscii(b)
  {
    LowerAsciiConcat(a + run, b);
    LowerAsciiConcat(a, run);
  }

  lemma LowerKeepsWhitespace(a: string, run: string, b: string)
    requires NoWhitespace(a)
    requires run != [] && forall k | 0 <= k < |run| :: IsWhitespace(run[k])
    requires b == [] || !IsWhitespace(b[0])
    ensures NoWhitespace(LowerAscii(a))
    ensures LowerAscii(run) != [] && forall k | 0 <= k < |LowerAscii(run)| :: IsWhitespace(LowerAscii(run)[k])
    ensures LowerAscii(b) == [] || !IsWhitespace(LowerAscii(b)[0])
  {
  }

  lemma LowerAsciiConcat(a: string, b: string)
    ensures LowerAscii(a + b) == LowerAscii(a) + LowerAscii(b)
  {
  }

  /** Checks one lower-casing on letters, without evaluating the whitespace test. */
  lemma LowerWord(w: string, lower: string)
    requires |w| == |lower|
    requires forall k | 0 <= k < |w| :: LowerChar(w[k]) == lower[k] && 'a' <= lower[k] <= 'z'
    ensures LowerAscii(w) == lower
    ensures NoWhitespace(lower)
  {
  }

  /** `aria-describedby` */
  function DescribedBy(inputId: string, error: Option<string>, helperText: Option<string>): (r: Option<string>)
    ensures r.Some? <==> Truthy(error) || Truthy(helperText)
    ensures Truthy(error) ==> r == Some(inputId + "-error")
    ensures !Truthy(error) && Truthy(helperText) ==> r == Some(inputId + "-helper")
  {
    if Truthy(error) then Some(inputId + "-error")
    else if Truthy(helperText) then Some(inputId + "-helper")
    else None
  }

  /** `aria-invalid={!!error}` */
  predicate AriaInvalid(error: Option<string>) {
    Truthy(error)
  }

  /** The input is marked invalid exactly when the error paragraph is the one
      rendered, and it is then described by that paragraph. */
  lemma AriaInvalidIffErrorShown(inputId: string, error: Option<string>, helperText: Option<string>)
    ensures AriaInvalid(error) <==>
      var ps := Paragraphs(inputId, error, helperText); |ps| == 1 && ps[0].ErrorText?
    ensures AriaInvalid(error) ==> DescribedBy(inputId, error, helperText) == Some(inputId + "-error")
  {
  }

  datatype Paragraph = ErrorText(pid: string, text: string) | HelperText(pid: string, text: string)

  /** The paragraphs rendered under the input: the error when there is one,
      otherwise the helper text when there is one. */
  function Paragraphs(inputId: string, error: Option<string>, helperText: Option<string>): (ps: seq<Paragraph>)
    ensures |ps| <= 1
    ensures (|ps| == 1 && ps[0].ErrorText?) <==> Truthy(error)
    ensures (|ps| == 1 && ps[0].HelperText?) <==> Truthy(helperText) && !Truthy(error)
    ensures |ps| == 1 && ps[0].ErrorText? ==> ps[0].text == error.value
    ensures |ps| == 1 && ps[0].HelperText? ==> ps[0].text == helperText.value
  {
    if Truthy(error) then [ErrorText(inputId + "-error", error.value)]
    else if Truthy(helperText) then [HelperText(inputId + "-helper", helperText.value)]
    else []
  }

  /** `aria-describedby` names the paragraph actually shown, and nothing when none is. */
  lemma DescribedByNamesShownParagraph(inputId: string, error: Option<string>, helperText: Option<string>)
    ensures var ps := Paragraphs(inputId, error, helperText);
      DescribedBy(inputId, error, helperText) == if ps == [] then None else Some(ps[0].pid)
  {
  }

  /** The rendered `<label>`: its target, its text and whether the red asterisk follows. */
  datatype LabelView = LabelView(htmlFor: string, text: string, requiredMark: bool)

  /** A label is rendered only for a non-empty caption; it points at the input
      and carries the asterisk exactly when the input is required. */
  function Label(inputId: string, caption: Option<string>, required: bool): (l: Option<LabelView>)
    ensures l.Some? <==> Truthy(caption)
    ensures l.Some? ==> l.value.htmlFor == inputId && l.value.text == caption.value
    ensures l.Some? ==> (l.value.requiredMark <==> required)
  {
    if Truthy(caption) then Some(LabelView(inputId, caption.value, required)) else None
  }

}
