/** Styled text as the widgets build it with Rich's `Text.append`: a sequence
    of spans, each a piece of text with one style name. */
module Rich {

  datatype Span = Span(text: string, style: string)

  type StyledText = seq<Span>

  /** The characters a styled text shows, styles dropped. */
  function Plain(t: StyledText): string
    decreases |t|
  {
    if t == [] then "" else t[0].text + Plain(t[1..])
  }

  lemma {:induction false} PlainAppend(a: StyledText, b: StyledText)
    ensures Plain(a + b) == Plain(a) + Plain(b)
    decreases |a|
  {
    if a != [] {
      assert (a + b)[0] == a[0];
      assert (a + b)[1..] == a[1..] + b;
      PlainAppend(a[1..], b);
    } else {
      assert a + b == b;
    }
  }
}
