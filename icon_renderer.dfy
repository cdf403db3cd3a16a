/**
 * The icon renderer (src/presentation/components/IconRenderer/IconRenderer.tsx):
 * an icon value is nothing, an image address or a piece of text.
 */
module IconRenderer {
  import opened Js
  import opened JsString

  const DefaultSize := 24

  /** What is rendered: nothing, an image of `size` by `size`, or text at font size `size`. */
  datatype Rendered = Nothing | Image(src: string, width: int, height: int) | Text(text: string, fontSize: int)

  /** An address the component loads as an image (the test is case-sensitive). */
  predicate IsImageUrl(value: string) {
    StartsWith(value, "http://") || StartsWith(value, "https://")
  }

  /** The element the component renders for `value` and the optional `size`. */
  function RenderIcon(value: string, size: Option<int>): (r: Rendered)
    ensures r.Nothing? <==> value == ""
    ensures r.Image? <==> IsImageUrl(value)
    ensures r.Image? ==> r.width == r.height == ValueOr(size, DefaultSize)
    ensures r.Text? ==> r.fontSize == ValueOr(size, DefaultSize)
  {
    var s := ValueOr(size, DefaultSize);
    if value == "" then Nothing
    else if IsImageUrl(value) then Image(value, s, s)
    else Text(value, s)
  }

  /** The value an element shows: its address or its text. */
  function ShownValue(r: Rendered): string {
    match r
    case Nothing => ""
    case Image(src, _, _) => src
    case Text(text, _) => text
  }

  /** Rendering loses nothing of the value: it is shown exactly as given. */
  lemma RenderIconShowsValue(value: string, size: Option<int>)
    ensures ShownValue(RenderIcon(value, size)) == value
  {
  }

  /** Leaving out the size is the same as asking for 24. */
  lemma RenderIconDefaultSize(value: string)
    ensures RenderIcon(value, None) == RenderIcon(value, Some(DefaultSize))
  {
  }

  /** An upper-case scheme is not recognised: such a value is rendered as text. */
  lemma UpperCaseSchemeIsText(size: Option<int>)
    ensures RenderIcon("HTTPS://example.com/icon.png", size).Text?
  {
    assert !StartsWith("HTTPS://example.com/icon.png", "https://") by {
      assert "HTTPS://example.com/icon.png"[0] != "https://"[0];
    }
    assert !StartsWith("HTTPS://example.com/icon.png", "http://") by {
      assert "HTTPS://example.com/icon.png"[0] != "http://"[0];
    }
  }
}
