/** Character-level facts about the text the run pipeline carries. */
module Text {

  /** The characters Rust's `str::trim` removes: the Unicode White_Space property. */
  predicate IsWhitespace(c: char) {
    || '\U{9}' <= c <= '\U{D}'
    || c in {' ', '\U{85}', '\U{A0}', '\U{1680}', '\U{2028}', '\U{2029}', '\U{202F}', '\U{205F}', '\U{3000}'}
    || '\U{2000}' <= c <= '\U{200A}'
  }

  /** `text.trim().is_empty()`. */
  predicate IsBlank(text: string) {
    forall i :: 0 <= i < |text| ==> IsWhitespace(text[i])
  }

  /** The characters of `text` that trimming can never remove, in order. */
  function NonWhitespace(text: string): string {
    if text == "" then ""
    else (if IsWhitespace(text[0]) then "" else [text[0]]) + NonWhitespace(text[1..])
  }

  lemma {:induction false} NonWhitespaceConcat(a: string, b: string)
    ensures NonWhitespace(a + b) == NonWhitespace(a) + NonWhitespace(b)
  {
    if a == "" {
      assert a + b == b;
    } else {
      assert (a + b)[1..] == a[1..] + b;
      NonWhitespaceConcat(a[1..], b);
    }
  }

  lemma {:induction false} BlankIffNoCharacters(text: string)
    ensures IsBlank(text) <==> NonWhitespace(text) == ""
  {
    if text == "" {
    } else {
      BlankIffNoCharacters(text[1..]);
      if IsBlank(text[1..]) && IsWhitespace(text[0]) {
        assert forall i :: 0 < i < |text| ==> text[i] == text[1..][i - 1];
      }
      if IsBlank(text) {
        assert forall i :: 0 <= i < |text[1..]| ==> text[1..][i] == text[i + 1];
      }
    }
  }

  lemma EmptyIsBlank()
    ensures IsBlank("") && NonWhitespace("") == ""
  {
  }

  /** `text.trim_start()`. */
  function TrimStart(text: string): (trimmed: string)
    ensures |trimmed| <= |text|
    ensures trimmed != "" ==> !IsWhitespace(trimmed[0])
    ensures trimmed == "" <==> IsBlank(text)
    ensures text != "" && !IsWhitespace(text[0]) ==> trimmed == text
  {
    if text == "" then ""
    else if IsWhitespace(text[0]) then
      assert IsBlank(text) <==> IsBlank(text[1..]) by {
        assert forall i :: 0 < i < |text| ==> text[i] == text[1..][i - 1];
      }
      TrimStart(text[1..])
    else text
  }

  /** Trimming the start takes away leading whitespace and nothing else. */
  lemma {:induction false} TrimStartIsASuffix(text: string)
    ensures var skipped := |text| - |TrimStart(text)|;
            TrimStart(text) == text[skipped..] && forall i :: 0 <= i < skipped ==> IsWhitespace(text[i])
  {
    if text == "" || !IsWhitespace(text[0]) {
    } else {
      TrimStartIsASuffix(text[1..]);
      var skipped := |text| - |TrimStart(text)|;
      assert text[1..][skipped - 1..] == text[skipped..];
      forall i | 0 <= i < skipped ensures IsWhitespace(text[i]) {
        if i > 0 {
          assert text[i] == text[1..][i - 1];
        }
      }
    }
  }

  /** UTF-8 bytes of one character, as `str::len` counts them. */
  function CharBytes(c: char): nat {
    if c < '\U{80}' then 1 else if c < '\U{800}' then 2 else if c < '\U{10000}' then 3 else 4
  }

  /** `text.len()`: the UTF-8 bytes of a text. */
  function Bytes(text: string): nat {
    if text == "" then 0 else Bytes(text[..|text| - 1]) + CharBytes(text[|text| - 1])
  }

  lemma {:induction false} BytesConcat(a: string, b: string)
    ensures Bytes(a + b) == Bytes(a) + Bytes(b)
  {
    if b == "" {
      assert a + b == a;
    } else {
      assert (a + b)[..|a + b| - 1] == a + b[..|b| - 1];
      BytesConcat(a, b[..|b| - 1]);
    }
  }
}
