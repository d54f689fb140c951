/** Formatted text: a sequence of sections, each a run of text with an optional scale and font stack. */
module Formatted {
  import opened Wrappers

  datatype FormattedSection = FormattedSection(text: string, scale: Option<real>, fontStack: Option<seq<string>>)

  datatype Formatted = Formatted(sections: seq<FormattedSection>)

  /** `new FormattedSection(text, scale, fontStack = null)`: an omitted font stack is null. */
  function NewSection(text: string, scale: Option<real>, fontStack: Option<seq<string>> := None): (s: FormattedSection)
    ensures s.text == text && s.scale == scale && s.fontStack == fontStack
  {
    FormattedSection(text, scale, fontStack)
  }

  lemma SectionWithoutFontStack(text: string, scale: Option<real>)
    ensures NewSection(text, scale).fontStack == None
  {
  }

  /** `Formatted.fromString`: one unstyled section holding the whole string. */
  function FromString(unformatted: string): (f: Formatted)
    ensures |f.sections| == 1
    ensures f.sections[0] == FormattedSection(unformatted, None, None)
  {
    Formatted([NewSection(unformatted, None, None)])
  }

  /** The texts of `sections[i..]` concatenated in order. */
  function Concat(sections: seq<FormattedSection>): (s: string)
    decreases |sections|
  {
    if sections == [] then "" else sections[0].text + Concat(sections[1..])
  }

  /** `Formatted#toString`: the section texts joined with no separator. */
  function ToString(f: Formatted): (s: string)
    ensures |s| == TextLength(f.sections)
  {
    ConcatLength(f.sections);
    Concat(f.sections)
  }

  function TextLength(sections: seq<FormattedSection>): nat
    decreases |sections|
  {
    if sections == [] then 0 else |sections[0].text| + TextLength(sections[1..])
  }

  lemma {:induction false} ConcatLength(sections: seq<FormattedSection>)
    ensures |Concat(sections)| == TextLength(sections)
    decreases |sections|
  {
    if sections != [] { ConcatLength(sections[1..]); }
  }

  /** Concatenating two runs of sections concatenates their texts. */
  lemma {:induction false} ConcatAppend(a: seq<FormattedSection>, b: seq<FormattedSection>)
    ensures Concat(a + b) == Concat(a) + Concat(b)
    decreases |a|
  {
    if a == [] {
      assert a + b == b;
    } else {
      assert (a + b)[1..] == a[1..] + b;
      ConcatAppend(a[1..], b);
    }
  }

  /** Round trip: `Formatted.fromString(s).toString() == s`. */
  lemma FromStringRoundTrip(s: string)
    ensures ToString(FromString(s)) == s
  {
    assert Concat(FromString(s).sections[1..]) == "";
  }
}
