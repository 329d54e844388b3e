/** The colour normaliser: shorthand hex colours become eight-digit RGBA. */
module Colors {
  import opened Text

  /** A kind of nice blue, the colour of tasks that name none. */
  const DEFAULT_COLOR: string := "4D89F9FF"

  /**
   * `parse_color`: three digits RGB become RRGGBBFF, four digits RGBA become
   * RRGGBBAA, six digits RRGGBB gain the opaque alpha FF; the result is
   * upper-cased, and a colour of any other length is only upper-cased.
   * No character is checked to be a hex digit.
   */
  function ParseColor(color: string): (r: string)
    ensures |color| == 3 ==>
              r == [UpperChar(color[0]), UpperChar(color[0]), UpperChar(color[1]), UpperChar(color[1]),
                    UpperChar(color[2]), UpperChar(color[2]), 'F', 'F']
    ensures |color| == 4 ==>
              |r| == 8 && forall k :: 0 <= k < 4 ==> r[2 * k] == r[2 * k + 1] == UpperChar(color[k])
    ensures |color| == 6 ==> r == Upper(color) + "FF"
    ensures |color| != 3 && |color| != 4 && |color| != 6 ==> r == Upper(color)
    ensures forall i :: 0 <= i < |r| ==> !IsLower(r[i])
  {
    var c3 := if |color| == 3 then [color[0], color[0], color[1], color[1], color[2], color[2]] + "FF" else color;
    var c4 := if |c3| == 4 then [c3[0], c3[0], c3[1], c3[1], c3[2], c3[2], c3[3], c3[3]] else c3;
    var c6 := if |c4| == 6 then c4 + "FF" else c4;
    assert |color| == 6 ==> Upper(c6) == Upper(color) + Upper("FF");
    Upper(c6)
  }

  /** Shorthand colours (three, four, six digits) and full eight-digit colours all normalise to eight characters. */
  lemma ParseColorLength(color: string)
    requires |color| in {3, 4, 6, 8}
    ensures |ParseColor(color)| == 8
  {
  }

  /** Normalising twice is normalising once: a normalised colour is a fixed point. */
  lemma ParseColorIdempotent(color: string)
    ensures ParseColor(ParseColor(color)) == ParseColor(color)
  {
    var r := ParseColor(color);
    if |color| == 3 || |color| == 4 || |color| == 6 {
      assert |r| == 8;
    }
    UpperFixed(r);
  }

  /** The documented examples: `'00c'`, `'f00'` and `'f00d'`. */
  lemma ParseColorExamples()
    ensures ParseColor("00c") == "0000CCFF"
    ensures ParseColor("f00") == "FF0000FF"
    ensures ParseColor("f00d") == "FF0000DD"
  {
  }

  /** The default colour is already normalised. */
  lemma DefaultColorNormalised()
    ensures ParseColor(DEFAULT_COLOR) == DEFAULT_COLOR
  {
    UpperFixed(DEFAULT_COLOR);
  }
}
