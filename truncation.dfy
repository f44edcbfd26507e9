/**
 * The display truncation the pickers apply to long paths
 * (src/skin/widgets/directory_picker.rs and file_picker.rs): text longer
 * than the limit is replaced by "..." and its tail, so that the result is
 * exactly as long as the limit. Text is ASCII, so byte and character
 * positions agree.
 */
module Truncation {

  /** Text longer than `limit` becomes "..." followed by its last `limit - 3` characters. */
  function Ellipsize(text: string, limit: nat): (r: string)
    requires limit >= 3
    ensures |text| <= limit ==> r == text
    ensures |text| > limit ==> |r| == limit && r[..3] == "..." && r[3..] == text[|text| - (limit - 3)..]
  {
    if |text| > limit then "..." + text[|text| - (limit - 3)..] else text
  }

  /** The displayed text never exceeds the limit and ends with the last `limit - 3` characters of the text. */
  lemma {:induction false} EllipsizeBounded(text: string, limit: nat)
    requires limit >= 3
    ensures |Ellipsize(text, limit)| <= limit
    ensures |text| >= limit - 3 ==> var r := Ellipsize(text, limit);
              |r| >= limit - 3 && r[|r| - (limit - 3)..] == text[|text| - (limit - 3)..]
  {
    var r := Ellipsize(text, limit);
    if |text| > limit {
      assert r[|r| - (limit - 3)..] == r[3..];
    }
  }

  /** Truncating again changes nothing. */
  lemma {:induction false} EllipsizeIdempotent(text: string, limit: nat)
    requires limit >= 3
    ensures Ellipsize(Ellipsize(text, limit), limit) == Ellipsize(text, limit)
  {
  }
}
