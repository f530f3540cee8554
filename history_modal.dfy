/**
 * The history dialog (client/src/components/history-modal.tsx): the colour class of a stored
 * score and the shortened job description each entry shows.
 */
module HistoryModal {
  const Green := "text-green-600 dark:text-green-400"
  const Yellow := "text-yellow-600 dark:text-yellow-400"
  const Red := "text-red-600 dark:text-red-400"

  /** `getScoreColor`: green from 80, yellow from 60, red below. */
  function GetScoreColor(score: real): (r: string)
    ensures r == Green <==> score >= 80.0
    ensures r == Yellow <==> 60.0 <= score < 80.0
    ensures r == Red <==> score < 60.0
  {
    if score >= 80.0 then Green
    else if score >= 60.0 then Yellow
    else Red
  }

  /** The tiers in order, red lowest. */
  function Rank(color: string): nat {
    if color == Green then 2 else if color == Yellow then 1 else 0
  }

  /** A higher score never gets a lower tier. */
  lemma ScoreColorMonotone(a: real, b: real)
    requires a <= b
    ensures Rank(GetScoreColor(a)) <= Rank(GetScoreColor(b))
  {
  }

  const Ellipsis := "..."

  /** `truncateText`: short text is kept, longer text is cut to `maxLength` characters and "..." appended. */
  function TruncateText(text: string, maxLength: nat): (r: string)
    ensures |text| <= maxLength ==> r == text
    ensures |text| > maxLength ==> |r| == maxLength + 3 && r[..maxLength] == text[..maxLength] && r[maxLength..] == Ellipsis
  {
    if |text| <= maxLength then text
    else
      var r := text[..maxLength] + Ellipsis;
      assert r[..maxLength] == text[..maxLength];
      r
  }

  /** A truncated text is cut the same way again, so truncating twice is truncating once. */
  lemma TruncateTextIdempotent(text: string, maxLength: nat)
    ensures TruncateText(TruncateText(text, maxLength), maxLength) == TruncateText(text, maxLength)
  {
    if |text| > maxLength {
      var once := TruncateText(text, maxLength);
      assert once[..maxLength] == text[..maxLength];
    }
  }
}
