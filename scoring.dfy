/** The score, the climb record it is derived from, and the stored best score. */
module Scoring {
  import opened Wrappers

  /** The player's starting height record (y grows downward). */
  const StartHeight: int := 1200
  /** Pixels climbed per point. */
  const PixelsPerPoint: int := 20

  /** The score for a height record: whole steps of PixelsPerPoint climbed
      above the start (floor division). */
  function Score(maxHeight: int): (s: int)
    ensures PixelsPerPoint * s <= StartHeight - maxHeight < PixelsPerPoint * s + PixelsPerPoint
    ensures maxHeight <= StartHeight ==> 0 <= s
    ensures maxHeight == StartHeight ==> s == 0
  {
    (StartHeight - maxHeight) / PixelsPerPoint
  }

  /** A higher record (smaller y) never scores less. */
  lemma ScoreMonotone(h1: int, h2: int)
    requires h1 <= h2
    ensures Score(h2) <= Score(h1)
  {
  }

  /** The height record after the player is seen at `y`. */
  function NextMaxHeight(maxHeight: int, y: int): (m: int)
    ensures m <= maxHeight && m <= y
    ensures m == maxHeight || m == y
  {
    if y < maxHeight then y else maxHeight
  }

  /** The height record after the player is seen at each of `ys` in turn. */
  function HeightAfter(maxHeight: int, ys: seq<int>): int
    decreases |ys|
  {
    if |ys| == 0 then maxHeight else HeightAfter(NextMaxHeight(maxHeight, ys[0]), ys[1..])
  }

  /** Along any trajectory the record is the lowest y seen (or the old record)
      and the score never decreases, even while the player falls. */
  lemma {:induction false} ScoreNeverDecreases(maxHeight: int, ys: seq<int>)
    ensures HeightAfter(maxHeight, ys) <= maxHeight
    ensures forall i :: 0 <= i < |ys| ==> HeightAfter(maxHeight, ys) <= ys[i]
    ensures HeightAfter(maxHeight, ys) == maxHeight || HeightAfter(maxHeight, ys) in ys
    ensures Score(maxHeight) <= Score(HeightAfter(maxHeight, ys))
    decreases |ys|
  {
    if |ys| > 0 {
      var m := NextMaxHeight(maxHeight, ys[0]);
      ScoreNeverDecreases(m, ys[1..]);
      ScoreMonotone(HeightAfter(m, ys[1..]), maxHeight);
      forall i | 0 <= i < |ys|
        ensures HeightAfter(maxHeight, ys) <= ys[i]
      {
        if i > 0 {
          assert ys[i] == ys[1..][i - 1];
        }
      }
      assert ys == [ys[0]] + ys[1..];
    }
  }

  /** What the key-value store holds under the high-score key: nothing, text
      that parses to an integer, or text that does not. */
  datatype StoredBest = Absent | Numeric(n: int) | NotANumber

  /** The best score as the game over handler reads it: a missing entry reads
      as 0, unparsable text as no number at all (every comparison with it fails). */
  function BestOf(stored: StoredBest): (r: Option<int>)
    ensures r.None? <==> stored.NotANumber?
    ensures stored.Absent? ==> r == Some(0)
    ensures stored.Numeric? ==> r == Some(stored.n)
  {
    match stored
    case Absent => Some(0)
    case Numeric(n) => Some(n)
    case NotANumber => None
  }

  function Max(a: int, b: int): int
  {
    if a < b then b else a
  }

  /** The store after a game over with `score`: the score is written only when
      it beats a readable best, so a readable best becomes the larger of the two. */
  function HighScoreAfter(score: int, stored: StoredBest): (r: StoredBest)
    ensures r == stored || r == Numeric(score)
    ensures BestOf(stored).Some? ==> BestOf(r) == Some(Max(score, BestOf(stored).value))
    ensures BestOf(stored).None? ==> r == stored
    ensures r != stored <==> BestOf(stored).Some? && score > BestOf(stored).value
  {
    match BestOf(stored)
    case Some(best) => if score > best then Numeric(score) else stored
    case None => stored
  }

  /** A score of 150 replaces a stored 100 and leaves a stored 200 alone. */
  lemma HighScoreScenarios()
    ensures HighScoreAfter(150, Numeric(100)) == Numeric(150)
    ensures HighScoreAfter(150, Numeric(200)) == Numeric(200)
  {
  }
}
