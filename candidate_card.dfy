/**
 * The colours of a candidate's scores on the ranking card: 80 and above is
 * emerald, 60 up to 80 amber, below 60 red.
 */
module CandidateCard {

  datatype ScoreBand = Red | Amber | Emerald

  function Rank(b: ScoreBand): nat {
    match b
    case Red => 0
    case Amber => 1
    case Emerald => 2
  }

  /** The band both colour functions share. */
  function BandOf(score: real): (b: ScoreBand)
    ensures b == Emerald <==> score >= 80.0
    ensures b == Amber <==> 60.0 <= score < 80.0
    ensures b == Red <==> score < 60.0
  {
    if score >= 80.0 then Emerald else if score >= 60.0 then Amber else Red
  }

  /** `getScoreColor`: the background class of a score bar. */
  function ScoreColor(score: real): (c: string)
    ensures c == "bg-emerald-500" <==> score >= 80.0
    ensures c == "bg-amber-500" <==> 60.0 <= score < 80.0
    ensures c == "bg-red-500" <==> score < 60.0
  {
    if score >= 80.0 then "bg-emerald-500"
    else if score >= 60.0 then "bg-amber-500"
    else "bg-red-500"
  }

  /** `getScoreTextColor`: the text class of a score. */
  function ScoreTextColor(score: real): (c: string)
    ensures c == "text-emerald-600" <==> score >= 80.0
    ensures c == "text-amber-600" <==> 60.0 <= score < 80.0
    ensures c == "text-red-600" <==> score < 60.0
  {
    if score >= 80.0 then "text-emerald-600"
    else if score >= 60.0 then "text-amber-600"
    else "text-red-600"
  }

  function Background(b: ScoreBand): string {
    match b
    case Emerald => "bg-emerald-500"
    case Amber => "bg-amber-500"
    case Red => "bg-red-500"
  }

  function Foreground(b: ScoreBand): string {
    match b
    case Emerald => "text-emerald-600"
    case Amber => "text-amber-600"
    case Red => "text-red-600"
  }

  /** The bar and the number of a score are always coloured from the same band. */
  lemma ColoursAgree(score: real)
    ensures ScoreColor(score) == Background(BandOf(score))
    ensures ScoreTextColor(score) == Foreground(BandOf(score))
  {
  }

  /** A higher score never gets a worse band. */
  lemma BandMonotone(a: real, b: real)
    requires a <= b
    ensures Rank(BandOf(a)) <= Rank(BandOf(b))
  {
  }
}
