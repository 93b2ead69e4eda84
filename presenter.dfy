/** printStatus: the one glyph the command prints for a build status. */
module Presenter {
  import opened Aggregation

  datatype Colour = Green | Red | Cyan

  /** A Font Awesome code point and the colour chalk paints it in. */
  datatype Glyph = Glyph(symbol: char, colour: Colour)

  const Check: Glyph := Glyph('\U{F00C}', Green)
  const Cross: Glyph := Glyph('\U{F00D}', Red)
  const Question: Glyph := Glyph('\U{F128}', Cyan)

  /** The `switch` on the status text: `success` and `fail` have their own
      glyph and every other text, whatever it is, falls to the default. */
  function PrintStatus(status: string): (g: Glyph)
    ensures g == Check <==> status == "success"
    ensures g == Cross <==> status == "fail"
    ensures g == Question <==> status != "success" && status != "fail"
  {
    if status == "success" then Check
    else if status == "fail" then Cross
    else Question
  }

  /** For a freshly aggregated status the glyph tells the precedence case:
      cross iff some job failed, check iff none failed and one succeeded. */
  lemma PrintAggregate(jobs: seq<JobRecord>)
    ensures PrintStatus(Text(Aggregate(jobs))) == Cross <==> HasStatus(jobs, "failed")
    ensures PrintStatus(Text(Aggregate(jobs))) == Check <==>
      !HasStatus(jobs, "failed") && HasStatus(jobs, "success")
    ensures PrintStatus(Text(Aggregate(jobs))) == Question <==>
      !HasStatus(jobs, "failed") && !HasStatus(jobs, "success")
  {
  }
}
