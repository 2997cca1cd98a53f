/**
  Colouring of the eleven NPS buttons (0..10). Before a score is chosen no
  button has a class; afterwards the chosen button shows its sentiment band
  and every other button is dimmed.
 */
module NpsButtons {
  import opened Wrappers

  /** The NPS buttons are numbered 0..MaxScore. */
  const MaxScore: int := 10

  /** The three Net Promoter bands. */
  datatype Sentiment = Detractor | Passive | Promoter

  /** Band of a score: 0..6 detractor, 7..8 passive, 9..10 promoter. */
  function Classify(score: int): Sentiment
  {
    if score <= 6 then Detractor
    else if score <= 8 then Passive
    else Promoter
  }

  /** Colour word shown for each band. */
  function Hue(s: Sentiment): string
  {
    match s
    case Detractor => "red"
    case Passive => "yellow"
    case Promoter => "green"
  }

  /** Class of button `num` while `selected` is the stored score (None is `null`). */
  function ButtonClass(selected: Option<int>, num: int): (c: string)
    ensures selected.None? <==> c == ""
    ensures c == "dimmed" <==> (selected.Some? && num != selected.value)
    ensures selected == Some(num) <==> c == "selected " + Hue(Classify(num))
  {
    match selected
    case None => ""
    case Some(score) =>
      if num == score then
        if num <= 6 then "selected red"
        else if num <= 8 then "selected yellow"
        else "selected green"
      else "dimmed"
  }

  /** A class marks its button as the chosen one. */
  predicate IsSelected(c: string)
  {
    |c| >= 8 && c[..8] == "selected"
  }

  /** Buttons of the scale whose class marks them as chosen. */
  function SelectedButtons(selected: Option<int>): set<int>
  {
    set num | 0 <= num <= MaxScore && IsSelected(ButtonClass(selected, num))
  }

  /** With no score stored every button of the scale has the empty class. */
  lemma NoScoreNoClass(num: int)
    requires 0 <= num <= MaxScore
    ensures ButtonClass(None, num) == ""
    ensures SelectedButtons(None) == {}
  {
  }

  /**
    With a score on the scale stored, the chosen button carries the colour of
    its band, each other button is dimmed, and exactly one button is chosen.
   */
  lemma ExactlyOneSelected(score: int, num: int)
    requires 0 <= score <= MaxScore && 0 <= num <= MaxScore
    ensures num != score ==> ButtonClass(Some(score), num) == "dimmed"
    ensures (ButtonClass(Some(score), score) == "selected red") <==> score <= 6
    ensures (ButtonClass(Some(score), score) == "selected yellow") <==> 7 <= score <= 8
    ensures (ButtonClass(Some(score), score) == "selected green") <==> 9 <= score
    ensures SelectedButtons(Some(score)) == {score}
    ensures |SelectedButtons(Some(score))| == 1
  {
  }
}
