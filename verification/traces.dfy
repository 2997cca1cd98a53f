/**
  Sequences of events: what holds in every state the screen can reach from
  the initial one, and how many insert calls a sequence of events makes.
 */
module SurveyTraces {
  import opened Wrappers
  import opened Survey

  /** The state after applying `es` in order. */
  function Run(k: Kiosk, es: seq<Event>): Kiosk
    decreases |es|
  {
    if es == [] then k else Run(Step(k, es[0]), es[1..])
  }

  /** Every event of `es` can be delivered in the state it meets. */
  predicate Valid(k: Kiosk, es: seq<Event>)
    decreases |es|
  {
    es == [] || (Enabled(k, es[0]) && Valid(Step(k, es[0]), es[1..]))
  }

  /** Running a longer sequence is running its prefix and then the last event. */
  lemma {:induction false} RunSnoc(k: Kiosk, es: seq<Event>, e: Event)
    ensures Run(k, es + [e]) == Step(Run(k, es), e)
    decreases |es|
  {
    if es != [] {
      assert (es + [e])[1..] == es[1..] + [e];
      RunSnoc(Step(k, es[0]), es[1..], e);
    }
  }

  /** Number of presses of the finish button in `es`. */
  function Submits(es: seq<Event>): (n: nat)
    ensures n <= |es|
  {
    if es == [] then 0 else (if es[0].SubmitClicked? then 1 else 0) + Submits(es[1..])
  }

  /** The invariant holds after any sequence of deliverable events. */
  lemma {:induction false} RunPreservesInv(k: Kiosk, es: seq<Event>)
    requires Inv(k) && Valid(k, es)
    ensures Inv(Run(k, es))
    decreases |es|
  {
    if es != [] {
      StepPreservesInv(k, es[0]);
      RunPreservesInv(Step(k, es[0]), es[1..]);
    }
  }

  /**
    In every reachable state the step is 1, 2 or 3, a step past the first
    implies a chosen score, the score is on the scale, every rating is in
    0..5, and every row sent carries a score, this kiosk's identifier and
    all five ratings.
   */
  lemma Reachable(es: seq<Event>)
    requires Valid(Initial(), es)
    ensures Run(Initial(), es).form.step in {1, 2, 3}
    ensures Run(Initial(), es).form.step >= 2 ==> Run(Initial(), es).form.score.Some?
    ensures ValidScore(Run(Initial(), es).form.score)
    ensures ValidRatings(Run(Initial(), es).form.ratings)
    ensures Run(Initial(), es).form.loading <==> Run(Initial(), es).inFlight.Some?
    ensures forall i :: 0 <= i < |Run(Initial(), es).inserted| ==> ValidPayload(Run(Initial(), es).inserted[i])
  {
    InitialState();
    RunPreservesInv(Initial(), es);
  }

  /** Each press of the finish button makes exactly one insert call, and nothing else makes one. */
  lemma {:induction false} OneInsertPerSubmit(k: Kiosk, es: seq<Event>)
    ensures |Run(k, es).inserted| == |k.inserted| + Submits(es)
    ensures Run(k, es).inserted[..|k.inserted|] == k.inserted
    decreases |es|
  {
    if es != [] {
      OneInsertPerSubmit(Step(k, es[0]), es[1..]);
    }
  }

  /**
    While an insert is outstanding, no sequence of deliverable events that
    lacks its reply makes another call, however often the button is tapped.
   */
  lemma {:induction false} NoSecondInsertWhileLoading(k: Kiosk, es: seq<Event>)
    requires Inv(k) && k.form.loading && Valid(k, es)
    requires forall i :: 0 <= i < |es| ==> !es[i].InsertReturned?
    ensures Run(k, es).inserted == k.inserted
    ensures Run(k, es).form.loading
    decreases |es|
  {
    if es != [] {
      StepPreservesInv(k, es[0]);
      NoSecondInsertWhileLoading(Step(k, es[0]), es[1..]);
    }
  }

  /** The walk: score 9, the timer, four stars for the facilities, "great", finish. */
  function Walkthrough(): seq<Event>
  {
    [NpsClicked(9), TimerFired, StarClicked(Instalaciones, 4), CommentTyped("great"), SubmitClicked]
  }

  /**
    The walk is deliverable and sends exactly one row holding the score, the
    comment, the kiosk's identifier and the five ratings, untouched ones at 0;
    a stored reply then shows the thank-you step.
   */
  lemma WalkthroughPayload()
    ensures Valid(Initial(), Walkthrough())
    ensures Run(Initial(), Walkthrough()).inserted ==
              [Payload(Some(9), "great", "Squash",
                       map[Instalaciones := 4, Limpieza := 0, Atencion := 0, Ambiente := 0, CalidadPrecio := 0])]
    ensures Run(Initial(), Walkthrough() + [InsertReturned(Stored)]).form.step == 3
  {
    var k0 := Initial();
    var k1 := Step(k0, NpsClicked(9));
    var k2 := Step(k1, TimerFired);
    var k3 := Step(k2, StarClicked(Instalaciones, 4));
    var k4 := Step(k3, CommentTyped("great"));
    var k5 := Step(k4, SubmitClicked);
    var es := Walkthrough();
    assert es[1..][1..][1..][1..][1..] == [];
    assert Run(k0, es) == k5;
    assert k3.form.ratings == map[Instalaciones := 4, Limpieza := 0, Atencion := 0, Ambiente := 0, CalidadPrecio := 0];
    RunSnoc(k0, es, InsertReturned(Stored));
  }
}
