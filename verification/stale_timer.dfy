/**
  Every NPS click schedules its own 400 ms timer and none is ever cancelled,
  so two clicks on step 1 leave a second timer that can fire after the form
  has moved on. If the insert is stored before that timer fires, the
  callback takes the thank-you step back to step 2, with the answers still
  in place and the finish button enabled again: a second press inserts a
  duplicate row. `StaleTimerReopensForm` exhibits this. `StepGuarded` is the
  evidently intended behaviour, in which the pause only delays the move from
  step 1 to step 2; under it the thank-you step is final.
 */
module StaleTimer {
  import opened Wrappers
  import opened Survey
  import opened SurveyTraces

  /** Two quick clicks, the first timer, finish, a stored reply, the second timer, finish again. */
  function DoubleTapTrace(): seq<Event>
  {
    [NpsClicked(5), NpsClicked(9), TimerFired, SubmitClicked, InsertReturned(Stored), TimerFired, SubmitClicked]
  }

  /** As written: the thank-you step is left again and the same answers are inserted twice. */
  lemma StaleTimerReopensForm()
    ensures Valid(Initial(), DoubleTapTrace())
    ensures Run(Initial(), DoubleTapTrace()[..5]).form.step == 3
    ensures Run(Initial(), DoubleTapTrace()[..6]).form.step == 2
    ensures |Run(Initial(), DoubleTapTrace()).inserted| == 2
    ensures Run(Initial(), DoubleTapTrace()).inserted[0] == Run(Initial(), DoubleTapTrace()).inserted[1]
  {
    var es := DoubleTapTrace();
    var k0 := Initial();
    var k1 := Step(k0, es[0]);
    var k2 := Step(k1, es[1]);
    var k3 := Step(k2, es[2]);
    var k4 := Step(k3, es[3]);
    var k5 := Step(k4, es[4]);
    var k6 := Step(k5, es[5]);
    var k7 := Step(k6, es[6]);
    assert k5.form.step == 3;
    assert k6.form.step == 2;
    assert es[..0] == [];
    var i := 0;
    while i < |es|
      invariant 0 <= i <= |es|
      invariant Run(k0, es[..i]) == [k0, k1, k2, k3, k4, k5, k6, k7][i]
    {
      RunSnoc(k0, es[..i], es[i]);
      assert es[..i] + [es[i]] == es[..i + 1];
      i := i + 1;
    }
    assert es[..7] == es;
  }

  /** One event, with a timer callback that only moves the form off step 1. */
  function StepGuarded(k: Kiosk, e: Event): (k': Kiosk)
    ensures !(e.TimerFired? && k.form.step != 1) ==> k' == Step(k, e)
    ensures e.TimerFired? && k.form.step != 1 ==> k'.form == k.form
  {
    if e.TimerFired? && k.form.step != 1 then
      k.(pendingTimers := if k.pendingTimers == 0 then 0 else k.pendingTimers - 1)
    else Step(k, e)
  }

  function RunGuarded(k: Kiosk, es: seq<Event>): Kiosk
    decreases |es|
  {
    if es == [] then k else RunGuarded(StepGuarded(k, es[0]), es[1..])
  }

  predicate ValidGuarded(k: Kiosk, es: seq<Event>)
    decreases |es|
  {
    es == [] || (Enabled(k, es[0]) && ValidGuarded(StepGuarded(k, es[0]), es[1..]))
  }

  /** The guarded step keeps the invariant of the screen. */
  lemma StepGuardedPreservesInv(k: Kiosk, e: Event)
    requires Inv(k) && Enabled(k, e)
    ensures Inv(StepGuarded(k, e))
  {
    StepPreservesInv(k, e);
  }

  /**
    Under the guarded step the thank-you step is final: no deliverable event
    leaves it and no further row is inserted.
   */
  lemma {:induction false} ThanksIsFinal(k: Kiosk, es: seq<Event>)
    requires Inv(k) && k.form.step == 3 && ValidGuarded(k, es)
    ensures RunGuarded(k, es).form.step == 3
    ensures RunGuarded(k, es).inserted == k.inserted
    decreases |es|
  {
    if es != [] {
      StepGuardedPreservesInv(k, es[0]);
      ThanksIsFinal(StepGuarded(k, es[0]), es[1..]);
    }
  }

  /** The guarded step still lets the timer move a chosen score from step 1 to step 2. */
  lemma GuardedTimerLeavesScoring(k: Kiosk)
    requires Inv(k) && k.form.step == 1 && k.pendingTimers > 0
    ensures StepGuarded(k, TimerFired).form.step == 2
    ensures StepGuarded(k, TimerFired).form.score.Some?
  {
  }

  /**
    On the double-tap trace the first six events are deliverable under the
    guarded step, which stays on the thank-you step with one row sent, and
    the duplicate press of finish can no longer be delivered.
   */
  lemma GuardedDoubleTap()
    ensures ValidGuarded(Initial(), DoubleTapTrace()[..6])
    ensures !Enabled(RunGuarded(Initial(), DoubleTapTrace()[..6]), SubmitClicked)
    ensures RunGuarded(Initial(), DoubleTapTrace()[..6]).form.step == 3
    ensures |RunGuarded(Initial(), DoubleTapTrace()[..6]).inserted| == 1
  {
    var es := DoubleTapTrace()[..6];
    assert es == [NpsClicked(5), NpsClicked(9), TimerFired, SubmitClicked, InsertReturned(Stored), TimerFired];
    var k0 := Initial();
    var k1 := StepGuarded(k0, NpsClicked(5));
    var k2 := StepGuarded(k1, NpsClicked(9));
    var k3 := StepGuarded(k2, TimerFired);
    var k4 := StepGuarded(k3, SubmitClicked);
    var k5 := StepGuarded(k4, InsertReturned(Stored));
    var k6 := StepGuarded(k5, TimerFired);
    assert k6.form.step == 3 && !k6.form.loading && |k6.inserted| == 1;
    var t5 := [TimerFired];
    assert ValidGuarded(k5, t5) && RunGuarded(k5, t5) == k6 by {
      assert t5[1..] == [];
    }
    var t4 := [InsertReturned(Stored)] + t5;
    assert ValidGuarded(k4, t4) && RunGuarded(k4, t4) == k6 by {
      assert t4[1..] == t5;
    }
    var t3 := [SubmitClicked] + t4;
    assert ValidGuarded(k3, t3) && RunGuarded(k3, t3) == k6 by {
      assert t3[1..] == t4;
    }
    var t2 := [TimerFired] + t3;
    assert ValidGuarded(k2, t2) && RunGuarded(k2, t2) == k6 by {
      assert t2[1..] == t3;
    }
    var t1 := [NpsClicked(9)] + t2;
    assert ValidGuarded(k1, t1) && RunGuarded(k1, t1) == k6 by {
      assert t1[1..] == t2;
    }
    var t0 := [NpsClicked(5)] + t1;
    assert t0[1..] == t1;
    assert t0 == es;
  }
}
