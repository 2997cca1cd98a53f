/**
  The kiosk survey as a state machine. `Form` is the component's state
  (step, loading flag, NPS score, five star ratings, comment); `Kiosk` adds
  what the browser holds on the form's behalf: the 400 ms timers scheduled by
  NPS clicks that have not fired yet, the insert call that is awaited, and
  the log of every payload handed to the backend's insert. Each user click,
  keystroke, timer firing and insert reply is one atomic `Event`.
 */
module Survey {
  import opened Wrappers
  import NpsButtons
  import StarRating

  /** Identifier of the physical kiosk, sent with every response. */
  const LocationId: string := "Squash"

  /** The rated aspects; the constructor names are the keys of the ratings object. */
  datatype Aspect = Instalaciones | Limpieza | Atencion | Ambiente | CalidadPrecio

  const AllAspects: set<Aspect> := {Instalaciones, Limpieza, Atencion, Ambiente, CalidadPrecio}

  /** The ratings object: aspect key to the number of stars given. */
  type Ratings = map<Aspect, int>

  /** The component state; `score` None is the `null` of no selection yet. */
  datatype Form = Form(step: int, loading: bool, score: Option<int>, ratings: Ratings, comment: string)

  /** The row handed to the insert call. */
  datatype Payload = Payload(score: Option<int>, comment: string, locationId: string, additionalRatings: Ratings)

  /** Reply of the insert call: no error, or an error object. */
  datatype Outcome = Stored | Failed

  datatype Kiosk = Kiosk(form: Form, pendingTimers: nat, inFlight: Option<Payload>, inserted: seq<Payload>)

  datatype Event =
    | NpsClicked(num: int)                    // button `num` of the NPS scale
    | TimerFired                              // one pending 400 ms timer runs its callback
    | StarClicked(aspect: Aspect, star: int)  // star `star` of the aspect's widget
    | CommentTyped(text: string)              // the textarea now holds `text`
    | SubmitClicked                           // the finish button
    | InsertReturned(outcome: Outcome)        // the awaited insert resolves

  /** Every aspect at zero stars. */
  function ZeroRatings(): (r: Ratings)
    ensures r.Keys == AllAspects
    ensures forall a :: a in r ==> r[a] == 0
  {
    map[Instalaciones := 0, Limpieza := 0, Atencion := 0, Ambiente := 0, CalidadPrecio := 0]
  }

  /** The values the component starts with. */
  function InitialForm(): Form
  {
    Form(1, false, None, ZeroRatings(), "")
  }

  /** The kiosk before any event: no timer pending, no call made. */
  function Initial(): Kiosk
  {
    Kiosk(InitialForm(), 0, None, [])
  }

  // ---------------------------------------------------------------------
  // Handlers of the component, each on the form state alone.
  // ---------------------------------------------------------------------

  /** Synchronous half of handleNpsSelect: the clicked score replaces any earlier one. */
  function HandleNpsSelect(f: Form, score: int): (g: Form)
    ensures g.score == Some(score)
    ensures g.step == f.step && g.loading == f.loading
    ensures g.ratings == f.ratings && g.comment == f.comment
  {
    f.(score := Some(score))
  }

  /** Callback of the timer scheduled by handleNpsSelect: go to the detail step. */
  function TimerCallback(f: Form): (g: Form)
    ensures g.step == 2
    ensures g.loading == f.loading && g.score == f.score
    ensures g.ratings == f.ratings && g.comment == f.comment
  {
    f.(step := 2)
  }

  /** handleRatingChange: only the given aspect takes the new value. */
  function HandleRatingChange(f: Form, aspect: Aspect, value: int): (g: Form)
    ensures aspect in g.ratings && g.ratings[aspect] == value
    ensures g.ratings.Keys == f.ratings.Keys + {aspect}
    ensures forall a :: a in f.ratings && a != aspect ==> g.ratings[a] == f.ratings[a]
    ensures g.step == f.step && g.loading == f.loading
    ensures g.score == f.score && g.comment == f.comment
  {
    f.(ratings := f.ratings[aspect := value])
  }

  /** onChange of the textarea. */
  function SetComment(f: Form, text: string): (g: Form)
    ensures g.comment == text
    ensures g.step == f.step && g.loading == f.loading
    ensures g.score == f.score && g.ratings == f.ratings
  {
    f.(comment := text)
  }

  /** The row sent by handleSubmit, read from the current state. */
  function BuildPayload(f: Form): (p: Payload)
    ensures p.score == f.score && p.comment == f.comment
    ensures p.locationId == LocationId && p.additionalRatings == f.ratings
  {
    Payload(f.score, f.comment, LocationId, f.ratings)
  }

  /** handleSubmit up to the await: mark the form busy. */
  function StartSubmit(f: Form): (g: Form)
    ensures g.loading
    ensures g.step == f.step && g.score == f.score
    ensures g.ratings == f.ratings && g.comment == f.comment
  {
    f.(loading := true)
  }

  /**
    handleSubmit after the await: on success go to the thank-you step, on
    error keep the step; in both cases clear the busy flag and keep the data.
   */
  function FinishSubmit(f: Form, outcome: Outcome): (g: Form)
    ensures !g.loading
    ensures g.step == (if outcome == Stored then 3 else f.step)
    ensures g.score == f.score && g.ratings == f.ratings && g.comment == f.comment
  {
    match outcome
    case Stored => f.(step := 3, loading := false)
    case Failed => f.(loading := false)
  }

  // ---------------------------------------------------------------------
  // The kiosk as a whole.
  // ---------------------------------------------------------------------

  /**
    The events the rendered screen can deliver: NPS buttons exist only on
    step 1 and are numbered 0..10, stars and the textarea only on step 2,
    the finish button only on step 2 and is disabled while loading; a timer
    fires only if one is pending and an insert returns only if one was made.
   */
  predicate Enabled(k: Kiosk, e: Event)
  {
    match e
    case NpsClicked(num) => k.form.step == 1 && 0 <= num <= NpsButtons.MaxScore
    case TimerFired => k.pendingTimers > 0
    case StarClicked(_, star) => k.form.step == 2 && 1 <= star <= StarRating.StarCount
    case CommentTyped(_) => k.form.step == 2
    case SubmitClicked => k.form.step == 2 && !k.form.loading
    case InsertReturned(_) => k.inFlight.Some?
  }

  /** One event, applied atomically. */
  function Step(k: Kiosk, e: Event): (k': Kiosk)
    ensures e.SubmitClicked? ==> k'.inserted == k.inserted + [BuildPayload(k.form)]
    ensures !e.SubmitClicked? ==> k'.inserted == k.inserted
  {
    match e
    case NpsClicked(num) =>
      k.(form := HandleNpsSelect(k.form, num), pendingTimers := k.pendingTimers + 1)
    case TimerFired =>
      if k.pendingTimers == 0 then k
      else k.(form := TimerCallback(k.form), pendingTimers := k.pendingTimers - 1)
    case StarClicked(aspect, star) =>
      k.(form := HandleRatingChange(k.form, aspect, star))
    case CommentTyped(text) =>
      k.(form := SetComment(k.form, text))
    case SubmitClicked =>
      var p := BuildPayload(k.form);
      k.(form := StartSubmit(k.form), inFlight := Some(p), inserted := k.inserted + [p])
    case InsertReturned(outcome) =>
      if k.inFlight.None? then k
      else k.(form := FinishSubmit(k.form, outcome), inFlight := None)
  }

  // ---------------------------------------------------------------------
  // What holds in every reachable state.
  // ---------------------------------------------------------------------

  predicate ValidScore(s: Option<int>)
  {
    s.Some? ==> 0 <= s.value <= NpsButtons.MaxScore
  }

  predicate ValidRatings(r: Ratings)
  {
    && r.Keys == AllAspects
    && forall a :: a in r ==> 0 <= r[a] <= StarRating.StarCount
  }

  /** A payload with a score on the scale, this kiosk's identifier and all five ratings. */
  predicate ValidPayload(p: Payload)
  {
    && p.score.Some?
    && ValidScore(p.score)
    && p.locationId == LocationId
    && ValidRatings(p.additionalRatings)
  }

  predicate Inv(k: Kiosk)
  {
    var f := k.form;
    && f.step in {1, 2, 3}
    && (f.step >= 2 ==> f.score.Some?)
    && (k.pendingTimers > 0 ==> f.score.Some?)
    && ValidScore(f.score)
    && ValidRatings(f.ratings)
    && (f.loading <==> k.inFlight.Some?)
    && (f.loading ==> f.step == 2)
    && (k.inFlight.Some? ==> ValidPayload(k.inFlight.value))
    && forall i :: 0 <= i < |k.inserted| ==> ValidPayload(k.inserted[i])
  }

  /** The initial values, and that they satisfy the invariant. */
  lemma InitialState()
    ensures Initial().form.step == 1 && !Initial().form.loading
    ensures Initial().form.score == None && Initial().form.comment == ""
    ensures Initial().form.ratings.Keys == AllAspects
    ensures forall a :: a in AllAspects ==> Initial().form.ratings[a] == 0
    ensures Initial().pendingTimers == 0 && Initial().inFlight == None && Initial().inserted == []
    ensures Inv(Initial())
  {
  }

  /** Every event the screen can deliver keeps the invariant. */
  lemma StepPreservesInv(k: Kiosk, e: Event)
    requires Inv(k) && Enabled(k, e)
    ensures Inv(Step(k, e))
  {
  }

  // ---------------------------------------------------------------------
  // One event at a time.
  // ---------------------------------------------------------------------

  /** A later NPS click overwrites the stored score and schedules one more timer. */
  lemma ReselectOverwrites(k: Kiosk, first: int, second: int)
    ensures Step(Step(k, NpsClicked(first)), NpsClicked(second)).form.score == Some(second)
    ensures Step(Step(k, NpsClicked(first)), NpsClicked(second)).pendingTimers == k.pendingTimers + 2
    ensures Step(Step(k, NpsClicked(first)), NpsClicked(second)).form.step == k.form.step
  {
  }

  /**
    A pending timer moves the form to step 2; a second pending timer firing
    after it changes nothing in the form.
   */
  lemma TimerIdempotent(k: Kiosk)
    requires k.pendingTimers >= 2
    ensures Step(k, TimerFired).form.step == 2
    ensures Step(Step(k, TimerFired), TimerFired).form == Step(k, TimerFired).form
    ensures Step(Step(k, TimerFired), TimerFired).pendingTimers == k.pendingTimers - 2
  {
  }

  /**
    Clicking star `star` of an aspect rates that aspect exactly `star`, so
    its widget then lights `star` stars; the other four ratings, the score,
    the comment, the step and the loading flag do not change.
   */
  lemma StarClickRatesExactly(k: Kiosk, aspect: Aspect, star: int)
    requires Inv(k) && Enabled(k, StarClicked(aspect, star))
    ensures Step(k, StarClicked(aspect, star)).form.ratings[aspect] == star
    ensures StarRating.CountOn(StarRating.Render(Step(k, StarClicked(aspect, star)).form.ratings[aspect])) == star
    ensures forall a :: a in AllAspects && a != aspect ==>
              Step(k, StarClicked(aspect, star)).form.ratings[a] == k.form.ratings[a]
    ensures Step(k, StarClicked(aspect, star)).form.ratings.Keys == AllAspects
    ensures Step(k, StarClicked(aspect, star)).form.score == k.form.score
    ensures Step(k, StarClicked(aspect, star)).form.comment == k.form.comment
    ensures Step(k, StarClicked(aspect, star)).form.step == k.form.step
    ensures Step(k, StarClicked(aspect, star)).form.loading == k.form.loading
  {
    StarRating.LitStars(star);
  }

  /**
    The finish button can be pressed only when no insert is outstanding, so
    at most one call is in flight; pressing it sends the current answers,
    which always include a score, and disables the button.
   */
  lemma SubmitSendsCurrentAnswers(k: Kiosk)
    requires Inv(k) && Enabled(k, SubmitClicked)
    ensures k.inFlight.None?
    ensures k.form.score.Some?
    ensures Step(k, SubmitClicked).inFlight ==
              Some(Payload(k.form.score, k.form.comment, LocationId, k.form.ratings))
    ensures Step(k, SubmitClicked).form.loading
    ensures !Enabled(Step(k, SubmitClicked), SubmitClicked)
  {
  }

  /**
    A failed insert leaves step, score, ratings and comment as they were and
    enables the finish button again for a manual retry.
   */
  lemma FailedInsertKeepsAnswers(k: Kiosk)
    requires Inv(k) && Enabled(k, InsertReturned(Failed))
    ensures Step(k, InsertReturned(Failed)).form.step == k.form.step == 2
    ensures Step(k, InsertReturned(Failed)).form.score == k.form.score
    ensures Step(k, InsertReturned(Failed)).form.ratings == k.form.ratings
    ensures Step(k, InsertReturned(Failed)).form.comment == k.form.comment
    ensures !Step(k, InsertReturned(Failed)).form.loading
    ensures Enabled(Step(k, InsertReturned(Failed)), SubmitClicked)
  {
  }

  /** A stored insert moves the form to the thank-you step and clears the busy flag. */
  lemma StoredInsertThanks(k: Kiosk)
    requires Inv(k) && Enabled(k, InsertReturned(Stored))
    ensures Step(k, InsertReturned(Stored)).form.step == 3
    ensures !Step(k, InsertReturned(Stored)).form.loading
    ensures Step(k, InsertReturned(Stored)).inFlight.None?
  {
  }
}
