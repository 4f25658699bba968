/** The once-per-session review prompt. A session-scoped marker records
    that the prompt was scheduled; the "Show Order to Waiter" button
    schedules the prompt only while the marker is absent, and sets the
    marker at that moment. */
module ReviewGate {

  /** `canShowReview()`: true while the session marker is absent. */
  predicate CanShowReview(markerSet: bool) {
    !markerSet
  }

  /** What one press of the button decides: whether the prompt is
      scheduled, and the marker afterwards. */
  datatype Press = Press(scheduled: bool, markerSet: bool)

  /** The gate of the button's handler. */
  function PressWaiterButton(markerSet: bool): (r: Press)
    ensures r.markerSet
    ensures r.scheduled <==> CanShowReview(markerSet)
  {
    if CanShowReview(markerSet) then Press(true, true) else Press(false, markerSet)
  }

  /** How many prompts n presses in a row schedule, from a given marker. */
  function ScheduledCount(markerSet: bool, presses: nat): nat
    decreases presses
  {
    if presses == 0 then 0
    else
      var r := PressWaiterButton(markerSet);
      (if r.scheduled then 1 else 0) + ScheduledCount(r.markerSet, presses - 1)
  }

  /** Once the marker is set, no press schedules the prompt again. */
  lemma {:induction false} NoneAfterMarker(presses: nat)
    ensures ScheduledCount(true, presses) == 0
  {
    if presses > 0 {
      NoneAfterMarker(presses - 1);
    }
  }

  /** Across any number of presses, the prompt is scheduled exactly once if
      the session started without the marker and there was a press, and
      never otherwise. */
  lemma {:induction false} AtMostOncePerSession(markerSet: bool, presses: nat)
    ensures ScheduledCount(markerSet, presses) == if !markerSet && presses > 0 then 1 else 0
    ensures ScheduledCount(markerSet, presses) <= 1
  {
    if presses > 0 {
      NoneAfterMarker(presses - 1);
    }
  }
}
