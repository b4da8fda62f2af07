/** The `useFeedback` hook (front/hooks/useFeedback.js): a feedback message that clears itself a
    fixed time after it was last shown. The browser's timer queue is modelled by the timer the hook
    holds in its ref: `clearTimeout` removes a timer from the queue, so the ref's timer is the only
    one that can still fire. Time is a parameter (`now`, in milliseconds). */
module Feedback {
  import opened Wrappers

  const DefaultDuration := 3000
  const DefaultKind := "info"

  /** A timer the hook started: its ID and when it fires. */
  datatype Timer = Timer(id: nat, due: int)

  /** The hook's state: the feedback shown, the timer in the ref (`None` for `null`), and the ID
      the next `setTimeout` returns. */
  datatype State = State(message: string, kind: string, timer: Option<Timer>, nextId: nat)

  /** The state on mount: no feedback, no timer. Timer IDs start at 1, so a live ref is truthy. */
  function Initial(): (s: State)
    ensures s.message == "" && s.kind == DefaultKind && s.timer.None?
  {
    State("", DefaultKind, None, 1)
  }

  /** The hook's invariant: a timer in the ref has a truthy ID the hook already handed out. */
  predicate Valid(s: State) {
    s.nextId >= 1 && (s.timer.Some? ==> 1 <= s.timer.value.id < s.nextId)
  }

  /** `showFeedback(message, type)` at time `now`; `type` is `None` when the caller omits it. The
      previous timer, if any, is cancelled and a new one starts. */
  function Show(s: State, duration: int, message: string, kind: Option<string>, now: int): (r: State)
    requires Valid(s)
    ensures Valid(r)
    ensures r.message == message && r.kind == kind.GetOr(DefaultKind)
    ensures r.timer == Some(Timer(s.nextId, now + duration)) && r.nextId == s.nextId + 1
    // The new timer is not the one it replaced, so the old one can never clear this message.
    ensures s.timer.Some? ==> r.timer.value.id != s.timer.value.id
  {
    State(message, kind.GetOr(DefaultKind), Some(Timer(s.nextId, now + duration)), s.nextId + 1)
  }

  /** The timer with ID `id` fires. Only the timer in the ref is still queued, so any other ID
      changes nothing; the live one clears the feedback and empties the ref. */
  function Fire(s: State, id: nat): (r: State)
    requires Valid(s)
    ensures Valid(r) && r.nextId == s.nextId
    ensures s.timer.Some? && s.timer.value.id == id ==> r == State("", DefaultKind, None, s.nextId)
    ensures !(s.timer.Some? && s.timer.value.id == id) ==> r == s
  {
    if s.timer.Some? && s.timer.value.id == id then State("", DefaultKind, None, s.nextId) else s
  }

  /** Unmounting cancels the pending timer; the feedback is no longer rendered. */
  function Unmount(s: State): (r: State)
    requires Valid(s)
    ensures Valid(r) && r.timer.None?
    ensures r.message == s.message && r.kind == s.kind && r.nextId == s.nextId
  {
    s.(timer := None)
  }

  /** Things that can happen to the hook. */
  datatype Event = ShowEvent(message: string, kind: Option<string>, at: int) | FireEvent(id: nat)

  function Apply(s: State, duration: int, e: Event): (r: State)
    requires Valid(s)
    ensures Valid(r)
  {
    match e
    case ShowEvent(m, k, at) => Show(s, duration, m, k, at)
    case FireEvent(id) => Fire(s, id)
  }

  function Run(s: State, duration: int, events: seq<Event>): (r: State)
    requires Valid(s)
    ensures Valid(r)
    decreases |events|
  {
    if events == [] then s else Run(Apply(s, duration, events[0]), duration, events[1..])
  }

  /** The feedback shown is that of the last `showFeedback`, until the timer of that call fires:
      after the last show, only firings can follow, and the only one that changes anything is
      the timer due `duration` after that show. */
  lemma {:induction false} LastShowWins(s: State, duration: int, message: string, kind: Option<string>, now: int, fires: seq<nat>)
    requires Valid(s)
    ensures var shown := Show(s, duration, message, kind, now);
            var r := Run(shown, duration, FireEvents(fires));
            (s.nextId !in fires ==> r == shown) &&
            (s.nextId in fires ==> r == State("", DefaultKind, None, s.nextId + 1))
  {
    var shown := Show(s, duration, message, kind, now);
    FiresFrom(shown, duration, fires);
  }

  function FireEvents(ids: seq<nat>): (r: seq<Event>)
    ensures |r| == |ids|
    ensures forall i :: 0 <= i < |ids| ==> r[i] == FireEvent(ids[i])
  {
    if ids == [] then [] else [FireEvent(ids[0])] + FireEvents(ids[1..])
  }

  /** Firings only ever clear the live timer, and only once. */
  lemma {:induction false} FiresFrom(s: State, duration: int, ids: seq<nat>)
    requires Valid(s)
    ensures var r := Run(s, duration, FireEvents(ids));
            (s.timer.None? || s.timer.value.id !in ids ==> r == s) &&
            (s.timer.Some? && s.timer.value.id in ids ==> r == State("", DefaultKind, None, s.nextId))
    decreases |ids|
  {
    if ids != [] {
      var events := FireEvents(ids);
      assert events[1..] == FireEvents(ids[1..]);
      var next := Fire(s, ids[0]);
      FiresFrom(next, duration, ids[1..]);
      assert forall x :: x in ids <==> x == ids[0] || x in ids[1..];
    }
  }

  /** The hook's state. */
  class FeedbackHook {
    var message: string
    var kind: string
    var timer: Option<Timer>
    var nextId: nat
    /** `timeoutDuration`. */
    const duration: int

    function Snapshot(): State
      reads this
    {
      State(message, kind, timer, nextId)
    }

    /** `useFeedback(timeoutDuration)`, with `None` for an omitted duration. */
    constructor (duration: Option<int>)
      ensures Snapshot() == Initial() && this.duration == duration.GetOr(DefaultDuration)
    {
      this.duration := duration.GetOr(DefaultDuration);
      message := "";
      kind := DefaultKind;
      timer := None;
      nextId := 1;
    }

    method ShowFeedback(message: string, kind: Option<string>, now: int)
      requires Valid(Snapshot())
      modifies this
      ensures Snapshot() == Show(old(Snapshot()), duration, message, kind, now)
    {
      this.message := message;
      this.kind := kind.GetOr(DefaultKind);
      timer := Some(Timer(nextId, now + duration));
      nextId := nextId + 1;
    }

    method TimerFires(id: nat)
      requires Valid(Snapshot())
      modifies this
      ensures Snapshot() == Fire(old(Snapshot()), id)
    {
      if timer.Some? && timer.value.id == id {
        message := "";
        kind := DefaultKind;
        timer := None;
      }
    }

    method Unmounted()
      requires Valid(Snapshot())
      modifies this
      ensures Snapshot() == Unmount(old(Snapshot()))
    {
      timer := None;
    }
  }
}
