/** The typing indicator: a throttled sender, a receiver with a failsafe timer,
    and the arithmetic that lets them work together. */
module Typing {
  import opened Wrappers

  const TYPING_REFRESH_MS := 4_000
  const TYPING_FAILSAFE_MS := 7_000

  // ---- sender ----

  /** `lastTrueAt` None stands for minus infinity. */
  datatype Sender = Sender(active: bool, lastTrueAt: Option<int>)

  const IDLE := Sender(false, None)

  /** One composer input: the new state and what is sent, if anything. */
  function SenderStep(s: Sender, nonEmpty: bool, now: int): (Sender, Option<bool>) {
    if !nonEmpty then
      if s.active then (IDLE, Some(false)) else (s, None)
    else if !s.active || s.lastTrueAt.None? || now - s.lastTrueAt.value >= TYPING_REFRESH_MS then
      (Sender(true, Some(now)), Some(true))
    else (s, None)
  }

  /** No two sends of true less than a refresh interval apart with no false
      between them. */
  ghost predicate Throttled(sends: seq<(bool, int)>) {
    forall i :: 0 < i < |sends| && sends[i - 1].0 && sends[i].0 ==>
      sends[i].1 - sends[i - 1].1 >= TYPING_REFRESH_MS
  }

  /** The sender remembers its last send, and throttles. */
  ghost predicate SenderOk(s: Sender, sends: seq<(bool, int)>) {
    && Throttled(sends)
    && (s.active <==> sends != [] && sends[|sends| - 1].0)
    && s.lastTrueAt == (if s.active then Some(sends[|sends| - 1].1) else None)
  }

  class TypingSender {
    var active: bool
    var lastTrueAt: Option<int>
    /** Every call of the injected send, with its time. */
    var sent: seq<(bool, int)>

    constructor ()
      ensures Valid() && Value() == IDLE && sent == []
    {
      active, lastTrueAt, sent := false, None, [];
    }

    ghost function Value(): Sender
      reads this
    {
      Sender(active, lastTrueAt)
    }

    /** The last send is remembered, and no two of true are closer than the
        refresh interval unless a false lies between. */
    ghost predicate Valid()
      reads this
    {
      SenderOk(Value(), sent)
    }

    method Update(nonEmpty: bool, now: int)
      requires Valid()
      modifies this
      ensures Valid() && active == nonEmpty
      ensures Value() == SenderStep(old(Value()), nonEmpty, now).0
      ensures sent == old(sent) + At(SenderStep(old(Value()), nonEmpty, now).1, now)
    {
      if !nonEmpty {
        if active {
          active := false;
          lastTrueAt := None;
          sent := sent + [(false, now)];
        }
        return;
      }
      if !active || lastTrueAt.None? || now - lastTrueAt.value >= TYPING_REFRESH_MS {
        active := true;
        lastTrueAt := Some(now);
        sent := sent + [(true, now)];
      }
    }
  }

  function At(o: Option<bool>, at: int): seq<(bool, int)> {
    if o.Some? then [(o.value, at)] else []
  }

  function Emitted<T>(o: Option<T>): seq<T> {
    if o.Some? then [o.value] else []
  }

  // ---- tracker ----

  /** `due` is the deadline of the failsafe timer, when one is pending. */
  datatype Tracker = Tracker(due: Option<int>, visible: bool)

  const HIDDEN := Tracker(None, false)

  function HideStep(k: Tracker): (Tracker, Option<bool>) {
    (HIDDEN, if k.visible then Some(false) else None)
  }

  function SignalStep(k: Tracker, active: bool, now: int): (Tracker, Option<bool>) {
    if !active then HideStep(k)
    else (Tracker(Some(now + TYPING_FAILSAFE_MS), true), if k.visible then None else Some(true))
  }

  class TypingTracker {
    var timer: Option<nat>
    var visible: bool
    /** The injected timers: id and due time of each one pending. */
    var pending: map<nat, int>
    var nextTimer: nat
    /** Every call of the injected onChange. */
    var changes: seq<bool>

    constructor ()
      ensures Valid() && Value() == HIDDEN && changes == []
    {
      timer, visible, pending, nextTimer, changes := None, false, map[], 0, [];
    }

    /** The indicator shows exactly while one failsafe timer, and no other, is pending. */
    ghost predicate Valid()
      reads this
    {
      && (visible <==> timer.Some?)
      && pending.Keys == (if timer.Some? then {timer.value} else {})
      && forall t :: t in pending ==> t < nextTimer
    }

    ghost function Value(): Tracker
      requires Valid()
      reads this
    {
      Tracker(if timer.Some? then Some(pending[timer.value]) else None, visible)
    }

    method Signal(active: bool, now: int)
      requires Valid()
      modifies this
      ensures Valid()
      ensures Value() == SignalStep(old(Value()), active, now).0
      ensures changes == old(changes) + Emitted(SignalStep(old(Value()), active, now).1)
    {
      if !active {
        Hide();
        return;
      }
      if timer.Some? {
        pending := pending - {timer.value};
      }
      pending := pending[nextTimer := now + TYPING_FAILSAFE_MS];
      timer := Some(nextTimer);
      nextTimer := nextTimer + 1;
      if !visible {
        visible := true;
        changes := changes + [true];
      }
    }

    method Hide()
      requires Valid()
      modifies this
      ensures Valid()
      ensures Value() == HideStep(old(Value())).0
      ensures changes == old(changes) + Emitted(HideStep(old(Value())).1)
    {
      if timer.Some? {
        pending := pending - {timer.value};
        timer := None;
      }
      if visible {
        visible := false;
        changes := changes + [false];
      }
    }

    /** The failsafe timer fires: its callback hides the indicator. */
    method Fire(t: nat)
      requires Valid() && t in pending
      modifies this
      ensures Valid() && timer == None
      ensures Value() == HideStep(old(Value())).0
      ensures changes == old(changes) + Emitted(HideStep(old(Value())).1)
    {
      Hide();
    }
  }

  // ---- the two connected, delivery being instant ----

  datatype Event =
    | Input(nonEmpty: bool, at: int)
    | Dismiss(at: int)  // a message arrives, or the session leaves secure

  /** `log` is every onChange with its time, `sends` every send with its time. */
  datatype Link = Link(sender: Sender, tracker: Tracker, log: seq<(bool, int)>, sends: seq<(bool, int)>)

  const START := Link(IDLE, HIDDEN, [], [])

  function Note(l: Link, k: (Tracker, Option<bool>), at: int): Link {
    l.(tracker := k.0, log := l.log + At(k.1, at))
  }

  /** A timer due by `at` has fired before anything else happens at `at`. */
  function FireDue(l: Link, at: int): Link {
    if l.tracker.due.Some? && l.tracker.due.value <= at then Note(l, HideStep(l.tracker), l.tracker.due.value) else l
  }

  function Step(l0: Link, e: Event): Link {
    var l := FireDue(l0, e.at);
    match e
    case Dismiss(at) => Note(l, HideStep(l.tracker), at)
    case Input(nonEmpty, at) =>
      var u := SenderStep(l.sender, nonEmpty, at);
      var l1 := l.(sender := u.0);
      if u.1.None? then l1
      else Note(l1, SignalStep(l1.tracker, u.1.value, at), at).(sends := l.sends + [(u.1.value, at)])
  }

  function Run(l: Link, events: seq<Event>): Link {
    if events == [] then l
    else Step(Run(l, events[..|events| - 1]), events[|events| - 1])
  }

  ghost predicate Alternates(log: seq<(bool, int)>) {
    forall i :: 0 <= i < |log| ==> log[i].0 == (i % 2 == 0)
  }

  ghost predicate LinkOk(l: Link) {
    && Alternates(l.log)
    && (l.tracker.visible <==> |l.log| % 2 == 1)
    && SenderOk(l.sender, l.sends)
    && (l.tracker.visible ==> l.sender.active)
    && l.tracker.due == (if l.tracker.visible then Some(l.sender.lastTrueAt.value + TYPING_FAILSAFE_MS) else None)
  }

  /** For all inputs, in whatever order and at whatever times: the indicator's
      changes strictly alternate starting with shown, it shows exactly while the
      failsafe is pending, due one failsafe after the last true, and sends are
      throttled. */
  lemma {:induction false} LinkAlwaysOk(events: seq<Event>)
    ensures LinkOk(Run(START, events))
  {
    if events != [] {
      LinkAlwaysOk(events[..|events| - 1]);
      StepKeepsOk(Run(START, events[..|events| - 1]), events[|events| - 1]);
    }
  }

  lemma NoteKeeps(l: Link, k: (Tracker, Option<bool>), at: int)
    requires Alternates(l.log) && (l.tracker.visible <==> |l.log| % 2 == 1)
    requires k.1 == (if k.0.visible == l.tracker.visible then None else Some(k.0.visible))
    ensures Alternates(Note(l, k, at).log)
    ensures Note(l, k, at).tracker.visible <==> |Note(l, k, at).log| % 2 == 1
  {
  }

  lemma StepKeepsOk(l: Link, e: Event)
    requires LinkOk(l)
    ensures LinkOk(Step(l, e))
  {
    var fired := FireDue(l, e.at);
    if l.tracker.due.Some? {
      NoteKeeps(l, HideStep(l.tracker), l.tracker.due.value);
    }
    match e {
      case Dismiss(at) =>
        NoteKeeps(fired, HideStep(fired.tracker), at);
      case Input(nonEmpty, at) =>
        var u := SenderStep(fired.sender, nonEmpty, at);
        if u.1.Some? {
          NoteKeeps(fired, SignalStep(fired.tracker, u.1.value, at), at);
        }
    }
  }

  // ---- the bound ----

  /** A burst: non-empty inputs, each at most `gap` after the one before. */
  ghost predicate Burst(times: seq<int>, gap: int) {
    && times != []
    && (forall i :: 0 < i < |times| ==> 0 <= times[i] - times[i - 1] <= gap)
  }

  function Inputs(times: seq<int>): (events: seq<Event>)
    ensures |events| == |times|
    ensures forall i :: 0 <= i < |events| ==> events[i] == Input(true, times[i])
  {
    seq(|times|, i requires 0 <= i < |times| => Input(true, times[i]))
  }

  /** Nothing hides the indicator once the burst has begun. */
  ghost predicate NeverHides(l: Link, times: seq<int>)
    requires times != []
  {
    var first := Step(l, Input(true, times[0]));
    var log := Run(l, Inputs(times)).log;
    && first.log <= log
    && forall i :: |first.log| <= i < |log| ==> log[i].0
  }

  lemma InputsFront(times: seq<int>)
    requires times != []
    ensures Inputs(times)[..|times| - 1] == Inputs(times[..|times| - 1])
  {
  }

  /** With inputs at most 3000 ms apart the failsafe never fires in a burst,
      whatever happened before, an earlier burst still under way or a dismissed
      indicator included: the last refresh is always younger than a refresh
      interval. */
  lemma {:induction false} BurstHolds(l: Link, times: seq<int>)
    requires LinkOk(l)
    requires Burst(times, TYPING_FAILSAFE_MS - TYPING_REFRESH_MS)
    ensures NeverHides(l, times)
    ensures var r := Run(l, Inputs(times));
            LinkOk(r) && r.sender.active && times[|times| - 1] < r.sender.lastTrueAt.value + TYPING_REFRESH_MS
  {
    if |times| == 1 {
      RunOnce(l, times);
      StepKeepsOk(l, Input(true, times[0]));
    } else {
      var front := times[..|times| - 1];
      var last := times[|times| - 1];
      BurstHolds(l, front);
      RunMore(l, times);
      StepKeepsOk(Run(l, Inputs(front)), Input(true, last));
      InputShows(Run(l, Inputs(front)), last);
      HidesNothingMore(l, times);
    }
  }

  lemma RunOnce(l: Link, times: seq<int>)
    requires |times| == 1
    ensures Run(l, Inputs(times)) == Step(l, Input(true, times[0]))
  {
    assert Inputs(times)[..0] == [];
  }

  lemma RunMore(l: Link, times: seq<int>)
    requires times != []
    ensures Run(l, Inputs(times)) == Step(Run(l, Inputs(times[..|times| - 1])), Input(true, times[|times| - 1]))
  {
    InputsFront(times);
  }

  lemma HidesNothingMore(l: Link, times: seq<int>)
    requires |times| > 1 && NeverHides(l, times[..|times| - 1])
    requires var log := Run(l, Inputs(times[..|times| - 1])).log;
             var log1 := Run(l, Inputs(times)).log;
             log1 == log || log1 == log + [(true, times[|times| - 1])]
    ensures NeverHides(l, times)
  {
  }

  /** An input in time only ever shows the indicator. */
  lemma InputShows(l: Link, at: int)
    requires LinkOk(l) && l.sender.active
    requires at < l.sender.lastTrueAt.value + TYPING_FAILSAFE_MS
    ensures var r := Step(l, Input(true, at));
            && r.sender.active && at < r.sender.lastTrueAt.value + TYPING_REFRESH_MS
            && (r.log == l.log || r.log == l.log + [(true, at)])
  {
  }

  /** The bound is exact: every burst with gaps up to `gap`, after any earlier
      events, keeps the indicator up if and only if `gap` is at most 3000 ms. */
  lemma BurstBoundIsExact(gap: int)
    requires gap >= 0
    ensures (forall before, times :: Burst(times, gap) ==> NeverHides(Run(START, before), times)) <==>
            gap <= TYPING_FAILSAFE_MS - TYPING_REFRESH_MS
  {
    if gap <= TYPING_FAILSAFE_MS - TYPING_REFRESH_MS {
      forall before, times | Burst(times, gap)
        ensures NeverHides(Run(START, before), times)
      {
        LinkAlwaysOk(before);
        BurstHolds(Run(START, before), times);
      }
    } else {
      LateInputHides();
      var times := [0, 2000, 3999, 7000];
      var before: seq<Event> := [];
      assert Run(START, before) == START;
      assert Burst(times, gap) && !NeverHides(Run(START, before), times);
    }
  }

  lemma LateInputHides()
    ensures !NeverHides(START, [0, 2000, 3999, 7000])
  {
    var l0 := Step(START, Input(true, 0));
    var l1 := Step(l0, Input(true, 2000));
    var l2 := Step(l1, Input(true, 3999));
    var l3 := Step(l2, Input(true, 7000));
    assert l0.log == [(true, 0)] && l3.log == [(true, 0), (false, 7000), (true, 7000)];
    assert !l3.log[1].0;
    var e := Inputs([0, 2000, 3999, 7000]);
    assert e[..3][..2][..1][..0] == [];
    assert Run(START, e[..3][..2][..1]) == l0;
    assert Run(START, e[..3][..2]) == l1;
    assert Run(START, e[..3]) == l2;
    assert Run(START, e) == l3;
  }
}
