/**
  The grid-state bridge: the `Dingus` poller, which reads the inverter's
  `grid_state` and forwards each change to a webhook as an on/off value, and
  the polling loop of `main` over a finite run of ticks.
 */
module Bridge {

  import opened Wrappers
  import opened PyJson

  /** The JSON body of the webhook POST: `{"id": id, "set": "On", "value": value}`;
      `property` is the `"set"` field. */
  datatype Payload = Payload(id: string, property: string, value: bool)

  /** What one GET of the inverter endpoint yields. `FetchFailed` stands for
      every way the fetch raises: the request fails, the status is not a
      success, or the body is not a JSON object. `Fetched(None)` is a body
      whose `grid_state` is missing or `null`. */
  datatype Fetch = FetchFailed | Fetched(gridState: Option<Json>)

  /** One tick of the loop: the outcome of the GET, and whether the webhook
      POST would succeed if one is made. */
  datatype Tick = Tick(fetch: Fetch, postOk: bool)

  /** How one `run_once` call ends. */
  datatype Effect =
    | FetchRaised            // the GET raised; nothing else happened
    | NoMeterCollar          // no `grid_state`: warned and returned
    | Unchanged              // the state equals the last one: nothing to do
    | Notified(state: Json)  // the POST for `state` succeeded and `state` is now the last one
    | NotifyRaised(state: Json) // the POST for `state` was made and raised

  /** The state after a call and how the call ended. */
  datatype Outcome = Outcome(state: Option<Json>, effect: Effect)

  /** The grid states reported to the webhook as "on". */
  const OnGridStates: seq<Json> := [JStr("on-grid"), JStr("multimode-ongrid")]

  /** Python's `x in xs` on a list: some element compares equal to `x`. */
  function PyIn(x: Json, xs: seq<Json>): (r: bool)
    ensures r <==> exists i :: 0 <= i < |xs| && PyEq(x, xs[i])
  {
    |xs| > 0 && (PyEq(x, xs[0]) || PyIn(x, xs[1..]))
  }

  /** The boolean sent for a state: exactly the two on-grid strings are "on";
      no number, boolean or other string is. */
  function IsOn(state: Json): (on: bool)
    ensures on <==> state == JStr("on-grid") || state == JStr("multimode-ongrid")
  {
    PyIn(state, OnGridStates)
  }

  /** The body `send_notification` posts for `state`. */
  function NotificationPayload(accessoryId: string, state: Json): (p: Payload)
    ensures p.id == accessoryId && p.property == "On"
    ensures p.value <==> state == JStr("on-grid") || state == JStr("multimode-ongrid")
  {
    Payload(accessoryId, "On", IsOn(state))
  }

  /** Python's `grid_state != last_grid_state`: any value differs from `None`,
      and a value differs from a recorded state iff Python's `==` says so. */
  function Differs(v: Json, last: Option<Json>): (r: bool)
    ensures last.None? ==> r
    ensures last == Some(v) ==> !r
    ensures last.Some? && (v.JStr? || last.value.JStr?) ==> (r <==> last.value != v)
    ensures last.Some? && v.JBool? && last.value.JNum? ==> (r <==> last.value.n != if v.b then 1.0 else 0.0)
    ensures last.Some? && v.JNum? && last.value.JBool? ==> (r <==> v.n != if last.value.b then 1.0 else 0.0)
    ensures last.Some? && v.JNum? && last.value.JNum? ==> (r <==> v.n != last.value.n)
    ensures last.Some? && v.JBool? && last.value.JBool? ==> (r <==> v.b != last.value.b)
  {
    last.None? || !PyEq(v, last.value)
  }

  /** One `run_once` call on the last state `last`. The notification is sent
      before the state is recorded, so a POST that raises leaves the state as
      it was. */
  function Step(last: Option<Json>, tick: Tick): (o: Outcome)
    // the state changes only through a delivered notification, to the state delivered
    ensures o.effect.Notified? ==> o.state == Some(o.effect.state)
    ensures !o.effect.Notified? ==> o.state == last
    // a notification is attempted exactly for an observed state that differs from the last one
    ensures (o.effect.Notified? || o.effect.NotifyRaised?) <==>
              tick.fetch.Fetched? && tick.fetch.gridState.Some? && Differs(tick.fetch.gridState.value, last)
    ensures o.effect.Notified? || o.effect.NotifyRaised? ==>
              tick.fetch.gridState == Some(o.effect.state) && (o.effect.Notified? <==> tick.postOk)
    // a failed fetch and a missing or null grid state each end the call before anything else
    ensures tick.fetch.FetchFailed? <==> o.effect == FetchRaised
    ensures tick.fetch == Fetched(None) <==> o.effect == NoMeterCollar
  {
    match tick.fetch
    case FetchFailed => Outcome(last, FetchRaised)
    case Fetched(gridState) =>
      if gridState.None? then Outcome(last, NoMeterCollar)
      else if !Differs(gridState.value, last) then Outcome(last, Unchanged)
      else if !tick.postOk then Outcome(last, NotifyRaised(gridState.value))
      else Outcome(gridState, Notified(gridState.value))
  }

  /** The first state ever observed is always sent, since the poller starts
      from `None`. */
  lemma FirstObservationNotifies(v: Json, postOk: bool)
    ensures Step(None, Tick(Fetched(Some(v)), postOk)).effect ==
              if postOk then Notified(v) else NotifyRaised(v)
  {
  }

  /** Observing the current state again does nothing, so a delivered state
      that keeps being observed is sent once. */
  lemma RepeatIsIdempotent(last: Option<Json>, tick: Tick, again: Tick)
    requires Step(last, tick).effect.Notified?
    requires again.fetch == tick.fetch
    ensures Step(Step(last, tick).state, again) == Outcome(Step(last, tick).state, Unchanged)
  {
  }

  /** A POST that raises is retried: the same observation on the next tick
      triggers the same notification again. */
  lemma FailedNotificationIsRetried(last: Option<Json>, tick: Tick, again: Tick)
    requires Step(last, tick).effect.NotifyRaised?
    requires again.fetch == tick.fetch
    ensures Step(Step(last, tick).state, again).effect ==
              if again.postOk then Notified(Step(last, tick).effect.state)
              else NotifyRaised(Step(last, tick).effect.state)
  {
  }

  /** What a run of ticks leaves behind: the final state and the states whose
      notification was delivered, in order. */
  datatype Trace = Trace(state: Option<Json>, delivered: seq<Json>)

  /** The state a call delivered to the webhook, if any. */
  function Delivered(e: Effect): (s: seq<Json>)
    ensures e.Notified? ==> s == [e.state]
    ensures !e.Notified? ==> s == []
  {
    if e.Notified? then [e.state] else []
  }

  /** One call delivers the observed state exactly when it was observed,
      differs from the last one, and its POST succeeded; otherwise nothing. */
  lemma DeliveredOfStep(last: Option<Json>, tick: Tick)
    ensures Delivered(Step(last, tick).effect) ==
              if tick.fetch.Fetched? && tick.fetch.gridState.Some? &&
                 Differs(tick.fetch.gridState.value, last) && tick.postOk
              then [tick.fetch.gridState.value] else []
  {
  }

  /** `Step` applied to each tick in turn, as `main`'s loop does: every error
      is caught and the loop goes on with the next tick. */
  function Poll(last: Option<Json>, ticks: seq<Tick>): (t: Trace)
    // the state always records the last state delivered
    ensures t.state == if t.delivered == [] then last else Some(t.delivered[|t.delivered| - 1])
    // every delivered state differs from the one delivered before it
    ensures t.delivered != [] ==> Differs(t.delivered[0], last)
    ensures forall i :: 0 < i < |t.delivered| ==> !PyEq(t.delivered[i - 1], t.delivered[i])
    decreases |ticks|
  {
    if ticks == [] then Trace(last, [])
    else
      var o := Step(last, ticks[0]);
      var rest := Poll(o.state, ticks[1..]);
      var sent := Delivered(o.effect);
      assert sent != [] ==> rest.delivered != [] ==> !PyEq(sent[0], rest.delivered[0]);
      Trace(rest.state, sent + rest.delivered)
  }

  /** A run is its first tick followed by the rest. */
  lemma PollFirst(last: Option<Json>, ticks: seq<Tick>)
    requires ticks != []
    ensures var o := Step(last, ticks[0]);
            Poll(last, ticks) ==
              Trace(Poll(o.state, ticks[1..]).state, Delivered(o.effect) + Poll(o.state, ticks[1..]).delivered)
  {
  }

  /** A run split anywhere: polling `a` and then `b` is polling `a + b`. */
  lemma {:induction false} PollAppend(last: Option<Json>, a: seq<Tick>, b: seq<Tick>)
    ensures var first := Poll(last, a);
            var second := Poll(first.state, b);
            Poll(last, a + b) == Trace(second.state, first.delivered + second.delivered)
    decreases |a|
  {
    if a == [] {
      assert a + b == b;
    } else {
      assert (a + b)[0] == a[0] && (a + b)[1..] == a[1..] + b;
      var o := Step(last, a[0]);
      PollFirst(last, a);
      PollFirst(last, a + b);
      PollAppend(o.state, a[1..], b);
      var second := Poll(Poll(o.state, a[1..]).state, b);
      AppendAssociative(Delivered(o.effect), Poll(o.state, a[1..]).delivered, second.delivered);
    }
  }

  /** The non-null states observed in a run, in order. */
  function Observations(ticks: seq<Tick>): (obs: seq<Json>)
    decreases |ticks|
  {
    if ticks == [] then []
    else
      var rest := Observations(ticks[1..]);
      match ticks[0].fetch
      case Fetched(Some(v)) => [v] + rest
      case _ => rest
  }

  /** `s[i + 1]` for every `i` at which the sequence changes value. */
  function Changes(s: seq<Json>): seq<Json>
    decreases |s|
  {
    if |s| < 2 then []
    else (if PyEq(s[0], s[1]) then [] else [s[1]]) + Changes(s[1..])
  }

  /** The sequence with every run of equal neighbours collapsed to its first
      element. */
  function Collapse(s: seq<Json>): seq<Json> {
    if s == [] then [] else [s[0]] + Changes(s)
  }

  predicate AllPostsSucceed(ticks: seq<Tick>) {
    forall i :: 0 <= i < |ticks| ==> ticks[i].postOk
  }

  lemma RestSucceeds(ticks: seq<Tick>)
    requires ticks != [] && AllPostsSucceed(ticks)
    ensures ticks[0].postOk && AllPostsSucceed(ticks[1..])
  {
    var rest := ticks[1..];
    forall i | 0 <= i < |rest| ensures rest[i].postOk { assert rest[i] == ticks[i + 1]; }
  }

  /** `Changes` on an observation `v` that follows `p`. */
  lemma ChangesCons(p: Json, v: Json, obs: seq<Json>)
    ensures Changes([p] + ([v] + obs)) == (if PyEq(p, v) then [] else [v]) + Changes([v] + obs)
  {
    var s := [p] + ([v] + obs);
    assert s[0] == p && s[1] == v && s[1..] == [v] + obs;
  }

  /** From a state equal to `p`, the delivered states are the changes of the
      observations that follow `p`. */
  lemma {:induction false} DeliveredAreChanges(q: Json, p: Json, ticks: seq<Tick>)
    requires PyEq(q, p)
    requires AllPostsSucceed(ticks)
    ensures Poll(Some(q), ticks).delivered == Changes([p] + Observations(ticks))
    decreases |ticks|
  {
    if ticks != [] {
      var rest := ticks[1..];
      RestSucceeds(ticks);
      PollFirst(Some(q), ticks);
      match ticks[0].fetch
      case Fetched(Some(v)) =>
        var obs := Observations(rest);
        assert Observations(ticks) == [v] + obs;
        ChangesCons(p, v, obs);
        if PyEq(p, v) {
          assert Step(Some(q), ticks[0]) == Outcome(Some(q), Unchanged);
          PyEqTransitive(q, p, v);
          DeliveredAreChanges(q, v, rest);
        } else {
          assert Step(Some(q), ticks[0]) == Outcome(Some(v), Notified(v));
          DeliveredAreChanges(v, v, rest);
        }
      case _ =>
        assert Step(Some(q), ticks[0]).state == Some(q);
        assert Observations(ticks) == Observations(rest);
        DeliveredAreChanges(q, p, rest);
    }
  }

  /** When every notification succeeds, the poller, starting from `None`,
      delivers exactly the non-null observations with consecutive equal ones
      collapsed. */
  lemma {:induction false} DeliveredAreCollapsedObservations(ticks: seq<Tick>)
    requires AllPostsSucceed(ticks)
    ensures Poll(None, ticks).delivered == Collapse(Observations(ticks))
    decreases |ticks|
  {
    if ticks != [] {
      var rest := ticks[1..];
      RestSucceeds(ticks);
      match ticks[0].fetch
      case Fetched(Some(v)) =>
        assert Observations(ticks) == [v] + Observations(rest);
        DeliveredAreChanges(v, v, rest);
      case _ =>
        DeliveredAreCollapsedObservations(rest);
    }
  }

  /** The `Dingus` object: the accessory it reports to and the last state it
      delivered. */
  class Dingus {
    const accessoryId: string
    var lastGridState: Option<Json>

    constructor (accessoryId: string)
      ensures this.accessoryId == accessoryId && lastGridState == None
    {
      this.accessoryId := accessoryId;
      lastGridState := None;
    }

    /** Posts the on/off value for `state`; `postOk` is the outcome of the
        POST, and `delivered` is false exactly when it raises. */
    method SendNotification(state: Json, postOk: bool) returns (body: Payload, delivered: bool)
      ensures body == NotificationPayload(accessoryId, state)
      ensures body.id == accessoryId && body.property == "On"
      ensures body.value <==> state == JStr("on-grid") || state == JStr("multimode-ongrid")
      ensures delivered == postOk
    {
      body := NotificationPayload(accessoryId, state);
      delivered := postOk;
    }

    /** One poll: fetch, ignore a missing state, and on a change notify and
        only then record the new state. */
    method RunOnce(tick: Tick) returns (effect: Effect)
      modifies this`lastGridState
      ensures Outcome(lastGridState, effect) == Step(old(lastGridState), tick)
    {
      if tick.fetch.FetchFailed? {
        return FetchRaised;
      }
      var gridState := tick.fetch.gridState;
      if gridState.None? {
        return NoMeterCollar;
      }
      if Differs(gridState.value, lastGridState) {
        var _, delivered := SendNotification(gridState.value, tick.postOk);
        if !delivered {
          return NotifyRaised(gridState.value);
        }
        lastGridState := gridState;
        return Notified(gridState.value);
      }
      return Unchanged;
    }
  }

  lemma AppendAssociative<T>(a: seq<T>, b: seq<T>, c: seq<T>)
    ensures a + (b + c) == (a + b) + c
  {
  }

  /** `main`'s loop over a finite run of ticks: each error `run_once` raises is
      caught and the next tick is polled. Returns the states delivered. */
  method RunTicks(dingus: Dingus, ticks: seq<Tick>) returns (delivered: seq<Json>)
    modifies dingus
    ensures Trace(dingus.lastGridState, delivered) == Poll(old(dingus.lastGridState), ticks)
  {
    ghost var whole := Poll(dingus.lastGridState, ticks);
    delivered := [];
    var i := 0;
    assert ticks[i..] == ticks;
    while i < |ticks|
      invariant 0 <= i <= |ticks|
      invariant whole.state == Poll(dingus.lastGridState, ticks[i..]).state
      invariant whole.delivered == delivered + Poll(dingus.lastGridState, ticks[i..]).delivered
    {
      ghost var tail := ticks[i..];
      assert tail[0] == ticks[i] && tail[1..] == ticks[i + 1..];
      PollFirst(dingus.lastGridState, tail);
      ghost var rest := Poll(Step(dingus.lastGridState, ticks[i]).state, ticks[i + 1..]);
      var effect := dingus.RunOnce(ticks[i]);
      ghost var done := delivered;
      delivered := delivered + Delivered(effect);
      AppendAssociative(done, Delivered(effect), rest.delivered);
      i := i + 1;
    }
    assert ticks[i..] == [];
  }

}
