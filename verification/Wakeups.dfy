/**
 The port reconciler against the in-memory store (pkg/controller/forward_handler.go:216-251,
 pkg/controller/ports.go:104-241): mutators write under the store's lock and signal after releasing it,
 the reconciler subscribes, then repeats snapshot, reconcile and sleep. Any interleaving.
 */
module Wakeups {
  import opened Ports
  import Listeners

  /** Where the reconciler is. */
  datatype Place = Starting | Looking | Holding(snapshot: set<nat>) | Asleep(snapshot: set<nat>) | Stopped

  /**
   `owed` counts the writes whose signal has not been sent yet; `watching` says that the reconciler's
   channel is among the subscribers, `token` that it holds a token.
   */
  datatype State = State(table: Table, owed: nat, closed: bool, watching: bool, token: bool, place: Place,
                         bound: set<nat>, cancelled: bool, clean: bool)

  datatype Step =
    | Mutate(write: Write)
    | Signal
    | CloseStore
    | Watch
    | Snapshot
    | Reconcile(closeFails: set<nat>, bindFails: set<nat>)
    | WakeByToken
    | WakeByTick
    | Stop
    | CloseListeners

  const START := State(map[], 0, false, false, false, Starting, {}, false, false)

  ghost function Next(s: State, step: Step): State {
    match step
    case Mutate(w) =>
      var t := Written(s.table, w);
      s.(table := t, owed := if t.Keys == s.table.Keys then s.owed else s.owed + 1)
    case Signal => if s.owed == 0 then s else s.(owed := s.owed - 1, token := s.token || s.watching)
    case CloseStore => s.(closed := true, watching := false)
    case Watch => if s.place.Starting? then s.(watching := !s.closed, place := Looking) else s
    case Snapshot => if s.place.Looking? then s.(place := Holding(s.table.Keys)) else s
    case Reconcile(closeFails, bindFails) =>
      if !s.place.Holding? then s
      else if s.cancelled then s.(place := Asleep(s.place.snapshot))
      else s.(place := Asleep(s.place.snapshot),
              bound := Listeners.Converged(s.bound, s.place.snapshot, closeFails, bindFails),
              clean := (s.bound - s.place.snapshot) !! closeFails && (s.place.snapshot - s.bound) !! bindFails)
    case WakeByToken => if s.place.Asleep? && s.token then s.(token := false, place := Looking) else s
    case WakeByTick => if s.place.Asleep? then s.(place := Looking) else s
    case Stop => if s.place.Asleep? then s.(place := Stopped, watching := false) else s
    case CloseListeners => s.(cancelled := true, bound := {})
  }

  ghost function Run(steps: seq<Step>): State {
    if steps == [] then START else Next(Run(steps[..|steps| - 1]), steps[|steps| - 1])
  }

  /** A snapshot that is out of date has a token or a signal on its way. */
  ghost predicate Awake(s: State) {
    s.watching && (s.place.Holding? || s.place.Asleep?) ==>
      s.place.snapshot == s.table.Keys || s.token || s.owed > 0
  }

  /** After a clean round the listeners are exactly the snapshot's ports. */
  ghost predicate Exact(s: State) {
    && 0 !in s.table && 0 !in s.bound
    && (s.place.Holding? || s.place.Asleep? ==> 0 !in s.place.snapshot)
    && (s.place.Asleep? && !s.cancelled && s.clean ==> s.bound == s.place.snapshot)
  }

  /** A store that was open when the reconciler subscribed and is open now still has it as a subscriber. */
  ghost predicate Subscribed(s: State) {
    !s.closed && (s.place.Looking? || s.place.Holding? || s.place.Asleep?) ==> s.watching
  }

  lemma StaysAwake(s: State, step: Step)
    requires Awake(s)
    ensures Awake(Next(s, step))
  {
  }

  lemma StaysExact(s: State, step: Step)
    requires Exact(s)
    ensures Exact(Next(s, step))
  {
  }

  lemma StaysSubscribed(s: State, step: Step)
    requires Subscribed(s)
    ensures Subscribed(Next(s, step))
  {
  }

  lemma {:induction false} RunKeeps(steps: seq<Step>)
    ensures Awake(Run(steps)) && Exact(Run(steps)) && Subscribed(Run(steps))
  {
    if steps != [] {
      var before := Run(steps[..|steps| - 1]);
      RunKeeps(steps[..|steps| - 1]);
      StaysAwake(before, steps[|steps| - 1]);
      StaysExact(before, steps[|steps| - 1]);
      StaysSubscribed(before, steps[|steps| - 1]);
    }
  }

  /**
   No lost wakeup: whenever the reconciler sleeps with no token and no signal is owed, its snapshot is
   the store's port set, and if its round met no failure the bound listeners are exactly that set.
   */
  lemma NoLostWakeup(steps: seq<Step>)
    requires var s := Run(steps); s.place.Asleep? && !s.token && s.owed == 0 && !s.closed
    ensures var s := Run(steps);
            && s.place.snapshot == s.table.Keys
            && (s.clean && !s.cancelled ==> s.bound == s.table.Keys)
  {
    RunKeeps(steps);
  }
}
