/**
 * AbstractLifecycle: a component's life-cycle state and six single-slot
 * hooks, one run before each of initialize, load, resolve, start and stop and
 * one after stop. Hooks are tokens; running a hook appends it to `log`.
 */
module Lifecycle {
  import opened Wrappers

  /** Lifecyclable.State. */
  datatype State = Created | Initialized | Loaded | Resolved | Started | Stopped

  /** A Runnable: the no-op NOTHING, or some other runnable identified by a token. */
  datatype Hook = Nothing | Runnable(id: nat)

  /** The six hook slots. */
  datatype Phase = PreInitialize | PreLoad | PreResolve | PreStart | PreStop | PostStop

  /** The name of an enum constant, as Enum.toString gives it. */
  function StateName(s: State): string {
    match s
    case Created => "CREATED"
    case Initialized => "INITIALIZED"
    case Loaded => "LOADED"
    case Resolved => "RESOLVED"
    case Started => "STARTED"
    case Stopped => "STOPPED"
  }

  /** Enum.valueOf: the state with the given name, if any. */
  function ParseState(name: string): (r: Optional<State>)
    ensures r.Of? ==> StateName(r.value) == name
  {
    if name == "CREATED" then Of(Created)
    else if name == "INITIALIZED" then Of(Initialized)
    else if name == "LOADED" then Of(Loaded)
    else if name == "RESOLVED" then Of(Resolved)
    else if name == "STARTED" then Of(Started)
    else if name == "STOPPED" then Of(Stopped)
    else Empty
  }

  /** The textual form of a state names it uniquely. */
  lemma StateNameRoundTrip(s: State)
    ensures ParseState(StateName(s)) == Of(s)
  {
  }

  /** The whole observable state of a lifecycle object. */
  datatype Snapshot = Snapshot(
    state: State,
    preInit: Hook, preLoad: Hook, preResolve: Hook, preStart: Hook, preStop: Hook, postStop: Hook,
    log: seq<Hook>)

  /** The hook held in a slot. */
  function Slot(s: Snapshot, p: Phase): Hook {
    match p
    case PreInitialize => s.preInit
    case PreLoad => s.preLoad
    case PreResolve => s.preResolve
    case PreStart => s.preStart
    case PreStop => s.preStop
    case PostStop => s.postStop
  }

  /** What a new instance holds: state CREATED, every slot NOTHING, nothing run yet. */
  const Initial: Snapshot := Snapshot(Created, Nothing, Nothing, Nothing, Nothing, Nothing, Nothing, [])

  /** A hook setter: overwrites one slot and nothing else. */
  function WithSlot(s: Snapshot, p: Phase, h: Hook): (r: Snapshot)
    ensures Slot(r, p) == h
    ensures forall q :: q != p ==> Slot(r, q) == Slot(s, q)
    ensures r.state == s.state && r.log == s.log
  {
    match p
    case PreInitialize => s.(preInit := h)
    case PreLoad => s.(preLoad := h)
    case PreResolve => s.(preResolve := h)
    case PreStart => s.(preStart := h)
    case PreStop => s.(preStop := h)
    case PostStop => s.(postStop := h)
  }

  /** Running a slot: runs the hook it holds, and changes nothing else. */
  function RunSlot(s: Snapshot, p: Phase): (r: Snapshot)
    ensures r.log == s.log + [Slot(s, p)]
    ensures r.(log := s.log) == s
  {
    s.(log := s.log + [Slot(s, p)])
  }

  lemma InitialSlots(p: Phase)
    ensures Slot(Initial, p) == Nothing && Initial.state == Created
  {
  }

  /** Slots hold a single hook: setting twice keeps only the last one. */
  lemma SetTwiceKeepsLast(s: Snapshot, p: Phase, a: Hook, b: Hook)
    ensures WithSlot(WithSlot(s, p, a), p, b) == WithSlot(s, p, b)
  {
  }

  /** Setters of different slots do not interfere. */
  lemma SettersCommute(s: Snapshot, p: Phase, q: Phase, a: Hook, b: Hook)
    requires p != q
    ensures WithSlot(WithSlot(s, p, a), q, b) == WithSlot(WithSlot(s, q, b), p, a)
  {
  }

  /** After a setter, running that slot runs exactly the hook just set. */
  lemma RunRunsLastSet(s: Snapshot, p: Phase, h: Hook)
    ensures RunSlot(WithSlot(s, p, h), p).log == s.log + [h]
  {
  }

  /** AbstractLifecycle, with the fields of the source and the log of hooks run. */
  class AbstractLifecycle {
    var state: State
    var preInit: Hook
    var preLoad: Hook
    var preResolve: Hook
    var preStart: Hook
    var preStop: Hook
    var postStop: Hook
    var log: seq<Hook>

    function Snap(): Snapshot
      reads this
    {
      Snapshot(state, preInit, preLoad, preResolve, preStart, preStop, postStop, log)
    }

    constructor ()
      ensures Snap() == Initial
    {
      state := Created;
      preInit, preLoad, preResolve, preStart, preStop, postStop := Nothing, Nothing, Nothing, Nothing, Nothing, Nothing;
      log := [];
    }

    /** setState: a null state (Empty) throws and changes nothing. */
    method SetState(newState: Optional<State>) returns (outcome: Outcome)
      modifies this
      ensures newState.Empty? ==> outcome == Fail(NullPointer) && Snap() == old(Snap())
      ensures newState.Of? ==> outcome == Pass && Snap() == old(Snap()).(state := newState.value)
    {
      if newState.Empty? {
        return Fail(NullPointer);
      }
      state := newState.value;
      outcome := Pass;
    }

    function GetState(): State
      reads this
    {
      state
    }

    /** The six setters; a null hook (Empty) throws and changes nothing. */
    method SetPreInitialize(hook: Optional<Hook>) returns (outcome: Outcome)
      modifies this
      ensures hook.Empty? ==> outcome == Fail(NullPointer) && Snap() == old(Snap())
      ensures hook.Of? ==> outcome == Pass && Snap() == WithSlot(old(Snap()), PreInitialize, hook.value)
    {
      if hook.Empty? {
        return Fail(NullPointer);
      }
      preInit := hook.value;
      outcome := Pass;
    }

    method SetPreLoad(hook: Optional<Hook>) returns (outcome: Outcome)
      modifies this
      ensures hook.Empty? ==> outcome == Fail(NullPointer) && Snap() == old(Snap())
      ensures hook.Of? ==> outcome == Pass && Snap() == WithSlot(old(Snap()), PreLoad, hook.value)
    {
      if hook.Empty? {
        return Fail(NullPointer);
      }
      preLoad := hook.value;
      outcome := Pass;
    }

    method SetPreResolve(hook: Optional<Hook>) returns (outcome: Outcome)
      modifies this
      ensures hook.Empty? ==> outcome == Fail(NullPointer) && Snap() == old(Snap())
      ensures hook.Of? ==> outcome == Pass && Snap() == WithSlot(old(Snap()), PreResolve, hook.value)
    {
      if hook.Empty? {
        return Fail(NullPointer);
      }
      preResolve := hook.value;
      outcome := Pass;
    }

    method SetPreStart(hook: Optional<Hook>) returns (outcome: Outcome)
      modifies this
      ensures hook.Empty? ==> outcome == Fail(NullPointer) && Snap() == old(Snap())
      ensures hook.Of? ==> outcome == Pass && Snap() == WithSlot(old(Snap()), PreStart, hook.value)
    {
      if hook.Empty? {
        return Fail(NullPointer);
      }
      preStart := hook.value;
      outcome := Pass;
    }

    method SetPreStop(hook: Optional<Hook>) returns (outcome: Outcome)
      modifies this
      ensures hook.Empty? ==> outcome == Fail(NullPointer) && Snap() == old(Snap())
      ensures hook.Of? ==> outcome == Pass && Snap() == WithSlot(old(Snap()), PreStop, hook.value)
    {
      if hook.Empty? {
        return Fail(NullPointer);
      }
      preStop := hook.value;
      outcome := Pass;
    }

    method SetPostStop(hook: Optional<Hook>) returns (outcome: Outcome)
      modifies this
      ensures hook.Empty? ==> outcome == Fail(NullPointer) && Snap() == old(Snap())
      ensures hook.Of? ==> outcome == Pass && Snap() == WithSlot(old(Snap()), PostStop, hook.value)
    {
      if hook.Empty? {
        return Fail(NullPointer);
      }
      postStop := hook.value;
      outcome := Pass;
    }

    /** preInitialize() ... postStop(): each runs the hook in its own slot. */
    method RunPreInitialize()
      modifies this
      ensures Snap() == RunSlot(old(Snap()), PreInitialize)
    {
      log := log + [preInit];
    }

    method RunPreLoad()
      modifies this
      ensures Snap() == RunSlot(old(Snap()), PreLoad)
    {
      log := log + [preLoad];
    }

    method RunPreResolve()
      modifies this
      ensures Snap() == RunSlot(old(Snap()), PreResolve)
    {
      log := log + [preResolve];
    }

    method RunPreStart()
      modifies this
      ensures Snap() == RunSlot(old(Snap()), PreStart)
    {
      log := log + [preStart];
    }

    method RunPreStop()
      modifies this
      ensures Snap() == RunSlot(old(Snap()), PreStop)
    {
      log := log + [preStop];
    }

    method RunPostStop()
      modifies this
      ensures Snap() == RunSlot(old(Snap()), PostStop)
    {
      log := log + [postStop];
    }

    /** toString: the name of the current state. */
    function ToString(): (r: string)
      reads this
      ensures ParseState(r) == Of(state)
    {
      StateName(state)
    }
  }
}
