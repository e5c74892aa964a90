/// The game object of src/Game/Game.cpp: the LIFO stack of UI/game states with
/// the deferred-delete list, the two derived views of the stack ("visible"
/// for rendering, "active" for input and thinking), and the lazily loaded
/// global-variable array.
module Game {
  import opened Seqs
  import opened Outcomes
  import Variables
  import Objects

  /** The "activate"/"deactivate" state events a state emits to its own handlers. */
  datatype StateEvent = Activate | Deactivate

  /** The concrete state classes the core distinguishes with `dynamic_cast`. */
  datatype StateKind = LocationState | NewGameState | PlayerCreateOptionsState | OtherState

  /** `State::State`, with the flags the game reads and writes. */
  class State {
    const kind: StateKind
    var initialized: bool
    var active: bool
    var fullscreen: bool
    var modal: bool
    /** Every state event emitted so far, oldest first. */
    var events: seq<StateEvent>

    constructor (kind: StateKind)
      ensures this.kind == kind
      ensures !initialized && !active && !fullscreen && !modal && events == []
    {
      this.kind := kind;
      initialized, active, fullscreen, modal := false, false, false, false;
      events := [];
    }

    /**
     * `init()`: the state becomes initialised; a location and the new-game
     * screen make themselves fullscreen and modal, the player-options screen
     * modal but not fullscreen. Other subclasses' overrides are not modelled,
     * so their flags are left unstated.
     */
    method Init()
      modifies this`initialized, this`fullscreen, this`modal
      ensures initialized
      ensures active == old(active) && events == old(events)
      ensures kind == LocationState || kind == NewGameState ==> fullscreen && modal
      ensures kind == PlayerCreateOptionsState ==> !fullscreen && modal
    {
      initialized := true;
      if kind == LocationState || kind == NewGameState {
        fullscreen := true;
        modal := true;
      } else if kind == PlayerCreateOptionsState {
        fullscreen := false;
        modal := true;
      }
    }
  }

  /** The kinds of `ss`, bottom to top. */
  function KindsOf(ss: seq<State>): (ks: seq<StateKind>)
    ensures |ks| == |ss| && forall i :: 0 <= i < |ss| ==> ks[i] == ss[i].kind
  {
    seq(|ss|, i requires 0 <= i < |ss| => ss[i].kind)
  }

  /** `s` was popped: it is inactive and has emitted "deactivate", its other flags kept. */
  twostate predicate Popped(s: State)
    reads s`active, s`events
  {
    !s.active && s.events == old(s.events) + [Deactivate]
  }

  /** `s` is still active or inactive as it was, with no new events. */
  twostate predicate Untouched(s: State)
    reads s`active, s`events
  {
    s.active == old(s.active) && s.events == old(s.events)
  }

  /** `s` ends active, emitting "activate" only if it was inactive. */
  twostate predicate Activated(s: State)
    reads s`active, s`events
  {
    s.active && s.events == old(s.events) + (if old(s.active) then [] else [Activate])
  }

  /** `s` ends inactive, emitting "deactivate" only if it was active. */
  twostate predicate Deactivated(s: State)
    reads s`active, s`events
  {
    !s.active && s.events == old(s.events) + (if old(s.active) then [Deactivate] else [])
  }

  /** `fullscreen()` of each of `ss`. */
  ghost function Fullscreens(ss: seq<State>): (f: seq<bool>)
    reads ss`fullscreen
    ensures |f| == |ss| && forall i :: 0 <= i < |ss| ==> f[i] == ss[i].fullscreen
  {
    if ss == [] then [] else Fullscreens(ss[..|ss| - 1]) + [ss[|ss| - 1].fullscreen]
  }

  /** `modal() || fullscreen()` of each of `ss`: where the active view stops. */
  ghost function Stops(ss: seq<State>): (f: seq<bool>)
    reads ss`modal, ss`fullscreen
    ensures |f| == |ss| && forall i :: 0 <= i < |ss| ==> f[i] == (ss[i].modal || ss[i].fullscreen)
  {
    if ss == [] then [] else Stops(ss[..|ss| - 1]) + [ss[|ss| - 1].modal || ss[|ss| - 1].fullscreen]
  }

  /** `active()` of each of `ss`. */
  ghost function ActiveFlags(ss: seq<State>): (f: seq<bool>)
    reads ss`active
    ensures |f| == |ss| && forall i :: 0 <= i < |ss| ==> f[i] == ss[i].active
  {
    if ss == [] then [] else ActiveFlags(ss[..|ss| - 1]) + [ss[|ss| - 1].active]
  }

  /** The event log of each of `ss`. */
  ghost function EventLogs(ss: seq<State>): (f: seq<seq<StateEvent>>)
    reads ss`events
    ensures |f| == |ss| && forall i :: 0 <= i < |ss| ==> f[i] == ss[i].events
  {
    if ss == [] then [] else EventLogs(ss[..|ss| - 1]) + [ss[|ss| - 1].events]
  }

  /** The start of a view that runs from the topmost flagged entry to the top, or from the bottom when none is flagged. */
  function ViewStart(flags: seq<bool>): (start: nat)
    ensures start <= |flags| && (|flags| > 0 ==> start < |flags|)
    ensures start > 0 ==> flags[start]
    ensures forall j :: start < j < |flags| ==> !flags[j]
  {
    var t := LastTrue(flags);
    if t < 0 then 0 else t
  }

  /** A view starts at `k` when `k` is flagged (or the bottom) and nothing above it is. */
  lemma ViewStartAt(flags: seq<bool>, k: nat)
    requires k < |flags| && (k == 0 || flags[k])
    requires forall j :: k < j < |flags| ==> !flags[j]
    ensures ViewStart(flags) == k
  {
  }

  /** The GVARS after `_initGVARS`: loaded from the file only while the array is still empty. */
  function LoadedGvars(current: seq<int>, gam: seq<int>): (loaded: seq<int>)
    ensures |current| > 0 ==> loaded == current
    ensures |loaded| == 0 <==> |current| == 0 && |gam| == 0
  {
    if |current| > 0 then current else gam
  }

  /** `_initGVARS` is idempotent. */
  lemma LoadedGvarsIdempotent(current: seq<int>, gam: seq<int>)
    ensures LoadedGvars(LoadedGvars(current, gam), gam) == LoadedGvars(current, gam)
  {
  }

  /** `Game::Game`, the singleton owning the state stack. */
  class Game {
    /** `_states`, bottom first. */
    var states: seq<State>
    /** `_statesForDelete`: popped states awaiting deletion at the end of the frame. */
    var statesForDelete: seq<State>
    /** `_GVARS`. */
    var gvars: seq<int>
    /** The GVARS of data/vault13.gam, in the order the GAM file's variable map yields them. */
    const gamGvars: seq<int>
    /** `_player`. */
    var player: Objects.GameObject?

    /** Each state on the stack is owned once. */
    ghost predicate Valid()
      reads this
    {
      Distinct(states)
    }

    constructor (gamGvars: seq<int>)
      ensures Valid() && states == [] && statesForDelete == []
      ensures gvars == [] && this.gamGvars == gamGvars && player == null
    {
      states, statesForDelete, gvars := [], [], [];
      this.gamGvars := gamGvars;
      player := null;
    }

    /** `fullscreen()` of each state, bottom to top. */
    ghost function FullscreenFlags(): seq<bool>
      reads this`states, states`fullscreen
    {
      Fullscreens(states)
    }

    /** `modal() || fullscreen()` of each state, bottom to top. */
    ghost function StopFlags(): seq<bool>
      reads this`states, states`modal, states`fullscreen
    {
      Stops(states)
    }

    /** The state on top, as a frame. */
    ghost function Top(): seq<State>
      reads this`states
    {
      if states == [] then [] else [states[|states| - 1]]
    }

    /** The state `offset` places below the top (`topState(offset)`). */
    function TopState(offset: nat): (s: State)
      reads this
      requires offset < |states|
      ensures s in states
    {
      states[|states| - 1 - offset]
    }

    /** `pushState`: the state goes on top, is initialised if it was not, becomes active and emits "activate". */
    method PushState(state: State)
      requires Valid() && state !in states
      modifies this`states, state
      ensures Valid()
      ensures states == old(states) + [state] && TopState(0) == state
      ensures state.initialized && state.active
      ensures state.events == old(state.events) + [Activate]
      ensures old(state.initialized) ==> state.fullscreen == old(state.fullscreen) && state.modal == old(state.modal)
      ensures !old(state.initialized) && (state.kind == LocationState || state.kind == NewGameState) ==> state.fullscreen && state.modal
      ensures !old(state.initialized) && state.kind == PlayerCreateOptionsState ==> !state.fullscreen && state.modal
    {
      states := states + [state];
      if !state.initialized {
        state.Init();
      }
      state.active := true;
      state.events := state.events + [Activate];
    }

    /** `popState`: nothing on an empty stack; otherwise the top state moves to the deferred-delete list, becomes inactive and emits "deactivate". */
    method PopState()
      requires Valid()
      modifies this`states, this`statesForDelete, Top()`active, Top()`events
      ensures Valid()
      ensures old(states) == [] ==> states == [] && statesForDelete == old(statesForDelete)
      ensures old(states) != [] ==>
        var top := old(states[|states| - 1]);
        && states == old(states[..|states| - 1])
        && statesForDelete == old(statesForDelete) + [top]
        && Popped(top)
    {
      if |states| == 0 {
        return;
      }
      var state := states[|states| - 1];
      assert state in Top();
      statesForDelete := statesForDelete + [state];
      states := states[..|states| - 1];
      state.active := false;
      state.events := state.events + [Deactivate];
    }

    /** `while (!_states.empty()) popState();`, the loop shared by `shutdown` and `setState`. */
    method PopAll()
      requires Valid()
      modifies this`states, this`statesForDelete, states`active, states`events
      ensures Valid() && states == []
      ensures statesForDelete == old(statesForDelete) + Reverse(old(states))
      ensures forall s :: s in old(states) ==> Popped(s)
    {
      ghost var s0, d0 := states, statesForDelete;
      ghost var a0 := ActiveFlags(s0);
      ghost var e0 := EventLogs(s0);
      while states != []
        invariant PopLoop(s0, d0, a0, e0)
        decreases |states|
      {
        PopStep(s0, d0, a0, e0);
      }
      forall s | s in s0
        ensures Popped(s)
      {
        var i :| 0 <= i < |s0| && s0[i] == s;
      }
    }

    /**
     * The invariant of `PopAll`'s loop over the stack `s0` it started from
     * (with deferred-delete list `d0`, active flags `a0` and event logs `e0`):
     * the stack is a prefix of `s0`, the rest was popped top first.
     */
    ghost predicate PopLoop(s0: seq<State>, d0: seq<State>, a0: seq<bool>, e0: seq<seq<StateEvent>>)
      reads this, s0
    {
      && Valid() && Distinct(s0) && |a0| == |s0| && |e0| == |s0|
      && |states| <= |s0| && states == s0[..|states|]
      && statesForDelete == d0 + Reverse(s0[|states|..])
      && (forall i :: |states| <= i < |s0| ==> !s0[i].active && s0[i].events == e0[i] + [Deactivate])
      && (forall i :: 0 <= i < |states| ==> s0[i].active == a0[i] && s0[i].events == e0[i])
    }

    /** One turn of `PopAll`'s loop. */
    method PopStep(ghost s0: seq<State>, ghost d0: seq<State>, ghost a0: seq<bool>, ghost e0: seq<seq<StateEvent>>)
      requires PopLoop(s0, d0, a0, e0) && states != []
      modifies this`states, this`statesForDelete, states`active, states`events
      ensures PopLoop(s0, d0, a0, e0) && |states| == old(|states|) - 1
    {
      ghost var k := |states|;
      PopState();
      ReverseExtend(s0, k);
    }

    /** `shutdown`: every state is popped, top first (the mixer, resources and settings it also releases are not modelled). */
    method Shutdown()
      requires Valid()
      modifies this`states, this`statesForDelete, states`active, states`events
      ensures Valid() && states == []
      ensures statesForDelete == old(statesForDelete) + Reverse(old(states))
      ensures forall s :: s in old(states) ==> Popped(s)
    {
      PopAll();
    }

    /** `setState`: every state is popped, then `state` is pushed, so the stack is exactly `[state]`. */
    method SetState(state: State)
      requires Valid() && state !in states
      modifies this`states, this`statesForDelete, states`active, states`events, state
      ensures Valid() && states == [state]
      ensures statesForDelete == old(statesForDelete) + Reverse(old(states))
      ensures forall s :: s in old(states) ==> Popped(s)
      ensures state.initialized && state.active && state.events == old(state.events) + [Activate]
      ensures old(state.initialized) ==> state.fullscreen == old(state.fullscreen) && state.modal == old(state.modal)
      ensures !old(state.initialized) && (state.kind == LocationState || state.kind == NewGameState) ==> state.fullscreen && state.modal
      ensures !old(state.initialized) && state.kind == PlayerCreateOptionsState ==> !state.fullscreen && state.modal
    {
      PopAll();
      PushState(state);
    }

    /** `setPlayer`. */
    method SetPlayer(p: Objects.GameObject?)
      modifies this`player
      ensures player == p
    {
      player := p;
    }

    /** `locationState`: the bottom-most location state, or null when the stack holds none. */
    method FindLocationState() returns (location: State?)
      ensures var i := FirstIndex(KindsOf(states), LocationState);
        location == if i < |states| then states[i] else null
    {
      var i := 0;
      while i < |states|
        invariant 0 <= i <= |states|
        invariant forall j :: 0 <= j < i ==> states[j].kind != LocationState
      {
        if states[i].kind == LocationState {
          return states[i];
        }
        i := i + 1;
      }
      return null;
    }

    /** `_getVisibleStates`: bottom to top, the states from the topmost fullscreen one (or the bottom) to the top; empty for an empty stack. */
    method VisibleStates() returns (subset: seq<State>)
      ensures states == [] ==> subset == []
      ensures subset == states[ViewStart(FullscreenFlags())..]
    {
      if |states| == 0 {
        return [];
      }
      var it := |states| - 1;
      while it != 0 && !states[it].fullscreen
        invariant 0 <= it < |states|
        invariant forall j :: it < j < |states| ==> !states[j].fullscreen
      {
        it := it - 1;
      }
      ViewStartAt(FullscreenFlags(), it);
      subset := [];
      var k := it;
      while k < |states|
        invariant it <= k <= |states|
        invariant subset == states[it..k]
      {
        subset := subset + [states[k]];
        k := k + 1;
      }
    }

    /**
     * `_getActiveStates`: top to bottom, the states down to and including the
     * first modal or fullscreen one; each of them ends active (emitting
     * "activate" if it was not) and every state below ends inactive (emitting
     * "deactivate" if it was active).
     */
    method ActiveStates() returns (subset: seq<State>)
      requires Valid()
      modifies states`active, states`events
      ensures subset == Reverse(states[ViewStart(StopFlags())..])
      ensures forall i :: ViewStart(StopFlags()) <= i < |states| ==> Activated(states[i])
      ensures forall i :: 0 <= i < ViewStart(StopFlags()) ==> Deactivated(states[i])
    {
      var start;
      subset, start := ActivateDownToStop();
      DeactivateBelow(start);
    }

    /** The first loop of `_getActiveStates`: from the top down to the first modal or fullscreen state, each is collected and activated. */
    method ActivateDownToStop() returns (subset: seq<State>, start: nat)
      requires Valid()
      modifies states`active, states`events
      ensures start == ViewStart(StopFlags())
      ensures subset == Reverse(states[start..])
      ensures forall i :: start <= i < |states| ==> Activated(states[i])
      ensures forall i :: 0 <= i < start ==> Untouched(states[i])
    {
      ghost var a0, e0 := ActiveFlags(states), EventLogs(states);
      ActivateLoopEntry();
      var k, stopped;
      subset, k, stopped := ActivateFromTop(a0, e0);
      ActivateLoopExit(k, stopped, subset, a0, e0);
      start := k;
      forall i | start <= i < |states|
        ensures Activated(states[i])
      {
        assert a0[i] == old(states[i].active) && e0[i] == old(states[i].events);
      }
      forall i | 0 <= i < start
        ensures Untouched(states[i])
      {
        assert a0[i] == old(states[i].active) && e0[i] == old(states[i].events);
      }
    }

    /**
     * The invariant of the first loop of `_getActiveStates`, given the
     * states' active flags `a0` and event logs `e0` before it: the states from
     * `k` up were collected top first and activated, none above `k` stops the
     * view, and `stopped` says that `k` does.
     */
    ghost predicate ActivateLoop(k: nat, stopped: bool, subset: seq<State>, a0: seq<bool>, e0: seq<seq<StateEvent>>)
      reads this, states
    {
      && Valid() && |a0| == |states| && |e0| == |states| && k <= |states|
      && subset == Reverse(states[k..])
      && (k < |states| ==> (stopped <==> states[k].modal || states[k].fullscreen))
      && (stopped ==> k < |states|)
      && (forall j :: k < j < |states| ==> !(states[j].modal || states[j].fullscreen))
      && (forall j :: k <= j < |states| ==> states[j].active && states[j].events == e0[j] + (if a0[j] then [] else [Activate]))
      && (forall j :: 0 <= j < k ==> states[j].active == a0[j] && states[j].events == e0[j])
    }

    /** Before the loop nothing is collected and every state is as it was. */
    lemma ActivateLoopEntry()
      requires Valid()
      ensures ActivateLoop(|states|, false, [], ActiveFlags(states), EventLogs(states))
    {
      assert states[|states|..] == [];
    }

    /** Once the loop reached the bottom or a stopping state, it stopped where the view starts. */
    lemma ActivateLoopExit(k: nat, stopped: bool, subset: seq<State>, a0: seq<bool>, e0: seq<seq<StateEvent>>)
      requires ActivateLoop(k, stopped, subset, a0, e0) && (k == 0 || stopped)
      ensures k == ViewStart(StopFlags())
    {
      if k < |states| {
        ViewStartAt(StopFlags(), k);
      }
    }

    /** The loop itself, run from the top of the stack until it reaches the bottom or a state that stops the view. */
    method ActivateFromTop(ghost a0: seq<bool>, ghost e0: seq<seq<StateEvent>>)
      returns (subset: seq<State>, k: nat, stopped: bool)
      requires ActivateLoop(|states|, false, [], a0, e0)
      modifies states`active, states`events
      ensures ActivateLoop(k, stopped, subset, a0, e0) && (k == 0 || stopped)
    {
      k := |states|;
      stopped := false;
      subset := [];
      while k > 0 && !stopped
        invariant ActivateLoop(k, stopped, subset, a0, e0)
      {
        subset, k, stopped := ActivateStep(subset, k, a0, e0);
      }
    }

    /** One turn of that loop: the state below `k` is collected and activated. */
    method ActivateStep(subset: seq<State>, k: nat, ghost a0: seq<bool>, ghost e0: seq<seq<StateEvent>>)
      returns (subset': seq<State>, k': nat, stopped': bool)
      requires ActivateLoop(k, false, subset, a0, e0) && k > 0
      modifies states`active, states`events
      ensures ActivateLoop(k', stopped', subset', a0, e0) && k' == k - 1
    {
      var state := states[k - 1];
      if !state.active {
        state.events := state.events + [Activate];
        state.active := true;
      }
      ReverseExtend(states, k);
      subset' := subset + [state];
      k' := k - 1;
      stopped' := state.modal || state.fullscreen;
    }

    /** The second loop of `_getActiveStates`: every state below `start` is deactivated. */
    method DeactivateBelow(start: nat)
      requires Valid() && start <= |states|
      modifies states`active, states`events
      ensures forall i :: 0 <= i < start ==> Deactivated(states[i])
      ensures forall i :: start <= i < |states| ==> Untouched(states[i])
    {
      var j := start;
      while j > 0
        invariant 0 <= j <= start
        invariant forall i :: j <= i < start ==> Deactivated(states[i])
        invariant forall i :: 0 <= i < j || start <= i < |states| ==> Untouched(states[i])
      {
        var state := states[j - 1];
        if state.active {
          state.events := state.events + [Deactivate];
          state.active := false;
        }
        j := j - 1;
      }
    }

    /** `_initGVARS`: the variables are read from the file only while the array is empty. */
    method InitGvars()
      modifies this`gvars
      ensures gvars == LoadedGvars(old(gvars), gamGvars)
    {
      if |gvars| > 0 {
        return;
      }
      var i := 0;
      while i < |gamGvars|
        invariant 0 <= i <= |gamGvars| && gvars == gamGvars[..i]
      {
        gvars := gvars + [gamGvars[i]];
        i := i + 1;
      }
    }

    /** `GVAR(number)`: loads the variables if needed, then fails for a number past the end. */
    method Gvar(number: nat) returns (r: Result<int, Variables.VarError>)
      modifies this`gvars
      ensures gvars == LoadedGvars(old(gvars), gamGvars)
      ensures r == Variables.Get(gvars, number)
    {
      InitGvars();
      if number >= |gvars| {
        return Err(Variables.NumOutOfRange(number));
      }
      return Ok(gvars[number]);
    }

    /** `setGVAR(number, value)`: loads the variables if needed, then fails for a number past the end or stores the value. */
    method SetGvar(number: nat, value: int) returns (r: Outcome<Variables.VarError>)
      modifies this`gvars
      ensures var loaded := LoadedGvars(old(gvars), gamGvars);
        match Variables.Set(loaded, number, value)
        case Ok(updated) => r == Pass && gvars == updated
        case Err(e) => r == Fail(e) && gvars == loaded
    {
      InitGvars();
      if number >= |gvars| {
        return Fail(Variables.NumOutOfRange(number));
      }
      gvars := gvars[number := value];
      return Pass;
    }
  }
}
