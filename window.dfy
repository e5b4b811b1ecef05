/**
 * The window side of the engine, `src/engine/window.rs`: each window keeps
 * a stack of game states, runs the top one once per frame and applies the
 * transition it asks for; the window manager keeps the windows by id and
 * does the per-frame bookkeeping of the winit event loop.
 *
 * Game states are opaque here: a state is named by a number, its `start`
 * and `stop` calls are recorded in a log, and what its `shadow_update` and
 * `update` return is an input. The `|` of `LoopState` is defined outside
 * this file, so it is a parameter `join` with `WAIT_ALL` beside it.
 */
module Window {
  import opened Wrappers

  /** winit's `ControlFlow`, as far as this file sets and tests it. */
  datatype Flow = Poll | Wait | ExitLoop

  /** What a game state asks of the event loop: how to wait and whether to redraw. */
  datatype LoopState = LoopState(controlFlow: Flow, render: bool)

  /** A call into a game state, in the order the window makes them. */
  datatype Call = Start(state: nat) | Stop(state: nat)

  /** `Trans`: what the top state asks the window to do with the stack; `Batch` is `Trans::Vec`, `Stay` is `Trans::None`. */
  datatype Trans = Push(state: nat) | Pop | Switch(state: nat) | Exit | Batch(ts: seq<Trans>) | Stay

  /**
   * A window's bookkeeping as a value: its state stack (top last), whether
   * it runs, the calls made so far, the key sets gathered since the last
   * frame, whether an event came in, and the last loop state.
   */
  datatype Win = Win(
    states: seq<nat>, running: bool, log: seq<Call>,
    pressed: set<nat>, released: set<nat>, gotEvent: bool, loopState: LoopState)

  /** The `stop` calls of popping every state of `s`, top first. */
  function Stops(s: seq<nat>): (r: seq<Call>)
    ensures |r| == |s|
    ensures forall k :: 0 <= k < |s| ==> r[k] == Stop(s[|s| - 1 - k])
  {
    if s == [] then [] else [Stop(s[|s| - 1])] + Stops(s[..|s| - 1])
  }

  /**
   * `process_tran`: `None` when it panics, which it does on an empty stack
   * whatever the transition, since it unwraps the top state first.
   */
  function Run(w: Win, t: Trans): (r: Option<Win>)
    ensures w.states == [] ==> r == None
    ensures r.Some? ==> (r.value.pressed == w.pressed && r.value.released == w.released
      && r.value.gotEvent == w.gotEvent && r.value.loopState == w.loopState)
    decreases t, if t.Batch? then |t.ts| + 1 else 0
  {
    if w.states == [] then None
    else
      var n := |w.states|;
      match t
      case Push(x) => Some(w.(states := w.states + [x], log := w.log + [Start(x)]))
      case Pop => Some(w.(states := w.states[..n - 1], log := w.log + [Stop(w.states[n - 1])]))
      case Switch(x) => Some(w.(states := w.states[n - 1 := x], log := w.log + [Stop(w.states[n - 1]), Start(x)]))
      case Exit => Some(w.(states := [], running := false, log := w.log + Stops(w.states)))
      case Batch(ts) => RunPrefix(w, ts, |ts|)
      case Stay => Some(w)
  }

  /** The first `n` transitions of a batch, applied in order; `None` once one of them panics. */
  function RunPrefix(w: Win, ts: seq<Trans>, n: nat): (r: Option<Win>)
    requires n <= |ts|
    ensures n == 0 ==> r == Some(w)
    ensures r.Some? ==> (r.value.pressed == w.pressed && r.value.released == w.released
      && r.value.gotEvent == w.gotEvent && r.value.loopState == w.loopState)
    decreases Batch(ts), n
  {
    if n == 0 then Some(w)
    else
      assert ts[n - 1] in ts;
      match RunPrefix(w, ts, n - 1)
      case None => None
      case Some(v) => Run(v, ts[n - 1])
  }

  /** Once a transition of a batch panics, the rest of the batch does not run. */
  lemma {:induction false} PanicStays(w: Win, ts: seq<Trans>, i: nat, n: nat)
    requires i <= n <= |ts| && RunPrefix(w, ts, i) == None
    ensures RunPrefix(w, ts, n) == None
    decreases n
  {
    if n > i {
      PanicStays(w, ts, i, n - 1);
    }
  }

  /** The prefixes of a batch do not depend on what follows them. */
  lemma {:induction false} PrefixOnly(w: Win, ts: seq<Trans>, more: seq<Trans>, n: nat)
    requires n <= |ts|
    ensures RunPrefix(w, ts + more, n) == RunPrefix(w, ts, n)
    decreases n
  {
    if n > 0 {
      PrefixOnly(w, ts, more, n - 1);
      assert (ts + more)[n - 1] == ts[n - 1];
    }
  }

  /** `Push(x)` starts `x` and puts it on top: one state more, the others unchanged. */
  lemma PushLaw(w: Win, x: nat)
    requires w.states != []
    ensures var r := Run(w, Push(x));
      && r.Some? && |r.value.states| == |w.states| + 1
      && r.value.states[|w.states|] == x && r.value.states[..|w.states|] == w.states
      && r.value.log == w.log + [Start(x)] && r.value.running == w.running
  {
    assert (w.states + [x])[..|w.states|] == w.states;
  }

  /** `Pop` stops the top state and removes it: one state fewer, the others unchanged. */
  lemma PopLaw(w: Win)
    requires w.states != []
    ensures var r := Run(w, Pop);
      && r.Some? && |r.value.states| == |w.states| - 1
      && r.value.states == w.states[..|w.states| - 1]
      && r.value.log == w.log + [Stop(w.states[|w.states| - 1])] && r.value.running == w.running
  {
  }

  /** `Switch(x)` stops the top, replaces it with `x` and starts `x`: the length and the lower states are unchanged. */
  lemma SwitchLaw(w: Win, x: nat)
    requires w.states != []
    ensures var r := Run(w, Switch(x)); var n := |w.states|;
      && r.Some? && |r.value.states| == n && r.value.states[n - 1] == x
      && r.value.states[..n - 1] == w.states[..n - 1]
      && r.value.log == w.log + [Stop(w.states[n - 1]), Start(x)]
  {
  }

  /** `Exit` stops every state from the top down, empties the stack and stops the window. */
  lemma ExitLaw(w: Win)
    requires w.states != []
    ensures var r := Run(w, Exit);
      && r.Some? && r.value.states == [] && !r.value.running
      && r.value.log == w.log + Stops(w.states)
  {
  }

  /** `None` changes nothing; an empty `Vec` changes nothing either. */
  lemma StayLaw(w: Win)
    requires w.states != []
    ensures Run(w, Stay) == Some(w) && Run(w, Batch([])) == Some(w)
  {
  }

  /** A `Vec` runs its transitions in order: the batch with `t` appended is the batch, then `t`. */
  lemma BatchInOrder(w: Win, ts: seq<Trans>, t: Trans)
    requires w.states != []
    ensures Run(w, Batch(ts + [t])) == match Run(w, Batch(ts)) case None => None case Some(v) => Run(v, t)
  {
    PrefixOnly(w, ts, [t], |ts|);
    assert (ts + [t])[|ts|] == t;
  }

  /** After `Exit` the stack is empty, so any transition after it in a `Vec` panics. */
  lemma ExitThenPanics(w: Win, t: Trans)
    requires w.states != []
    ensures Run(w, Batch([Exit, t])) == None
  {
    BatchInOrder(w, [Exit], t);
    assert [Exit] + [t] == [Exit, t];
    assert RunPrefix(w, [Exit], 1) == Run(w, Exit);
  }

  /** Every transition panics on an empty stack, a `Vec` of none and `None` included. */
  lemma EmptyPanics(w: Win, t: Trans)
    requires w.states == []
    ensures Run(w, t) == None && Run(w, Batch([])) == None && Run(w, Stay) == None
  {
  }

  /** What a transition does to the stack, the running flag and the log does not depend on the loop state. */
  lemma {:induction false} RunIgnoresLoopState(w: Win, t: Trans, a: LoopState)
    ensures Run(w.(loopState := a), t) == match Run(w, t) case None => None case Some(v) => Some(v.(loopState := a))
    decreases t, if t.Batch? then |t.ts| + 1 else 0
  {
    if w.states != [] && t.Batch? {
      PrefixIgnoresLoopState(w, t.ts, |t.ts|, a);
    }
  }

  /** The same for the first `n` transitions of a batch. */
  lemma {:induction false} PrefixIgnoresLoopState(w: Win, ts: seq<Trans>, n: nat, a: LoopState)
    requires n <= |ts|
    ensures RunPrefix(w.(loopState := a), ts, n) == match RunPrefix(w, ts, n) case None => None case Some(v) => Some(v.(loopState := a))
    decreases Batch(ts), n
  {
    if n > 0 {
      PrefixIgnoresLoopState(w, ts, n - 1, a);
      assert ts[n - 1] in ts;
      match RunPrefix(w, ts, n - 1)
      case None =>
      case Some(v) =>
        RunIgnoresLoopState(v, ts[n - 1], a);
        assert v.(loopState := a) == RunPrefix(w.(loopState := a), ts, n - 1).value;
    }
  }

  /** `LoopState::WAIT_ALL` joined with every loop state of `ls`, left to right. */
  function JoinAll(join: (LoopState, LoopState) -> LoopState, acc: LoopState, ls: seq<LoopState>): LoopState
  {
    if ls == [] then acc else join(JoinAll(join, acc, ls[..|ls| - 1]), ls[|ls| - 1])
  }

  /**
   * `loop_once`: the loop state restarts at `WAIT_ALL` and takes in every
   * state's `shadow_update`; then, when there is a top state, its `update`
   * gives the transition `tran` and the loop state `l`, the transition is
   * applied and `l` joined in. `None` when the transition panics.
   */
  function Tick(w: Win, join: (LoopState, LoopState) -> LoopState, waitAll: LoopState,
                shadows: seq<LoopState>, tran: Trans, l: LoopState): (r: Option<Win>)
    ensures w.states == [] ==> r == Some(w.(loopState := JoinAll(join, waitAll, shadows)))
    ensures w.states != [] ==> (r.Some? <==> Run(w, tran).Some?)
    ensures r.Some? && w.states != [] ==>
      r.value == Run(w, tran).value.(loopState := join(JoinAll(join, waitAll, shadows), l))
  {
    var w1 := w.(loopState := JoinAll(join, waitAll, shadows));
    RunIgnoresLoopState(w, tran, w1.loopState);
    if w.states == [] then Some(w1)
    else match Run(w1, tran)
      case None => None
      case Some(v) => Some(v.(loopState := join(v.loopState, l)))
  }

  /** `on_window_event`'s bookkeeping: any event marks the window, and a real key press or release is gathered. */
  function Seen(w: Win, key: Option<nat>, pressed: bool, synthetic: bool): (r: Win)
    ensures r.gotEvent && r.states == w.states && r.running == w.running && r.log == w.log
    ensures r.pressed == if !synthetic && key.Some? && pressed then w.pressed + {key.value} else w.pressed
    ensures r.released == if !synthetic && key.Some? && !pressed then w.released + {key.value} else w.released
  {
    if synthetic || key.None? then w.(gotEvent := true)
    else if pressed then w.(gotEvent := true, pressed := w.pressed + {key.value})
    else w.(gotEvent := true, released := w.released + {key.value})
  }

  /** A window `MainEventsCleared` passes over: no event since the last frame and a state that asked to wait. */
  predicate Idle(w: Win) {
    !w.gotEvent && w.loopState.controlFlow == Wait
  }

  /** A window `MainEventsCleared` stops: one not running, or with nothing left on its stack. */
  predicate Halted(w: Win) {
    !w.running || w.states == []
  }

  /**
   * What `MainEventsCleared` does to one window it does not pass over: the
   * key sets are handed on and cleared, an empty stack stops the window, a
   * running window runs `loop_once`, and the event mark is reset. `None`
   * when `loop_once` panics.
   */
  function Frame(w: Win, join: (LoopState, LoopState) -> LoopState, waitAll: LoopState, inp: TickInput): (r: Option<Win>)
  {
    var c := w.(pressed := {}, released := {}, running := w.running && w.states != []);
    if !c.running then Some(c.(gotEvent := false))
    else match Tick(c, join, waitAll, inp.shadows, inp.tran, inp.l)
      case None => None
      case Some(v) => Some(v.(gotEvent := false))
  }

  /** What a window's game states return during one frame: their `shadow_update`s, and the top state's `update`. */
  datatype TickInput = TickInput(shadows: seq<LoopState>, tran: Trans, l: LoopState)

  /**
   * A frame of a window it does not pass over clears both key sets and the
   * event mark, stops the window exactly when it was halted, and otherwise
   * leaves it running with the transition applied.
   */
  lemma FrameLaw(w: Win, join: (LoopState, LoopState) -> LoopState, waitAll: LoopState, inp: TickInput)
    ensures var r := Frame(w, join, waitAll, inp);
      && (Halted(w) ==> r.Some? && !r.value.running && r.value.states == w.states)
      && (!Halted(w) ==> (r.Some? <==> Run(w.(pressed := {}, released := {}), inp.tran).Some?))
      && (r.Some? ==> r.value.pressed == {} && r.value.released == {} && !r.value.gotEvent)
  {
    var c := w.(pressed := {}, released := {}, running := w.running && w.states != []);
    if !Halted(w) {
      assert c == w.(pressed := {}, released := {});
    }
  }

  /** A window `MainEventsCleared` stops and removes: one it does not pass over that is halted. */
  predicate Stopping(w: Win) {
    !Idle(w) && Halted(w)
  }

  /** What `MainEventsCleared` leaves of one window: unchanged when passed over, else its frame. */
  function After(w: Win, join: (LoopState, LoopState) -> LoopState, waitAll: LoopState, inp: TickInput): Option<Win>
  {
    if Idle(w) then Some(w) else Frame(w, join, waitAll, inp)
  }

  /** What one frame does to each window, by id: `After` with the window's own inputs. */
  function Framer(inputs: map<nat, TickInput>, join: (LoopState, LoopState) -> LoopState, waitAll: LoopState): (f: (nat, Win) -> Option<Win>)
    ensures forall id, w :: id in inputs ==> f(id, w) == After(w, join, waitAll, inputs[id])
  {
    (id: nat, w: Win) => if id in inputs then After(w, join, waitAll, inputs[id]) else None
  }

  /** The loop states the running windows of `order` end their frame with, joined left to right onto `WAIT_ALL`. */
  function FrameFlow(ws: map<nat, Win>, order: seq<nat>, frame: (nat, Win) -> Option<Win>,
                     join: (LoopState, LoopState) -> LoopState, waitAll: LoopState): LoopState
  {
    if order == [] then waitAll
    else
      var acc := FrameFlow(ws, order[..|order| - 1], frame, join, waitAll);
      var id := order[|order| - 1];
      if id in ws && !Idle(ws[id]) && !Halted(ws[id]) then
        match frame(id, ws[id])
        case None => acc
        case Some(v) => join(acc, v.loopState)
      else acc
  }

  /** What the loop of `MainEventsCleared` has gathered: the windows, `not_running`, whether the root stopped, `f_ls`. */
  datatype Sweep = Sweep(ws: map<nat, Win>, halted: set<nat>, rootStopped: bool, joined: LoopState)

  /** The windows of `order` may be visited in that order: each present, each once. */
  predicate Visitable(w0: map<nat, Win>, order: seq<nat>) {
    Present(w0, order) && forall i, j :: 0 <= i < j < |order| ==> order[i] != order[j]
  }

  /** Every window of `order` is there to visit. */
  predicate Present(w0: map<nat, Win>, order: seq<nat>) {
    forall j :: 0 <= j < |order| ==> order[j] in w0
  }

  /** The loop of `MainEventsCleared` after its first `n` windows; `None` once a frame panicked. */
  function SweepPrefix(w0: map<nat, Win>, order: seq<nat>, n: nat, frame: (nat, Win) -> Option<Win>, root: nat,
                       join: (LoopState, LoopState) -> LoopState, waitAll: LoopState): (r: Option<Sweep>)
    requires n <= |order| && Present(w0, order)
    ensures r.Some? ==> r.value.ws.Keys == w0.Keys
  {
    if n == 0 then Some(Sweep(w0, {}, false, waitAll))
    else match SweepPrefix(w0, order, n - 1, frame, root, join, waitAll)
      case None => None
      case Some(s) =>
        var id := order[n - 1];
        var w := s.ws[id];
        match frame(id, w)
        case None => None
        case Some(v) => Some(Visit(s, id, w, v, root, join))
  }

  /** One window of the loop: its frame `v` stored, set aside if stopping, its loop state joined if running. */
  function Visit(s: Sweep, id: nat, w: Win, v: Win, root: nat, join: (LoopState, LoopState) -> LoopState): Sweep {
    Sweep(s.ws[id := v],
          if Stopping(w) then s.halted + {id} else s.halted,
          s.rootStopped || (Stopping(w) && id == root),
          if !Idle(w) && !Halted(w) then join(s.joined, v.loopState) else s.joined)
  }

  /** One more window of the loop: its frame panics, or the sweep so far is extended by `Visit`. */
  lemma SweepStep(w0: map<nat, Win>, order: seq<nat>, i: nat, frame: (nat, Win) -> Option<Win>, root: nat,
                  join: (LoopState, LoopState) -> LoopState, waitAll: LoopState, s: Sweep)
    requires i < |order| && Present(w0, order)
    requires SweepPrefix(w0, order, i, frame, root, join, waitAll) == Some(s)
    ensures order[i] in s.ws
    ensures var id := order[i];
      SweepPrefix(w0, order, i + 1, frame, root, join, waitAll)
        == if frame(id, s.ws[id]).None? then None else Some(Visit(s, id, s.ws[id], frame(id, s.ws[id]).value, root, join))
  {
  }

  /** Once a frame panicked, the rest of the loop does not run. */
  lemma {:induction false} PanicSweeps(w0: map<nat, Win>, order: seq<nat>, i: nat, n: nat, frame: (nat, Win) -> Option<Win>, root: nat,
                                       join: (LoopState, LoopState) -> LoopState, waitAll: LoopState)
    requires i <= n <= |order| && Present(w0, order)
    requires SweepPrefix(w0, order, i, frame, root, join, waitAll) == None
    ensures SweepPrefix(w0, order, n, frame, root, join, waitAll) == None
    decreases n
  {
    if n > i {
      PanicSweeps(w0, order, i, n - 1, frame, root, join, waitAll);
    }
  }

  /**
   * After its first `n` windows, the loop has run a frame for each of
   * them, on the window as it was, and left the others alone; it panicked
   * exactly when one of those frames did.
   */
  lemma {:induction false} SweepFrames(w0: map<nat, Win>, order: seq<nat>, n: nat, frame: (nat, Win) -> Option<Win>, root: nat,
                                       join: (LoopState, LoopState) -> LoopState, waitAll: LoopState)
    requires n <= |order| && Visitable(w0, order)
    ensures var r := SweepPrefix(w0, order, n, frame, root, join, waitAll);
      && (r.Some? <==> forall j :: 0 <= j < n ==> frame(order[j], w0[order[j]]).Some?)
      && (r.Some? ==> forall j :: 0 <= j < n ==> Some(r.value.ws[order[j]]) == frame(order[j], w0[order[j]]))
      && (r.Some? ==> forall j :: n <= j < |order| ==> r.value.ws[order[j]] == w0[order[j]])
  {
    if n > 0 {
      SweepFrames(w0, order, n - 1, frame, root, join, waitAll);
    }
  }

  /** A window the loop has not reached yet is as it was. */
  lemma {:induction false} SweepUntouched(w0: map<nat, Win>, order: seq<nat>, n: nat, frame: (nat, Win) -> Option<Win>, root: nat,
                                          join: (LoopState, LoopState) -> LoopState, waitAll: LoopState, j: nat)
    requires n <= j < |order| && Visitable(w0, order)
    ensures var r := SweepPrefix(w0, order, n, frame, root, join, waitAll);
      r.Some? ==> r.value.ws[order[j]] == w0[order[j]]
  {
    if n > 0 {
      SweepUntouched(w0, order, n - 1, frame, root, join, waitAll, j);
      assert order[n - 1] != order[j];
    }
  }

  /** After its first `n` windows, the loop has joined the loop states of the running ones in order. */
  lemma {:induction false} SweepJoined(w0: map<nat, Win>, order: seq<nat>, n: nat, frame: (nat, Win) -> Option<Win>, root: nat,
                                       join: (LoopState, LoopState) -> LoopState, waitAll: LoopState)
    requires n <= |order| && Visitable(w0, order)
    ensures var r := SweepPrefix(w0, order, n, frame, root, join, waitAll);
      r.Some? ==> r.value.joined == FrameFlow(w0, order[..n], frame, join, waitAll)
  {
    if n > 0 {
      SweepJoined(w0, order, n - 1, frame, root, join, waitAll);
      SweepUntouched(w0, order, n - 1, frame, root, join, waitAll, n - 1);
      var r := SweepPrefix(w0, order, n, frame, root, join, waitAll);
      if r.Some? {
        var s := SweepPrefix(w0, order, n - 1, frame, root, join, waitAll).value;
        var id := order[n - 1];
        var w := w0[id];
        assert s.ws[id] == w;
        var v := frame(id, w).value;
        var pre := order[..n];
        assert pre[..n - 1] == order[..n - 1] && pre[n - 1] == id;
        assert FrameFlow(w0, pre, frame, join, waitAll)
          == if !Idle(w) && !Halted(w) then join(s.joined, v.loopState) else s.joined;
      }
    }
  }

  /** The stopping windows among the first `n` of `order`. */
  function HaltedIn(w0: map<nat, Win>, order: seq<nat>, n: nat): set<nat>
    requires n <= |order| && Present(w0, order)
  {
    if n == 0 then {}
    else HaltedIn(w0, order, n - 1) + if Stopping(w0[order[n - 1]]) then {order[n - 1]} else {}
  }

  /** A window is among the stopping ones of the first `n` exactly when it is one of them and stopping. */
  lemma {:induction false} HaltedInMembers(w0: map<nat, Win>, order: seq<nat>, n: nat, id: nat)
    requires n <= |order| && Present(w0, order)
    ensures id in HaltedIn(w0, order, n) <==> id in order[..n] && id in w0 && Stopping(w0[id])
  {
    if n > 0 {
      HaltedInMembers(w0, order, n - 1, id);
      assert order[..n] == order[..n - 1] + [order[n - 1]];
    }
  }

  /**
   * After its first `n` windows, the loop has put aside exactly the
   * stopping ones among them, noted whether the root is one, and joined
   * the loop states of the running ones in order.
   */
  lemma {:induction false} SweepGathers(w0: map<nat, Win>, order: seq<nat>, n: nat, frame: (nat, Win) -> Option<Win>, root: nat,
                                        join: (LoopState, LoopState) -> LoopState, waitAll: LoopState)
    requires n <= |order| && Visitable(w0, order)
    ensures var r := SweepPrefix(w0, order, n, frame, root, join, waitAll);
      r.Some? ==>
        && r.value.halted == HaltedIn(w0, order, n)
        && (r.value.rootStopped <==> root in r.value.halted)
        && r.value.joined == FrameFlow(w0, order[..n], frame, join, waitAll)
  {
    SweepJoined(w0, order, n, frame, root, join, waitAll);
    if n > 0 {
      SweepGathers(w0, order, n - 1, frame, root, join, waitAll);
      SweepUntouched(w0, order, n - 1, frame, root, join, waitAll, n - 1);
    }
  }

  /** An order listing every window once can be visited, and every window is in it. */
  lemma SweepAllPrepared(w0: map<nat, Win>, order: seq<nat>)
    requires (set id | id in order) == w0.Keys
    requires forall i, j :: 0 <= i < j < |order| ==> order[i] != order[j]
    ensures Visitable(w0, order)
    ensures forall id :: id in w0 ==> exists j :: 0 <= j < |order| && order[j] == id
  {
    forall j | 0 <= j < |order| ensures order[j] in w0 {
      assert order[j] in (set id | id in order);
    }
    forall id | id in w0 ensures exists j :: 0 <= j < |order| && order[j] == id {
      assert id in (set id | id in order);
    }
  }

  /**
   * The whole loop of `MainEventsCleared` over an order that lists every
   * window once: it panics exactly when some window's `After` does, and
   * otherwise leaves every window with its `After`.
   */
  lemma SweepAllFrames(w0: map<nat, Win>, order: seq<nat>, inputs: map<nat, TickInput>, root: nat,
                       join: (LoopState, LoopState) -> LoopState, waitAll: LoopState)
    requires Visitable(w0, order) && w0.Keys <= inputs.Keys
    requires forall id :: id in w0 ==> exists j :: 0 <= j < |order| && order[j] == id
    ensures var r := SweepPrefix(w0, order, |order|, Framer(inputs, join, waitAll), root, join, waitAll);
      && (r.Some? <==> forall id :: id in w0 ==> After(w0[id], join, waitAll, inputs[id]).Some?)
      && (r.Some? ==> forall id :: id in r.value.ws ==> r.value.ws[id] == After(w0[id], join, waitAll, inputs[id]).value)
  {
    SweepFrames(w0, order, |order|, Framer(inputs, join, waitAll), root, join, waitAll);
  }

  /**
   * The whole loop of `MainEventsCleared` over an order that lists every
   * window once, when it does not panic: removing the windows it set aside
   * leaves exactly the non-stopping ones, the root stopped exactly when it
   * is a stopping window, and the joined loop state is `FrameFlow`.
   */
  lemma SweepAllGathers(w0: map<nat, Win>, order: seq<nat>, frame: (nat, Win) -> Option<Win>, root: nat,
                        join: (LoopState, LoopState) -> LoopState, waitAll: LoopState)
    requires Visitable(w0, order)
    requires forall id :: id in w0 ==> exists j :: 0 <= j < |order| && order[j] == id
    ensures var r := SweepPrefix(w0, order, |order|, frame, root, join, waitAll);
      && (r.Some? ==> (r.value.ws - r.value.halted).Keys == set id | id in w0 && !Stopping(w0[id]))
      && (r.Some? ==> r.value.rootStopped == (root in w0 && Stopping(w0[root])))
      && (r.Some? ==> r.value.joined == FrameFlow(w0, order, frame, join, waitAll))
  {
    SweepGathers(w0, order, |order|, frame, root, join, waitAll);
    assert order[..|order|] == order;
    var r := SweepPrefix(w0, order, |order|, frame, root, join, waitAll);
    if r.Some? {
      forall id ensures id in r.value.halted <==> id in w0 && Stopping(w0[id]) {
        HaltedInMembers(w0, order, |order|, id);
      }
      assert (r.value.ws - r.value.halted).Keys == set id | id in w0 && !Stopping(w0[id]);
    }
  }

  /**
   * The event loop's final `control_flow` of a frame, as line 532 of
   * `src/engine/window.rs` sets it: the joined loop states, whatever
   * line 527 set when the root window stopped.
   */
  function FinalFlowAsWritten(rootStopped: bool, joined: LoopState): (f: Flow)
    ensures f == joined.controlFlow
  {
    joined.controlFlow
  }

  /** The final `control_flow` of a frame: `Exit` once the root window stopped, else the joined loop states. */
  function FinalFlow(rootStopped: bool, joined: LoopState): (f: Flow)
    ensures rootStopped ==> f == ExitLoop
    ensures !rootStopped ==> f == FinalFlowAsWritten(rootStopped, joined)
  {
    if rootStopped then ExitLoop else joined.controlFlow
  }

  /** The two flows differ exactly when the root window stopped and the running windows do not ask to exit. */
  lemma FinalFlowDiffers(rootStopped: bool, joined: LoopState)
    ensures FinalFlowAsWritten(rootStopped, joined) != FinalFlow(rootStopped, joined)
        <==> rootStopped && joined.controlFlow != ExitLoop
  {
  }

  /** As written, a stopped root window does not end the event loop when the running windows ask to wait. */
  lemma RootExitLost(joined: LoopState)
    requires joined.controlFlow == Wait
    ensures FinalFlowAsWritten(true, joined) == Wait && FinalFlow(true, joined) == ExitLoop
  {
  }

  /** `WindowInstance`: one window's state stack and its per-frame bookkeeping, updated in place. */
  class WindowInstance {
    var states: seq<nat>
    var running: bool
    var log: seq<Call>
    var pressed: set<nat>
    var released: set<nat>
    var gotEvent: bool
    var loopState: LoopState

    /** The window's bookkeeping as a value. */
    function Snap(): Win
      reads this
    {
      Win(states, running, log, pressed, released, gotEvent, loopState)
    }

    /** `new_from_window`: no states, running, and the default `LoopInfo` (no keys, no event, `initial` as loop state). */
    constructor (initial: LoopState)
      ensures Snap() == Win([], true, [], {}, {}, false, initial)
    {
      states, running, log := [], true, [];
      pressed, released, gotEvent, loopState := {}, {}, false, initial;
    }

    /** `start`: the first state is started, then pushed; no stack is needed. */
    method StartWith(x: nat)
      modifies this
      ensures Snap() == old(Snap()).(states := old(states) + [x], log := old(log) + [Start(x)])
    {
      log := log + [Start(x)];
      states := states + [x];
    }

    /** `process_tran`: `ok` is false where the code panics, and then the state is not described. */
    method ProcessTran(t: Trans) returns (ok: bool)
      modifies this
      ensures ok <==> Run(old(Snap()), t).Some?
      ensures ok ==> Snap() == Run(old(Snap()), t).value
      decreases t, if t.Batch? then |t.ts| + 1 else 0
    {
      if states == [] {
        return false;
      }
      var n := |states|;
      match t
      case Push(x) =>
        log := log + [Start(x)];
        states := states + [x];
        ok := true;
      case Pop =>
        log := log + [Stop(states[n - 1])];
        states := states[..n - 1];
        ok := true;
      case Switch(x) =>
        log := log + [Stop(states[n - 1])];
        states := states[n - 1 := x];
        log := log + [Start(x)];
        ok := true;
      case Exit =>
        StopAll();
        running := false;
        ok := true;
      case Batch(ts) =>
        ok := ProcessBatch(ts);
      case Stay =>
        ok := true;
    }

    /** The `Exit` transition's loop: every state stopped, top first, until the stack is empty. */
    method StopAll()
      modifies this
      ensures Snap() == old(Snap()).(states := [], log := old(log) + Stops(old(states)))
    {
      ghost var s0, log0 := states, log;
      while states != []
        invariant |states| <= |s0| && states == s0[..|states|]
        invariant log == log0 + Stops(s0)[..|s0| - |states|]
        invariant Snap() == old(Snap()).(states := states, log := log)
        decreases |states|
      {
        var top := states[|states| - 1];
        assert Stops(s0)[..|s0| - |states| + 1] == Stops(s0)[..|s0| - |states|] + [Stop(top)];
        states := states[..|states| - 1];
        log := log + [Stop(top)];
      }
      assert Stops(s0)[..|s0|] == Stops(s0);
    }

    /** A `Batch` transition: its transitions in order, stopping at the first that panics. */
    method ProcessBatch(ts: seq<Trans>) returns (ok: bool)
      modifies this
      ensures ok <==> RunPrefix(old(Snap()), ts, |ts|).Some?
      ensures ok ==> Snap() == RunPrefix(old(Snap()), ts, |ts|).value
      decreases Batch(ts), 0
    {
      ghost var w0 := Snap();
      var i := 0;
      while i < |ts|
        invariant i <= |ts| && RunPrefix(w0, ts, i) == Some(Snap())
      {
        assert ts[i] in ts;
        ok := ProcessTran(ts[i]);
        if !ok {
          PanicStays(w0, ts, i + 1, |ts|);
          return;
        }
        i := i + 1;
      }
      ok := true;
    }

    /**
     * `loop_once`, with `shadows` what each state's `shadow_update`
     * returns (bottom first) and `(tran, l)` what the top state's
     * `update` returns; `ok` is false where applying `tran` panics.
     */
    method LoopOnce(join: (LoopState, LoopState) -> LoopState, waitAll: LoopState,
                    shadows: seq<LoopState>, tran: Trans, l: LoopState) returns (ok: bool)
      requires |shadows| == |states|
      modifies this
      ensures ok <==> Tick(old(Snap()), join, waitAll, shadows, tran, l).Some?
      ensures ok ==> Snap() == Tick(old(Snap()), join, waitAll, shadows, tran, l).value
    {
      loopState := waitAll;
      var i := 0;
      while i < |states|
        invariant i <= |states| == |shadows| && loopState == JoinAll(join, waitAll, shadows[..i])
        invariant Snap() == old(Snap()).(loopState := loopState)
      {
        assert shadows[..i + 1][..i] == shadows[..i];
        loopState := join(loopState, shadows[i]);
        i := i + 1;
      }
      assert shadows[..i] == shadows;
      ok := true;
      if states != [] {
        ok := ProcessTran(tran);
        if ok {
          loopState := join(loopState, l);
        }
      }
    }

    /** `on_window_event`: the event mark, and the key gathered from a real keyboard event. */
    method OnWindowEvent(key: Option<nat>, isPressed: bool, synthetic: bool)
      modifies this
      ensures Snap() == Seen(old(Snap()), key, isPressed, synthetic)
    {
      gotEvent := true;
      if !synthetic && key.Some? {
        if isPressed {
          pressed := pressed + {key.value};
        } else {
          released := released + {key.value};
        }
      }
    }

    /** `LoopInfo::updated`: the event mark is reset. */
    method Updated()
      modifies this
      ensures Snap() == old(Snap()).(gotEvent := false)
    {
      gotEvent := false;
    }
  }

  /**
   * `WindowManager` inside `run_loop`: the windows by id, the root window's
   * id and the event loop's `control_flow`. Each window is kept as its
   * bookkeeping value.
   */
  class WindowManager {
    var windows: map<nat, Win>
    const root: nat
    var flow: Flow

    /** `new` and the start of `run_loop`: the root window alone, with its start state started and pushed. */
    constructor (root: nat, start: nat, initial: LoopState, flow: Flow)
      ensures this.root == root && this.flow == flow
      ensures windows == map[root := Win([start], true, [Start(start)], {}, {}, false, initial)]
    {
      this.root := root;
      this.flow := flow;
      windows := map[root := Win([start], true, [Start(start)], {}, {}, false, initial)];
    }

    /**
     * A keyboard (or other) window event: nothing once the loop exits;
     * otherwise the window it is for, if present, records it.
     */
    method KeyEvent(id: nat, key: Option<nat>, isPressed: bool, synthetic: bool)
      modifies this
      ensures flow == old(flow)
      ensures old(flow) == ExitLoop || id !in old(windows) ==> windows == old(windows)
      ensures old(flow) != ExitLoop && id in old(windows) ==>
        windows == old(windows)[id := Seen(old(windows)[id], key, isPressed, synthetic)]
    {
      if flow == ExitLoop {
        return;
      }
      if id in windows {
        windows := windows[id := Seen(windows[id], key, isPressed, synthetic)];
      }
    }

    /** `CloseRequested` and `Destroyed`: the window goes, and the loop exits when it was the root. */
    method CloseRequested(id: nat)
      modifies this
      ensures old(flow) == ExitLoop ==> windows == old(windows) && flow == old(flow)
      ensures old(flow) != ExitLoop ==> windows == old(windows) - {id}
      ensures old(flow) != ExitLoop ==> flow == if id == root then ExitLoop else old(flow)
    {
      if flow == ExitLoop {
        return;
      }
      windows := windows - {id};
      if id == root {
        flow := ExitLoop;
      }
    }

    /** `Resized`: a window that no longer runs is dropped; the resize itself is GPU work. */
    method Resized(id: nat)
      modifies this
      ensures flow == old(flow)
      ensures old(flow) != ExitLoop && id in old(windows) && !old(windows)[id].running ==> windows == old(windows) - {id}
      ensures old(flow) == ExitLoop || id !in old(windows) || old(windows)[id].running ==>
        windows == old(windows)
    {
      if flow == ExitLoop {
        return;
      }
      if id in windows && !windows[id].running {
        windows := windows - {id};
      }
    }

    /** The `WakeUp` user event: a present window is marked and the loop polls. */
    method WakeUp(id: nat)
      modifies this
      ensures old(flow) == ExitLoop || id !in old(windows) ==> windows == old(windows) && flow == old(flow)
      ensures old(flow) != ExitLoop && id in old(windows) ==>
        windows == old(windows)[id := old(windows)[id].(gotEvent := true)] && flow == Poll
    {
      if flow == ExitLoop {
        return;
      }
      if id in windows {
        flow := Poll;
        windows := windows[id := windows[id].(gotEvent := true)];
      }
    }

    /**
     * `MainEventsCleared`, visiting the windows in `order` (the map's
     * iteration order) with `inputs[id]` what window `id`'s states return:
     * windows passed over are unchanged, the others have their frame; the
     * halted ones are removed afterwards, and `control_flow` becomes the
     * joined loop states of the running ones, even when the root stopped
     * (the `Exit` written for it is overwritten). `ok` is false where a
     * `loop_once` panics.
     */
    method EventsCleared(order: seq<nat>, inputs: map<nat, TickInput>,
                         join: (LoopState, LoopState) -> LoopState, waitAll: LoopState) returns (ok: bool)
      requires (set id | id in order) == windows.Keys
      requires forall i, j :: 0 <= i < j < |order| ==> order[i] != order[j]
      requires windows.Keys <= inputs.Keys
      modifies this
      ensures old(flow) == ExitLoop ==> ok && windows == old(windows) && flow == old(flow)
      ensures old(flow) != ExitLoop ==>
        (ok <==> forall id :: id in old(windows) ==> After(old(windows)[id], join, waitAll, inputs[id]).Some?)
      ensures old(flow) != ExitLoop && ok ==>
        windows.Keys == set id | id in old(windows) && !Stopping(old(windows)[id])
      ensures old(flow) != ExitLoop && ok ==> forall id :: id in windows ==>
        windows[id] == After(old(windows)[id], join, waitAll, inputs[id]).value
      ensures old(flow) != ExitLoop && ok ==>
        flow == FinalFlowAsWritten(root in old(windows) && Stopping(old(windows)[root]),
                          FrameFlow(old(windows), order, Framer(inputs, join, waitAll), join, waitAll))
    {
      if flow == ExitLoop {
        return true;
      }
      ghost var w0 := windows;
      SweepAllPrepared(w0, order);
      var frame := Framer(inputs, join, waitAll);
      var halted, rootStopped, joined;
      ok, halted, rootStopped, joined := FrameAll(order, frame, join, waitAll);
      SweepAllFrames(w0, order, inputs, root, join, waitAll);
      SweepAllGathers(w0, order, frame, root, join, waitAll);
      if !ok {
        return;
      }
      flow := FinalFlowAsWritten(rootStopped, joined);
      windows := windows - halted;
    }

    /**
     * The loop of `MainEventsCleared` over the windows in `order`, with
     * `frame(id, w)` what a frame does to window `id`: each window's frame
     * in place; `halted` gathers the windows to remove (`not_running`),
     * `rootStopped` whether the root is among them, and `joined` the loop
     * states of the running ones (`f_ls`).
     */
    method FrameAll(order: seq<nat>, frame: (nat, Win) -> Option<Win>,
                    join: (LoopState, LoopState) -> LoopState, waitAll: LoopState)
      returns (ok: bool, halted: set<nat>, rootStopped: bool, joined: LoopState)
      requires Visitable(windows, order)
      modifies this
      ensures flow == old(flow)
      ensures ok <==> SweepPrefix(old(windows), order, |order|, frame, root, join, waitAll).Some?
      ensures ok ==> SweepPrefix(old(windows), order, |order|, frame, root, join, waitAll)
                     == Some(Sweep(windows, halted, rootStopped, joined))
    {
      var ws;
      ok, ws, halted, rootStopped, joined := Frames(windows, order, frame, root, join, waitAll);
      if ok {
        windows := ws;
      }
    }

    /** The loop itself, on the windows as values. */
    static method Frames(w0: map<nat, Win>, order: seq<nat>, frame: (nat, Win) -> Option<Win>, root: nat,
                         join: (LoopState, LoopState) -> LoopState, waitAll: LoopState)
      returns (ok: bool, ws: map<nat, Win>, halted: set<nat>, rootStopped: bool, joined: LoopState)
      requires Present(w0, order)
      ensures ok <==> SweepPrefix(w0, order, |order|, frame, root, join, waitAll).Some?
      ensures ok ==> SweepPrefix(w0, order, |order|, frame, root, join, waitAll) == Some(Sweep(ws, halted, rootStopped, joined))
    {
      ws := w0;
      joined := waitAll;
      halted := {};
      rootStopped := false;
      var i := 0;
      while i < |order|
        invariant i <= |order|
        invariant SweepPrefix(w0, order, i, frame, root, join, waitAll) == Some(Sweep(ws, halted, rootStopped, joined))
      {
        ghost var before := Sweep(ws, halted, rootStopped, joined);
        SweepStep(w0, order, i, frame, root, join, waitAll, before);
        var id := order[i];
        var w := ws[id];
        var f := frame(id, w);
        assert w == before.ws[id] && f == frame(id, before.ws[id]);
        if f.None? {
          PanicSweeps(w0, order, i + 1, |order|, frame, root, join, waitAll);
          return false, ws, halted, rootStopped, joined;
        }
        var v := f.value;
        if Stopping(w) {
          halted := halted + {id};
          rootStopped := rootStopped || id == root;
        }
        if !Idle(w) && !Halted(w) {
          joined := join(joined, v.loopState);
        }
        ws := ws[id := v];
        assert Sweep(ws, halted, rootStopped, joined) == Visit(before, id, w, v, root, join);
        i := i + 1;
      }
      ok := true;
    }
  }
}
