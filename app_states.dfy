/*
 * The application state machine (APP/app_states.c, APP/main.c): main calls
 * the handler that fp_App_State_Handler points at, forever; each handler
 * records itself in APP_Current_State, works on the ECU globals and chooses
 * the next handler. The two serial-line interrupts raise their gate's flag
 * between handler calls.
 *
 * The pure functions below say what one handler call does to the globals
 * and which effects it has; the class App runs the handlers on an
 * Ecu.Parking and is proved against them; the lemmas prove that the
 * free-slot counter stays within 0..NO_OF_SLOTS, so its uint8 decrement
 * and increment never wrap.
 */
module AppStates {
  import opened Ecu

  /** STATES, in declaration order. */
  datatype State = InitState | AdminState | IdleState | EnterGateState | ExitGateState | FullState

  /**
   * What the outside world offers during one handler call: the byte in the
   * entry and exit USARTs' data registers and the keypad results the admin
   * produces, one per poll.
   */
  datatype Env = Env(entryByte: bv8, exitByte: bv8, keys: seq<bv8>)

  /** APP_Current_State, fp_App_State_Handler, the ECU globals and Users_IDs. */
  datatype Machine = Machine(current: State, handler: State, g: Globals, ids: seq<bv8>)

  /** The machine after a handler call, with the effects of the call. */
  datatype Outcome = Outcome(m: Machine, events: seq<Event>)

  /** The machine at reset: both state variables on Init_STATE, the globals as they boot, Users_IDs zero. */
  function Initial(): Machine {
    Machine(InitState, InitState, BOOT, [0, 0, 0])
  }

  /** What a handler call needs: a full ID table, and for Admin_STATE a keypad that yields three IDs. */
  predicate Ready(m: Machine, env: Env) {
    |m.ids| == USERS_COUNT && (m.handler == AdminState ==> |Accepted(env.keys)| >= USERS_COUNT)
  }

  function GateState(gate: Gate): State {
    match gate
    case Entry => EnterGateState
    case Exit => ExitGateState
  }

  function GateByte(gate: Gate, env: Env): bv8 {
    match gate
    case Entry => env.entryByte
    case Exit => env.exitByte
  }

  /** The globals with one gate's flag set to `v`. */
  function WithFlag(g: Globals, gate: Gate, v: bv8): Globals {
    match gate
    case Entry => g.(enterFlag := v)
    case Exit => g.(exitFlag := v)
  }

  /** The uint8 count after a known car passes a gate: one fewer free slot on entry, one more on exit. */
  function Counted(gate: Gate, slots: bv8): bv8 {
    match gate
    case Entry => slots - 1
    case Exit => slots + 1
  }

  /** ST_Admin_STATE: enrol the IDs, raise the refresh flag, go to Idle. */
  function AdminNext(m: Machine, env: Env): (r: Outcome)
    requires |Accepted(env.keys)| >= USERS_COUNT
    ensures r.m.current == AdminState && r.m.handler == IdleState && |r.m.ids| == USERS_COUNT
    ensures r.m.g.freeSlots == m.g.freeSlots && r.m.g.enterFlag == m.g.enterFlag && r.m.g.exitFlag == m.g.exitFlag
  {
    var ids := Enrolled(env.keys);
    Outcome(Machine(AdminState, IdleState, m.g.(printFlag := 1), ids),
            EnrolmentEvents(ids) + SummaryEvents(ids))
  }

  /**
   * ST_Idle_STATE: refresh the user screen; a pending exit either selects
   * Exit_Gate (someone is inside) or is dropped with an alarm on the exit
   * line; then a pending entry selects Enter_Gate, overriding the exit.
   */
  function IdleNext(m: Machine, env: Env): (r: Outcome)
    ensures r.m.current == IdleState && r.m.ids == m.ids && r.m.g.freeSlots == m.g.freeSlots
    ensures m.g.enterFlag != 0 ==> r.m.handler == EnterGateState
  {
    var p := PrintSlots(m.g);
    var exitCase :=
      if p.g.exitFlag == 0 then Outcome(m.(current := IdleState, g := p.g), [])
      else if p.g.freeSlots != 3 then Outcome(m.(current := IdleState, handler := ExitGateState, g := p.g), [])
      else Outcome(m.(current := IdleState, g := p.g.(exitFlag := 0)), AlarmEvents(Exit, env.exitByte));
    var h := if exitCase.m.g.enterFlag != 0 then EnterGateState else exitCase.m.handler;
    Outcome(exitCase.m.(handler := h), p.events + exitCase.events)
  }

  /**
   * ST_Enter_Gate_STATE and ST_Exit_Gate_STATE: clear the gate's flag, echo
   * the received ID, let the car through (one slot fewer on entry, one more
   * on exit, in uint8) or reject it, then go to Idle if a slot is free and
   * to Full otherwise, with the refresh flag raised.
   */
  function GateNext(m: Machine, env: Env, gate: Gate): (r: Outcome)
    requires |m.ids| >= NO_OF_SLOTS
    ensures r.m.current == GateState(gate) && r.m.ids == m.ids && r.m.g.printFlag == 1
    ensures r.m.handler == IdleState <==> r.m.g.freeSlots > 0
    ensures r.m.handler == IdleState || r.m.handler == FullState
  {
    var id := GateByte(gate, env);
    var g := WithFlag(m.g, gate, 0);
    var found := Lookup(m.ids, id) == IdFound;
    var slots := if found then Counted(gate, g.freeSlots) else g.freeSlots;
    Outcome(Machine(GateState(gate), if slots > 0 then IdleState else FullState,
                    g.(freeSlots := slots, printFlag := 1), m.ids),
            [Echo(gate, id)] + (if found then GateOpenEvents(gate) else WrongIdEvents()))
  }

  /**
   * Proof step for App.GateHandler, not a property of the model: concatenation is
   * associative, stated for any element type so that no list is taken apart.
   */
  lemma AppendAssoc<T>(a: seq<T>, b: seq<T>, c: seq<T>)
    ensures (a + b) + c == a + (b + c)
  {
  }

  /**
   * Proof step for App.GateHandler, not a property of the model: GateNext taken
   * apart, the effects being the echo followed by the gate's or the rejection's.
   */
  lemma GateNextParts(m: Machine, env: Env, gate: Gate, found: bool, tail: seq<Event>)
    requires |m.ids| >= NO_OF_SLOTS
    requires found <==> Lookup(m.ids, GateByte(gate, env)) == IdFound
    requires tail == if found then GateOpenEvents(gate) else WrongIdEvents()
    ensures GateNext(m, env, gate).events == [Echo(gate, GateByte(gate, env))] + tail
  {
  }

  /**
   * ST_Full_STATE: refresh the user screen; a pending entry is dropped with an
   * alarm on the entry line; a pending exit selects Exit_Gate.
   */
  function FullNext(m: Machine, env: Env): (r: Outcome)
    ensures r.m.current == FullState && r.m.ids == m.ids && r.m.g.freeSlots == m.g.freeSlots
    ensures r.m.g.enterFlag == 0
  {
    var p := PrintSlots(m.g);
    var enterCase :=
      if p.g.enterFlag == 0 then Outcome(m.(current := FullState, g := p.g), [])
      else Outcome(m.(current := FullState, g := p.g.(enterFlag := 0)), AlarmEvents(Entry, env.entryByte));
    var h := if enterCase.m.g.exitFlag != 0 then ExitGateState else enterCase.m.handler;
    Outcome(enterCase.m.(handler := h), p.events + enterCase.events)
  }

  /** One call of the current handler, as main's loop makes it. */
  function Next(m: Machine, env: Env): (r: Outcome)
    requires Ready(m, env)
    ensures |r.m.ids| == USERS_COUNT
    ensures r.m.current == m.handler
  {
    match m.handler
    case InitState => Outcome(m.(current := InitState, handler := AdminState), [])
    case AdminState => AdminNext(m, env)
    case IdleState => IdleNext(m, env)
    case EnterGateState => GateNext(m, env, Entry)
    case ExitGateState => GateNext(m, env, Exit)
    case FullState => FullNext(m, env)
  }

  /** Enter_UART_CallBack or Exit_UART_CallBack, run when a byte arrives on a gate's line. */
  function Arrive(m: Machine, gate: Gate): Machine {
    m.(g := WithFlag(m.g, gate, 1))
  }

  /** What happens between two observations: a handler call, or an interrupt from a gate's line. */
  datatype Action = Tick(env: Env) | Interrupt(gate: Gate)

  /** Every handler call of the run finds the keypad able to supply three IDs should it need them. */
  predicate KeysSuffice(actions: seq<Action>) {
    forall i :: 0 <= i < |actions| && actions[i].Tick? ==> |Accepted(actions[i].env.keys)| >= USERS_COUNT
  }

  function Apply(m: Machine, a: Action): (r: Outcome)
    requires |m.ids| == USERS_COUNT && (a.Tick? ==> |Accepted(a.env.keys)| >= USERS_COUNT)
    ensures |r.m.ids| == USERS_COUNT
  {
    match a
    case Tick(env) => Next(m, env)
    case Interrupt(gate) => Outcome(Arrive(m, gate), [])
  }

  /** The machine after a sequence of actions, with every effect in order. */
  function Run(m: Machine, actions: seq<Action>): (r: Outcome)
    requires |m.ids| == USERS_COUNT && KeysSuffice(actions)
    ensures |r.m.ids| == USERS_COUNT
    decreases |actions|
  {
    if |actions| == 0 then Outcome(m, [])
    else
      var before := Run(m, actions[..|actions| - 1]);
      var last := Apply(before.m, actions[|actions| - 1]);
      Outcome(last.m, before.events + last.events)
  }

  /** Running one action more: the prefix's run followed by the action. */
  lemma RunSnoc(m: Machine, actions: seq<Action>, i: nat)
    requires |m.ids| == USERS_COUNT && KeysSuffice(actions) && i < |actions|
    ensures KeysSuffice(actions[..i]) && KeysSuffice(actions[..i + 1])
    ensures actions[i].Tick? ==> |Accepted(actions[i].env.keys)| >= USERS_COUNT
    ensures var before := Run(m, actions[..i]);
      var last := Apply(before.m, actions[i]);
      Run(m, actions[..i + 1]) == Outcome(last.m, before.events + last.events)
  {
    assert actions[..i + 1][..i] == actions[..i];
    assert forall k :: 0 <= k <= i ==> actions[..i + 1][k] == actions[k];
  }

  // ---------------------------------------------------------------------------
  // The free-slot invariant
  // ---------------------------------------------------------------------------

  /**
   * The invariant the handlers keep: at most NO_OF_SLOTS slots are free;
   * before Idle there are all of them; Idle and Enter_Gate run with a slot
   * free, Exit_Gate with a car inside, Full with no slot free.
   */
  predicate Inv(m: Machine) {
    && |m.ids| == USERS_COUNT
    && m.g.freeSlots <= 3
    && match m.handler
       case InitState => m.g.freeSlots == 3
       case AdminState => m.g.freeSlots == 3
       case IdleState => m.g.freeSlots > 0
       case EnterGateState => m.g.freeSlots > 0
       case ExitGateState => m.g.freeSlots < 3
       case FullState => m.g.freeSlots == 0
  }

  lemma InitialInv()
    ensures Inv(Initial())
  {
  }

  /** Every handler keeps the invariant. */
  lemma NextKeepsInv(m: Machine, env: Env)
    requires Inv(m) && Ready(m, env)
    ensures Inv(Next(m, env).m)
  {
  }

  /** An interrupt keeps the invariant: it touches only its own flag. */
  lemma ArriveKeepsInv(m: Machine, gate: Gate)
    requires Inv(m)
    ensures Inv(Arrive(m, gate))
    ensures Arrive(m, gate).handler == m.handler && Arrive(m, gate).g.freeSlots == m.g.freeSlots
  {
  }

  /** From reset, whatever the interrupts and inputs, the invariant holds and 0 <= Free_Slots <= 3. */
  lemma {:induction false} RunKeepsInv(m: Machine, actions: seq<Action>)
    requires Inv(m) && KeysSuffice(actions)
    ensures Inv(Run(m, actions).m)
    ensures 0 <= Run(m, actions).m.g.freeSlots as int <= NO_OF_SLOTS
    decreases |actions|
  {
    if |actions| > 0 {
      var prefix := actions[..|actions| - 1];
      assert KeysSuffice(prefix) by {
        assert forall i :: 0 <= i < |prefix| ==> prefix[i] == actions[i];
      }
      RunKeepsInv(m, prefix);
      var before := Run(m, prefix).m;
      match actions[|actions| - 1]
      case Tick(env) =>
        assert |Accepted(env.keys)| >= USERS_COUNT by {
          assert actions[|actions| - 1].Tick?;
        }
        NextKeepsInv(before, env);
      case Interrupt(gate) =>
        ArriveKeepsInv(before, gate);
    }
  }

  /** The reachable machines all keep the invariant. */
  lemma ReachableInv(actions: seq<Action>)
    requires KeysSuffice(actions)
    ensures Inv(Run(Initial(), actions).m)
  {
    InitialInv();
    RunKeepsInv(Initial(), actions);
  }

  /**
   * Under the invariant the gate handlers count exactly: the uint8 counter
   * moves by one, down on entry and up on exit, when the ID is found (and
   * only then), without wrapping.
   */
  lemma GateCountsExactly(m: Machine, env: Env, gate: Gate)
    requires Inv(m) && m.handler == GateState(gate)
    ensures var r := Next(m, env).m;
      var found := exists i :: 0 <= i < NO_OF_SLOTS && m.ids[i] == GateByte(gate, env);
      r.g.freeSlots as int ==
        m.g.freeSlots as int + (if !found then 0 else if gate == Entry then -1 else 1)
  {
    LookupIff(m.ids, GateByte(gate, env));
  }

  // ---------------------------------------------------------------------------
  // The transitions handler by handler
  // ---------------------------------------------------------------------------

  /** Init goes to Admin; Admin stores the enrolled IDs, raises the refresh flag and goes to Idle. */
  lemma InitAndAdmin(m: Machine, env: Env)
    requires Ready(m, env)
    ensures m.handler == InitState ==>
      Next(m, env).m.handler == AdminState && Next(m, env).m.g == m.g && Next(m, env).events == []
    ensures m.handler == AdminState ==>
      && Next(m, env).m.handler == IdleState && Next(m, env).m.g == m.g.(printFlag := 1)
      && Next(m, env).m.ids == Enrolled(env.keys)
  {
  }

  /**
   * Idle with an exit pending: with a car inside, Exit_Gate is chosen (unless
   * an entry is pending too) and the exit flag stays set; with the parking
   * empty, the flag is dropped with an alarm on the exit line. The count
   * never changes.
   */
  lemma IdleOnExit(m: Machine, env: Env)
    requires |m.ids| == USERS_COUNT && m.handler == IdleState && m.g.exitFlag != 0 && m.g.enterFlag == 0
    ensures var r := Next(m, env);
      && r.m.g.freeSlots == m.g.freeSlots
      && (m.g.freeSlots != 3 ==> r.m.handler == ExitGateState && r.m.g.exitFlag != 0 && r.events == PrintSlots(m.g).events)
      && (m.g.freeSlots == 3 ==>
            r.m.handler == IdleState && r.m.g.exitFlag == 0
            && r.events == PrintSlots(m.g).events + AlarmEvents(Exit, env.exitByte))
  {
  }

  /**
   * Idle tests the entry last: a pending entry always selects Enter_Gate,
   * and if an exit was pending as well it stays pending. With nothing
   * pending Idle stays Idle and only the refresh happens.
   */
  lemma IdleOnEnter(m: Machine, env: Env)
    requires |m.ids| == USERS_COUNT && m.handler == IdleState
    ensures m.g.enterFlag != 0 ==> Next(m, env).m.handler == EnterGateState
    ensures m.g.enterFlag != 0 && m.g.exitFlag != 0 && m.g.freeSlots != 3 ==> Next(m, env).m.g.exitFlag != 0
    ensures m.g.enterFlag == 0 && m.g.exitFlag == 0 ==>
      Next(m, env) == Outcome(m.(current := IdleState, g := PrintSlots(m.g).g), PrintSlots(m.g).events)
  {
  }

  /**
   * A gate handler clears its own flag and no other, echoes the byte it
   * received first, opens the gate for a known ID and rejects any other;
   * it goes to Idle exactly when a slot is then free, with the refresh flag
   * raised.
   */
  lemma GateHandled(m: Machine, env: Env, gate: Gate)
    requires Inv(m) && m.handler == GateState(gate)
    ensures var r := Next(m, env);
      var found := exists i :: 0 <= i < NO_OF_SLOTS && m.ids[i] == GateByte(gate, env);
      && r.m.g == WithFlag(m.g, gate, 0).(freeSlots := r.m.g.freeSlots, printFlag := 1)
      && r.events[0] == Echo(gate, GateByte(gate, env))
      && r.events[1..] == (if found then GateOpenEvents(gate) else WrongIdEvents())
      && (r.m.handler == IdleState <==> r.m.g.freeSlots > 0)
      && r.m.handler in {IdleState, FullState}
  {
    LookupIff(m.ids, GateByte(gate, env));
  }

  /**
   * Full never leads to Enter_Gate: a pending entry is dropped with an alarm
   * on the entry line; a pending exit selects Exit_Gate; the count is never
   * changed.
   */
  lemma FullHandled(m: Machine, env: Env)
    requires |m.ids| == USERS_COUNT && m.handler == FullState
    ensures var r := Next(m, env);
      && r.m.handler != EnterGateState
      && r.m.g.enterFlag == 0
      && r.m.g.freeSlots == m.g.freeSlots
      && (r.m.handler == ExitGateState <==> m.g.exitFlag != 0)
      && (m.g.enterFlag != 0 ==> r.events == PrintSlots(m.g).events + AlarmEvents(Entry, env.entryByte))
      && (m.g.enterFlag == 0 ==> r.events == PrintSlots(m.g).events)
  {
  }

  /** An arrival only raises its own flag, and a second arrival changes nothing more. */
  lemma ArriveIdempotent(m: Machine, gate: Gate)
    ensures Arrive(Arrive(m, gate), gate) == Arrive(m, gate)
    ensures Arrive(m, gate).g == WithFlag(m.g, gate, 1)
    ensures Arrive(m, gate).(g := m.g) == m
  {
  }

  // ---------------------------------------------------------------------------
  // The program
  // ---------------------------------------------------------------------------

  /** The two state variables of app_states.c over the ECU globals. */
  class App {
    /** APP_Current_State. */
    var current: State
    /** fp_App_State_Handler, as the state whose handler it points at. */
    var handler: State
    const ecu: Parking

    predicate Valid()
      reads this, ecu
    {
      ecu.Valid()
    }

    function Snapshot(): Machine
      reads this, ecu, ecu.usersIds
    {
      Machine(current, handler, ecu.State(), ecu.usersIds[..])
    }

    /** Reset: both variables zero (Init_STATE), the ECU globals at their initial values. */
    constructor()
      ensures Valid() && fresh(ecu) && fresh(ecu.usersIds)
      ensures Snapshot() == Initial() && ecu.events == []
    {
      current := InitState;
      handler := InitState;
      ecu := new Parking();
    }

    /** One pass of main's loop: call the current handler. */
    method Step(env: Env)
      requires Valid() && Ready(Snapshot(), env)
      modifies this, ecu, ecu.usersIds
      ensures Valid()
      ensures Snapshot() == Next(old(Snapshot()), env).m
      ensures ecu.events == old(ecu.events) + Next(old(Snapshot()), env).events
    {
      match handler
      case InitState =>
        current := InitState;
        handler := AdminState;
      case AdminState =>
        AdminHandler(env);
      case IdleState =>
        IdleHandler(env);
      case EnterGateState =>
        GateHandler(env, Entry);
      case ExitGateState =>
        GateHandler(env, Exit);
      case FullState =>
        FullHandler(env);
    }

    /** ST_Admin_STATE. */
    method AdminHandler(env: Env)
      requires Valid() && |Accepted(env.keys)| >= USERS_COUNT
      modifies this, ecu, ecu.usersIds
      ensures Valid()
      ensures Snapshot() == AdminNext(old(Snapshot()), env).m
      ensures ecu.events == old(ecu.events) + AdminNext(old(Snapshot()), env).events
    {
      current := AdminState;
      ecu.AdminInit(env.keys);
      ecu.printFlag := 1;
      handler := IdleState;
    }

    /** ST_Idle_STATE. */
    method IdleHandler(env: Env)
      requires Valid() && handler == IdleState
      modifies this, ecu
      ensures Valid()
      ensures Snapshot() == IdleNext(old(Snapshot()), env).m
      ensures ecu.events == old(ecu.events) + IdleNext(old(Snapshot()), env).events
    {
      current := IdleState;
      ecu.PrintFreeSlots();
      if ecu.exitFlag != 0 {
        if ecu.freeSlots != 3 {
          handler := ExitGateState;
        } else {
          ecu.exitFlag := 0;
          ecu.TriggerAlarm(Exit, env.exitByte);
        }
      }
      if ecu.enterFlag != 0 {
        handler := EnterGateState;
      }
    }

    /** ST_Enter_Gate_STATE (gate Entry) and ST_Exit_Gate_STATE (gate Exit). */
    method GateHandler(env: Env, gate: Gate)
      requires Valid() && handler == GateState(gate)
      modifies this, ecu
      ensures Valid()
      ensures Snapshot() == GateNext(old(Snapshot()), env, gate).m
      ensures ecu.events == old(ecu.events) + GateNext(old(Snapshot()), env, gate).events
    {
      ghost var m0 := Snapshot();
      ghost var e0 := ecu.events;
      current := GateState(gate);
      if gate == Entry {
        ecu.enterFlag := 0;
      } else {
        ecu.exitFlag := 0;
      }
      var id := GateByte(gate, env);
      ecu.EchoId(gate, id);
      ghost var e1 := ecu.events;
      var found := Admit(gate, id);
      ghost var tail := if found then GateOpenEvents(gate) else WrongIdEvents();
      handler := if ecu.freeSlots > 0 then IdleState else FullState;
      ecu.printFlag := 1;
      GateNextParts(m0, env, gate, found, tail);
      AppendAssoc(e0, [Echo(gate, id)], tail);
    }

    /** The middle of a gate handler: look the ID up, then count the car and open the gate, or reject it. */
    method Admit(gate: Gate, id: bv8) returns (found: bool)
      requires Valid()
      modifies ecu
      ensures Valid()
      ensures found <==> Lookup(ecu.usersIds[..], id) == IdFound
      ensures found ==> ecu.State() == old(ecu.State()).(freeSlots := Counted(gate, old(ecu.freeSlots)))
      ensures !found ==> ecu.State() == old(ecu.State())
      ensures found ==> ecu.events == old(ecu.events) + GateOpenEvents(gate)
      ensures !found ==> ecu.events == old(ecu.events) + WrongIdEvents()
    {
      var r := ecu.CheckId(id);
      found := r == IdFound;
      if found {
        if gate == Entry {
          ecu.freeSlots := ecu.freeSlots - 1;
        } else {
          ecu.freeSlots := ecu.freeSlots + 1;
        }
        ecu.GateOpen(gate);
      } else {
        ecu.WrongRfid();
      }
    }

    /** ST_Full_STATE. */
    method FullHandler(env: Env)
      requires Valid() && handler == FullState
      modifies this, ecu
      ensures Valid()
      ensures Snapshot() == FullNext(old(Snapshot()), env).m
      ensures ecu.events == old(ecu.events) + FullNext(old(Snapshot()), env).events
    {
      current := FullState;
      ecu.PrintFreeSlots();
      if ecu.enterFlag != 0 {
        ecu.enterFlag := 0;
        ecu.TriggerAlarm(Entry, env.entryByte);
      }
      if ecu.exitFlag != 0 {
        handler := ExitGateState;
      }
    }

    /** A byte arriving on a gate's line: its USART interrupt runs the gate's callback. */
    method Interrupted(gate: Gate)
      requires Valid()
      modifies ecu
      ensures Valid()
      ensures Snapshot() == Arrive(old(Snapshot()), gate)
      ensures ecu.events == old(ecu.events)
    {
      if gate == Entry {
        ecu.EnterCallback();
      } else {
        ecu.ExitCallback();
      }
    }
  }
}
