/*
 * The parking application's hardware layer (APP/ecu.c): the globals shared
 * with the state machine (the two gate flags, the free-slot counter, the
 * refresh flag and the table of authorised IDs), the ID search, the admin's
 * enrolment of IDs from the keypad, and the routines that drive the screens,
 * servos and LEDs.
 *
 * What the routines do to the outside world is recorded as a trace of
 * events (a message on a screen, a servo command, an LED switched, a byte
 * echoed on a gate's serial line) rather than through the driver models;
 * the keypad results and the bytes waiting on the serial lines are inputs.
 */
module Ecu {
  import opened Wrappers
  import Lcd
  import Keypad

  const NO_OF_SLOTS: nat := 3
  const USERS_COUNT: nat := 3
  const USER1: nat := 0
  const USER2: nat := 1
  const USER3: nat := 2

  /** ID_Check_Result. */
  datatype IdCheckResult = IdNotFound | IdFound

  /** The two LCDs: the admin's and the one facing the drivers. */
  datatype Screen = AdminLcd | UserLcd

  /** The two gates, each with its serial line (USART1 entry, USART2 exit), servo and PIR sensor. */
  datatype Gate = Entry | Exit

  datatype Lamp = GreenLed | RedLed

  /** A cursor position: a row code of LCD_ROWS_POS_define and a column from 1. */
  datatype Cursor = Cursor(row: bv8, column: bv8)

  /** The fixed texts the application writes on the screens. */
  datatype Message =
    | EnterIds | UserId(user: nat) | SystemOn
    | Welcome | ParkingFull | SlotsFree
    | EnterGateOpen | ExitGateOpen | UnknownId

  /** The characters of each message, as the LCD driver sends them. */
  function Wording(msg: Message): string {
    match msg
    case EnterIds => "Enter users' IDs"
    case UserId(user) => "User" + [(0x30 + user % 10) as char] + " ID: "
    case SystemOn => "System is ON"
    case Welcome => "Welcome!"
    case ParkingFull => "Parking is full!"
    case SlotsFree => "Slots free!"
    case EnterGateOpen => "Enter gate open!"
    case ExitGateOpen => "Exit gate open!"
    case UnknownId => "UNKNOWN ID!"
  }

  /** One effect on the outside world. */
  datatype Event =
    | Clear(screen: Screen)
    | Text(screen: Screen, at: Option<Cursor>, text: Message)
    | Glyph(screen: Screen, at: Option<Cursor>, code: bv8)
    | Servo(gate: Gate, up: bool)
    | LedOn(lamp: Lamp)
    | LedOff(lamp: Lamp)
    | Echo(gate: Gate, id: bv8)

  /** The uint8 globals Enter_Flag, Exit_Flag, Free_Slots and Print_Slots_LCD_Flag. */
  datatype Globals = Globals(enterFlag: bv8, exitFlag: bv8, freeSlots: bv8, printFlag: bv8)

  /** The globals at boot: Free_Slots = 3, everything else zero. */
  const BOOT: Globals := Globals(0, 0, 3, 0)

  // ---------------------------------------------------------------------------
  // Check_ID
  // ---------------------------------------------------------------------------

  /** The first slot below NO_OF_SLOTS, from `from` on, holding `id`. */
  function Search(ids: seq<bv8>, id: bv8, from: nat): (r: Option<nat>)
    requires |ids| >= NO_OF_SLOTS
    ensures r.Some? ==> from <= r.value < NO_OF_SLOTS && ids[r.value] == id
    decreases NO_OF_SLOTS - from
  {
    if from >= NO_OF_SLOTS then None
    else if ids[from] == id then Some(from)
    else Search(ids, id, from + 1)
  }

  /** Check_ID's answer for a table. */
  function Lookup(ids: seq<bv8>, id: bv8): (r: IdCheckResult)
    requires |ids| >= NO_OF_SLOTS
    ensures r == IdFound ==> id in ids[..NO_OF_SLOTS]
  {
    if Search(ids, id, 0).Some? then IdFound else IdNotFound
  }

  /** The search finds a slot exactly when one holds the ID, and it finds the first such slot. */
  lemma {:induction false} SearchFinds(ids: seq<bv8>, id: bv8, from: nat)
    requires |ids| >= NO_OF_SLOTS
    decreases NO_OF_SLOTS - from
    ensures Search(ids, id, from).Some? <==> exists i :: from <= i < NO_OF_SLOTS && ids[i] == id
    ensures Search(ids, id, from).Some? ==>
      var k := Search(ids, id, from).value;
      from <= k < NO_OF_SLOTS && ids[k] == id && forall i :: from <= i < k ==> ids[i] != id
  {
    if from < NO_OF_SLOTS && ids[from] != id {
      SearchFinds(ids, id, from + 1);
    }
  }

  /** Check_ID reports ID_Found exactly when one of the first NO_OF_SLOTS entries is the ID. */
  lemma LookupIff(ids: seq<bv8>, id: bv8)
    requires |ids| >= NO_OF_SLOTS
    ensures Lookup(ids, id) == IdFound <==> exists i :: 0 <= i < NO_OF_SLOTS && ids[i] == id
  {
    SearchFinds(ids, id, 0);
  }

  // ---------------------------------------------------------------------------
  // Admin_Init
  // ---------------------------------------------------------------------------

  /** The keypad results the enrolment keeps: every result but the no-key sentinel 'F', in order. */
  function Accepted(keys: seq<bv8>): (r: seq<bv8>)
    ensures |r| <= |keys|
    decreases |keys|
  {
    if |keys| == 0 then []
    else if keys[0] == Keypad.NO_KEY then Accepted(keys[1..])
    else [keys[0]] + Accepted(keys[1..])
  }

  /** The sentinel is never kept, and nothing is kept that was not read. */
  lemma {:induction false} AcceptedNeverNoKey(keys: seq<bv8>)
    decreases |keys|
    ensures Keypad.NO_KEY !in Accepted(keys)
    ensures forall k :: k in Accepted(keys) ==> k in keys
  {
    if |keys| > 0 {
      AcceptedNeverNoKey(keys[1..]);
    }
  }

  /** One user's line on the admin screen: its caption at a cursor, then its ID. */
  function IdLine(at: Cursor, user: nat, id: bv8): seq<Event> {
    [Text(AdminLcd, Some(at), UserId(user)), Glyph(AdminLcd, None, id)]
  }

  /** The admin screen during the enrolment of the three IDs. */
  function EnrolmentEvents(ids: seq<bv8>): seq<Event>
    requires |ids| == USERS_COUNT
  {
    [Text(AdminLcd, Some(Cursor(Lcd.FIRST_ROW, 1)), EnterIds)]
    + IdLine(Cursor(Lcd.SECOND_ROW, 6), 1, ids[USER1])
    + IdLine(Cursor(Lcd.THIRD_ROW, 2), 2, ids[USER2])
    + IdLine(Cursor(Lcd.FOURTH_ROW, 2), 3, ids[USER3])
  }

  /** Appending four pieces one after another appends their concatenation. */
  lemma AppendPieces<T>(s: seq<T>, a: seq<T>, b: seq<T>, c: seq<T>, d: seq<T>)
    ensures s + a + b + c + d == s + (a + b + c + d)
  {
  }

  /** The admin screen Admin_Init leaves for the rest of the run. */
  function SummaryEvents(ids: seq<bv8>): seq<Event>
    requires |ids| == USERS_COUNT
  {
    [Clear(AdminLcd),
     Text(AdminLcd, Some(Cursor(Lcd.FIRST_ROW, 3)), SystemOn),
     Text(AdminLcd, Some(Cursor(Lcd.SECOND_ROW, 6)), UserId(1)),
     Glyph(AdminLcd, None, ids[USER1]),
     Text(AdminLcd, Some(Cursor(Lcd.THIRD_ROW, 2)), UserId(2)),
     Glyph(AdminLcd, None, ids[USER2]),
     Text(AdminLcd, Some(Cursor(Lcd.FOURTH_ROW, 2)), UserId(3)),
     Glyph(AdminLcd, None, ids[USER3])]
  }

  /** The IDs Admin_Init stores: the first three accepted keypad results. */
  function Enrolled(keys: seq<bv8>): (ids: seq<bv8>)
    requires |Accepted(keys)| >= USERS_COUNT
    ensures |ids| == USERS_COUNT
  {
    Accepted(keys)[..USERS_COUNT]
  }

  /** No enrolled ID is the sentinel 'F'. */
  lemma EnrolledNeverNoKey(keys: seq<bv8>)
    requires |Accepted(keys)| >= USERS_COUNT
    ensures forall i :: 0 <= i < USERS_COUNT ==> Enrolled(keys)[i] != Keypad.NO_KEY
  {
    AcceptedNeverNoKey(keys);
    assert forall i :: 0 <= i < USERS_COUNT ==> Enrolled(keys)[i] in Accepted(keys);
  }

  /**
   * One do-while loop of Admin_Init: read keypad results from `pos` on until
   * one is not 'F'. The results are an input; the loop ends only if an
   * accepted result is still to come.
   */
  method ReadKey(keys: seq<bv8>, pos: nat) returns (key: bv8, next: nat)
    requires pos <= |keys| && |Accepted(keys[pos..])| > 0
    ensures pos < next <= |keys|
    ensures key != Keypad.NO_KEY
    ensures Accepted(keys[pos..]) == [key] + Accepted(keys[next..])
  {
    next := pos;
    key := keys[next];
    next := next + 1;
    while key == Keypad.NO_KEY
      invariant pos < next <= |keys| && key == keys[next - 1]
      invariant Accepted(keys[pos..]) == Accepted(keys[next - 1..])
      decreases |keys| - next
    {
      assert keys[next - 1..][1..] == keys[next..];
      if next == |keys| {
        assert false;
      }
      key := keys[next];
      next := next + 1;
    }
    assert keys[next - 1..][1..] == keys[next..];
  }

  // ---------------------------------------------------------------------------
  // Display, gate and alarm routines
  // ---------------------------------------------------------------------------

  /** Three on/off cycles of one LED. */
  function Blink(lamp: Lamp): seq<Event> {
    [LedOn(lamp), LedOff(lamp), LedOn(lamp), LedOff(lamp), LedOn(lamp), LedOff(lamp)]
  }

  /** The user-screen message of a gate routine. */
  function GateMessage(gate: Gate): Message {
    match gate
    case Entry => EnterGateOpen
    case Exit => ExitGateOpen
  }

  /**
   * Enter_Gate_Open / Exit_Gate_Open: the message, the gate's servo up, three
   * green blinks, and (once the gate's PIR sensor reads clear) the servo down.
   */
  function GateOpenEvents(gate: Gate): seq<Event> {
    [Clear(UserLcd), Text(UserLcd, None, GateMessage(gate)), Servo(gate, true)]
    + Blink(GreenLed) + [Servo(gate, false)]
  }

  /** Wrong_RFID: the message, both servos down, three red blinks. */
  function WrongIdEvents(): seq<Event> {
    [Clear(UserLcd), Text(UserLcd, None, UnknownId), Servo(Entry, false), Servo(Exit, false)]
    + Blink(RedLed)
  }

  /** Trigger_Alarm: the received byte echoed on the gate's line, then three red blinks. */
  function AlarmEvents(gate: Gate, id: bv8): seq<Event> {
    [Echo(gate, id)] + Blink(RedLed)
  }

  /** The ASCII digit UserLD_PrintFreeSlots shows: Free_Slots + '0' as a uint8. */
  function SlotDigit(slots: bv8): bv8 {
    slots + 0x30
  }

  /** The user screen UserLCD_PrintFreeSlots draws for a slot count. */
  function SlotsEvents(slots: bv8): seq<Event> {
    if slots == 0 then
      [Clear(UserLcd), Text(UserLcd, Some(Cursor(Lcd.FIRST_ROW, 4)), Welcome),
       Text(UserLcd, Some(Cursor(Lcd.SECOND_ROW, 1)), ParkingFull)]
    else
      [Clear(UserLcd), Text(UserLcd, Some(Cursor(Lcd.FIRST_ROW, 4)), Welcome),
       Glyph(UserLcd, Some(Cursor(Lcd.SECOND_ROW, 1)), SlotDigit(slots)),
       Text(UserLcd, Some(Cursor(Lcd.SECOND_ROW, 3)), SlotsFree)]
  }

  /** A state change of the globals together with the events it makes. */
  datatype Effect = Effect(g: Globals, events: seq<Event>)

  /** UserLCD_PrintFreeSlots: draw only when the refresh flag is raised, lowering it first. */
  function PrintSlots(g: Globals): Effect {
    if g.printFlag != 0 then Effect(g.(printFlag := 0), SlotsEvents(g.freeSlots))
    else Effect(g, [])
  }

  /**
   * Refreshing draws at most once: the flag is down afterwards, so a second
   * call changes nothing and draws nothing; the first call draws exactly
   * when the flag was up, and touches no other global.
   */
  lemma PrintSlotsOnce(g: Globals)
    ensures PrintSlots(g).g.printFlag == 0
    ensures PrintSlots(PrintSlots(g).g) == Effect(PrintSlots(g).g, [])
    ensures PrintSlots(g).events != [] <==> g.printFlag != 0
    ensures PrintSlots(g).g.(printFlag := g.printFlag) == g
  {
  }

  /**
   * What the user screen says: "Parking is full!" exactly when no slot is free;
   * otherwise a digit for the count (for the counts 1 to 9 the ASCII digit)
   * before SlotsFree.
   */
  lemma SlotsMessage(slots: bv8)
    ensures Text(UserLcd, Some(Cursor(Lcd.SECOND_ROW, 1)), ParkingFull) in SlotsEvents(slots) <==> slots == 0
    ensures slots != 0 ==> SlotsEvents(slots)[2] == Glyph(UserLcd, Some(Cursor(Lcd.SECOND_ROW, 1)), SlotDigit(slots))
    ensures 1 <= slots <= 9 ==> 0x31 <= SlotDigit(slots) <= 0x39 && SlotDigit(slots) - 0x30 == slots
  {
    if slots != 0 {
      var e := SlotsEvents(slots);
      assert forall i :: 0 <= i < |e| ==> e[i] != Text(UserLcd, Some(Cursor(Lcd.SECOND_ROW, 1)), ParkingFull);
    }
  }

  /** Columns on a row of the character LCDs. */
  const LCD_COLUMNS: nat := 16

  /** Every text written at an explicit cursor ends on or before the last column of its row. */
  predicate FitsOnRows(e: seq<Event>) {
    forall i :: 0 <= i < |e| && e[i].Text? && e[i].at.Some? ==>
      e[i].at.value.column as int - 1 + |Wording(e[i].text)| <= LCD_COLUMNS
  }

  /** No prompt of the enrolment screen runs past the end of its row. */
  lemma EnrolmentFits(ids: seq<bv8>)
    requires |ids| == USERS_COUNT
    ensures FitsOnRows(EnrolmentEvents(ids))
  {
    assert |Wording(EnterIds)| == 16;
    assert |Wording(UserId(1))| == 10 && |Wording(UserId(2))| == 10 && |Wording(UserId(3))| == 10;
  }

  /** No line of the admin's summary screen runs past the end of its row. */
  lemma SummaryFits(ids: seq<bv8>)
    requires |ids| == USERS_COUNT
    ensures FitsOnRows(SummaryEvents(ids))
  {
    assert |Wording(SystemOn)| == 12;
    assert |Wording(UserId(1))| == 10 && |Wording(UserId(2))| == 10 && |Wording(UserId(3))| == 10;
  }

  /** No line of the user screen runs past the end of its row. */
  lemma SlotsFit(slots: bv8)
    ensures FitsOnRows(SlotsEvents(slots))
  {
    assert |Wording(Welcome)| == 8 && |Wording(ParkingFull)| == 16 && |Wording(SlotsFree)| == 11;
  }

  /**
   * A gate routine leaves its gate down: its own servo goes up first and down
   * last, it commands no other servo, and it blinks only the green LED, ending
   * with the LED off.
   */
  lemma GateEndsDown(gate: Gate)
    ensures var e := GateOpenEvents(gate);
      && e[2] == Servo(gate, true) && e[|e| - 1] == Servo(gate, false)
      && e[|e| - 2] == LedOff(GreenLed)
      && (forall i :: 0 <= i < |e| && e[i].Servo? ==> e[i].gate == gate)
      && (forall i :: 0 <= i < |e| && (e[i].LedOn? || e[i].LedOff?) ==> e[i].lamp == GreenLed)
  {
  }

  /** Wrong_RFID lowers both gates and blinks only red; Trigger_Alarm echoes exactly the byte it read, first. */
  lemma AlarmsLowerAndEcho(gate: Gate, id: bv8)
    ensures Servo(Entry, false) in WrongIdEvents() && Servo(Exit, false) in WrongIdEvents()
    ensures forall e :: e in WrongIdEvents() && e.Servo? ==> !e.up
    ensures forall e :: e in WrongIdEvents() + AlarmEvents(gate, id) && (e.LedOn? || e.LedOff?) ==> e.lamp == RedLed
    ensures AlarmEvents(gate, id)[0] == Echo(gate, id)
    ensures forall i :: 1 <= i < |AlarmEvents(gate, id)| ==> !AlarmEvents(gate, id)[i].Echo?
  {
  }

  // ---------------------------------------------------------------------------
  // The globals and the routines that change them
  // ---------------------------------------------------------------------------

  /** The state ecu.c keeps in globals, with the trace of what it has done to the outside world. */
  class Parking {
    var enterFlag: bv8
    var exitFlag: bv8
    var freeSlots: bv8
    var printFlag: bv8
    /** Users_IDs[USERS_COUNT]. */
    const usersIds: array<bv8>
    var events: seq<Event>

    function State(): Globals
      reads this
    {
      Globals(enterFlag, exitFlag, freeSlots, printFlag)
    }

    predicate Valid()
      reads this
    {
      usersIds.Length == USERS_COUNT
    }

    /** The globals as the program starts: Free_Slots = 3, the rest zero. */
    constructor()
      ensures Valid() && fresh(usersIds)
      ensures State() == BOOT && usersIds[..] == [0, 0, 0] && events == []
    {
      enterFlag := 0;
      exitFlag := 0;
      freeSlots := 3;
      printFlag := 0;
      usersIds := new bv8[USERS_COUNT](_ => 0);
      events := [];
    }

    /** Enter_UART_CallBack: raise Enter_Flag and nothing else. */
    method EnterCallback()
      modifies this
      ensures State() == old(State()).(enterFlag := 1) && events == old(events)
    {
      enterFlag := 1;
    }

    /** Exit_UART_CallBack: raise Exit_Flag and nothing else. */
    method ExitCallback()
      modifies this
      ensures State() == old(State()).(exitFlag := 1) && events == old(events)
    {
      exitFlag := 1;
    }

    /** Check_ID: scan the first NO_OF_SLOTS entries, stopping at the first match. */
    method CheckId(id: bv8) returns (r: IdCheckResult)
      requires Valid()
      ensures r == Lookup(usersIds[..], id)
      ensures r == IdFound <==> exists i :: 0 <= i < NO_OF_SLOTS && usersIds[i] == id
    {
      var foundFlag := false;
      var counter := 0;
      while counter < NO_OF_SLOTS
        invariant counter <= NO_OF_SLOTS
        invariant Search(usersIds[..], id, 0) == Search(usersIds[..], id, counter)
        invariant !foundFlag
      {
        if id == usersIds[counter] {
          foundFlag := true;
          break;
        }
        counter := counter + 1;
      }
      r := if foundFlag then IdFound else IdNotFound;
      LookupIff(usersIds[..], id);
    }

    /** UserLCD_PrintFreeSlots. */
    method PrintFreeSlots()
      modifies this
      ensures State() == PrintSlots(old(State())).g
      ensures events == old(events) + PrintSlots(old(State())).events
    {
      if printFlag != 0 {
        printFlag := 0;
        events := events + SlotsEvents(freeSlots);
      }
    }

    /** Enter_Gate_Open and Exit_Gate_Open, which differ only in the gate. */
    method GateOpen(gate: Gate)
      modifies this
      ensures State() == old(State())
      ensures events == old(events) + GateOpenEvents(gate)
    {
      events := events + [Clear(UserLcd), Text(UserLcd, None, GateMessage(gate)), Servo(gate, true)];
      events := events + Blink(GreenLed);
      // the wait for the gate's PIR sensor to read clear happens here
      events := events + [Servo(gate, false)];
    }

    /** Wrong_RFID. */
    method WrongRfid()
      modifies this
      ensures State() == old(State())
      ensures events == old(events) + WrongIdEvents()
    {
      events := events + [Clear(UserLcd), Text(UserLcd, None, UnknownId)];
      events := events + [Servo(Entry, false), Servo(Exit, false)];
      events := events + Blink(RedLed);
    }

    /** Trigger_Alarm on a gate's line, where `received` is the byte waiting in its data register. */
    method TriggerAlarm(gate: Gate, received: bv8)
      modifies this
      ensures State() == old(State())
      ensures events == old(events) + AlarmEvents(gate, received)
    {
      var id := received;
      EchoId(gate, id);
      events := events + Blink(RedLed);
    }

    /** MCAL_USART_SendData of a received ID back on the gate's line. */
    method EchoId(gate: Gate, id: bv8)
      modifies this
      ensures State() == old(State())
      ensures events == old(events) + [Echo(gate, id)]
    {
      events := events + [Echo(gate, id)];
    }

    /**
     * Admin_Init: show the prompts, store the first three keypad results that
     * are not 'F' in Users_IDs[USER1..USER3] with each echoed as it is stored,
     * then draw the summary screen.
     */
    method AdminInit(keys: seq<bv8>)
      requires Valid() && |Accepted(keys)| >= USERS_COUNT
      modifies this, usersIds
      ensures usersIds[..] == Enrolled(keys)
      ensures State() == old(State())
      ensures events == old(events) + EnrolmentEvents(Enrolled(keys)) + SummaryEvents(Enrolled(keys))
    {
      assert keys[0..] == keys;
      ghost var e0 := events;
      var prompt := [Text(AdminLcd, Some(Cursor(Lcd.FIRST_ROW, 1)), EnterIds)];
      events := events + prompt;
      var p1 := EnrolUser(keys, 0, USER1, Cursor(Lcd.SECOND_ROW, 6), 1);
      var p2 := EnrolUser(keys, p1, USER2, Cursor(Lcd.THIRD_ROW, 2), 2);
      var p3 := EnrolUser(keys, p2, USER3, Cursor(Lcd.FOURTH_ROW, 2), 3);
      ghost var ids := [usersIds[USER1], usersIds[USER2], usersIds[USER3]];
      assert Accepted(keys) == ids + Accepted(keys[p3..]);
      assert usersIds[..] == ids == Enrolled(keys);
      AppendPieces(e0, prompt, IdLine(Cursor(Lcd.SECOND_ROW, 6), 1, ids[USER1]),
        IdLine(Cursor(Lcd.THIRD_ROW, 2), 2, ids[USER2]), IdLine(Cursor(Lcd.FOURTH_ROW, 2), 3, ids[USER3]));
      ShowSummary();
    }

    /**
     * One user's part of Admin_Init: the user's caption at its cursor, then the first
     * accepted keypad result from `pos` on, stored in its slot and shown.
     */
    method EnrolUser(keys: seq<bv8>, pos: nat, slot: nat, at: Cursor, user: nat) returns (next: nat)
      requires Valid() && slot < USERS_COUNT
      requires pos <= |keys| && |Accepted(keys[pos..])| > 0
      modifies this, usersIds
      ensures pos < next <= |keys|
      ensures Accepted(keys[pos..]) == [usersIds[slot]] + Accepted(keys[next..])
      ensures forall i :: 0 <= i < USERS_COUNT && i != slot ==> usersIds[i] == old(usersIds[i])
      ensures State() == old(State())
      ensures events == old(events) + IdLine(at, user, usersIds[slot])
    {
      events := events + [Text(AdminLcd, Some(at), UserId(user))];
      var key;
      key, next := ReadKey(keys, pos);
      events := events + [Glyph(AdminLcd, None, key)];
      usersIds[slot] := key;
    }

    /** The end of Admin_Init: clear the admin screen and list the stored IDs. */
    method ShowSummary()
      requires Valid()
      modifies this
      ensures State() == old(State())
      ensures events == old(events) + SummaryEvents(usersIds[..])
    {
      events := events + [Clear(AdminLcd), Text(AdminLcd, Some(Cursor(Lcd.FIRST_ROW, 3)), SystemOn)];
      events := events + [Text(AdminLcd, Some(Cursor(Lcd.SECOND_ROW, 6)), UserId(1)), Glyph(AdminLcd, None, usersIds[USER1])];
      events := events + [Text(AdminLcd, Some(Cursor(Lcd.THIRD_ROW, 2)), UserId(2)), Glyph(AdminLcd, None, usersIds[USER2])];
      events := events + [Text(AdminLcd, Some(Cursor(Lcd.FOURTH_ROW, 2)), UserId(3)), Glyph(AdminLcd, None, usersIds[USER3])];
    }
  }
}
