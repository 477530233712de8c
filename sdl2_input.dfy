/**
 * The SDL2 input manager's button logic (source/input/sdl2/Sdl2InputManager.cpp):
 * seven button states, a shutdown flag, the opened joysticks and a list of
 * mappings from keys, joystick axes and joystick buttons to buttons.
 *
 * SDL itself is outside the model: the joysticks SDL opened, the event
 * queue and the keyboard, axis and button readings of one frame are
 * parameters. A joystick is a handle (`nat`), or `None` where SDL failed to
 * open it. A reading SDL does not report (an axis or button a joystick does
 * not have) is 0 or released, as SDL returns for it.
 */
module Sdl2Input {

  import opened Wrappers
  import opened Input

  type Joystick = nat

  /** SDL's signed 16-bit axis position. */
  newtype Sint16 = x: int | -0x8000 <= x < 0x8000

  const SCANCODE_ESCAPE: int := 41

  /** How far an axis must be pushed, strictly, for an axis mapping to be active. */
  const AXIS_THRESHOLD: int := 16384

  /** The three kinds of mapping, each with the data its kind uses. */
  datatype MappingSource =
    | Key(key: int)
    | JoystickAxis(joystick: int, axis: int, sign: int)
    | JoystickButton(joystick: int, button: int)

  datatype ButtonMapping = ButtonMapping(source: MappingSource, buttonId: Button)

  /** The events of SDL's queue that the manager looks at; every other event is `Other`. */
  datatype Event = KeyDown(scancode: int) | Quit | Other

  /** One frame's readings: the keys held, and the axis positions and held buttons of each joystick. */
  datatype Readings = Readings(keysDown: set<int>, axes: map<(Joystick, int), Sint16>, buttons: set<(Joystick, int)>)

  /** getJoystick: the joystick opened at `index`, or none for an index out of range or a failed open. */
  function JoystickAt(joysticks: seq<Option<Joystick>>, index: int): (r: Option<Joystick>)
    ensures !(0 <= index < |joysticks|) ==> r == None
    ensures 0 <= index < |joysticks| ==> r == joysticks[index]
  {
    if index < 0 || index >= |joysticks| then None else joysticks[index]
  }

  function AxisValue(readings: Readings, joystick: Joystick, axis: int): int
  {
    if (joystick, axis) in readings.axes then readings.axes[(joystick, axis)] as int else 0
  }

  /** Whether one mapping reports its button held this frame. */
  function MappingActive(joysticks: seq<Option<Joystick>>, readings: Readings, m: ButtonMapping): bool
  {
    match m.source
    case Key(key) => key in readings.keysDown
    case JoystickAxis(index, axis, sign) =>
      (match JoystickAt(joysticks, index)
       case None => false
       case Some(j) =>
         if sign < 0 then AxisValue(readings, j, axis) < -AXIS_THRESHOLD
         else AxisValue(readings, j, axis) > AXIS_THRESHOLD)
    case JoystickButton(index, button) =>
      (match JoystickAt(joysticks, index)
       case None => false
       case Some(j) => (j, button) in readings.buttons)
  }

  /**
   * An axis mapping is active exactly when the axis is pushed strictly past
   * the threshold in the mapping's direction (a non-negative sign means the
   * positive direction); inside the dead zone [-16384, 16384] it never is.
   * A joystick mapping whose joystick is missing is never active.
   */
  lemma AxisMappingThreshold(joysticks: seq<Option<Joystick>>, readings: Readings, m: ButtonMapping)
    requires m.source.JoystickAxis?
    ensures var j := JoystickAt(joysticks, m.source.joystick);
      MappingActive(joysticks, readings, m) <==>
        j.Some? && (if m.source.sign < 0 then AxisValue(readings, j.value, m.source.axis) < -16384
                    else AxisValue(readings, j.value, m.source.axis) > 16384)
    ensures var j := JoystickAt(joysticks, m.source.joystick);
      j.Some? && -16384 <= AxisValue(readings, j.value, m.source.axis) <= 16384 ==> !MappingActive(joysticks, readings, m)
  {
  }

  lemma MissingJoystickInactive(joysticks: seq<Option<Joystick>>, readings: Readings, m: ButtonMapping)
    requires !m.source.Key? && JoystickAt(joysticks, m.source.joystick) == None
    ensures !MappingActive(joysticks, readings, m)
  {
  }

  /** Whether some mapping for the button with index `b` is active. */
  predicate ButtonActive(joysticks: seq<Option<Joystick>>, readings: Readings, mappings: seq<ButtonMapping>, b: nat)
  {
    exists j :: 0 <= j < |mappings| && Index(mappings[j].buttonId) == b && MappingActive(joysticks, readings, mappings[j])
  }

  /** An event that asks the game to shut down: Escape pressed, or the window closed. */
  predicate IsShutdownEvent(e: Event)
  {
    e == Quit || e == KeyDown(SCANCODE_ESCAPE)
  }

  /**
   * The notifications of the state-update pass over buttons 0 .. n-1: a
   * button held now and released before is a press, told to every listener.
   */
  function EdgeCalls(listeners: seq<object>, before: seq<bool>, after: seq<bool>, n: nat): (cs: seq<Call>)
    requires n <= NUM_INPUT_BUTTONS && n <= |before| && n <= |after|
    ensures (forall i :: 0 <= i < n ==> before[i] || !after[i]) ==> cs == []
  {
    if n == 0 then []
    else
      var press := if after[n - 1] && !before[n - 1] then PressCalls(listeners, FromIndex(n - 1)) else [];
      EdgeCalls(listeners, before, after, n - 1) + press
  }

  /**
   * Exactly one button going from released to held makes exactly one
   * notification round: each listener told of that button, once, in order.
   */
  lemma {:induction false} OneRisingEdge(listeners: seq<object>, before: seq<bool>, after: seq<bool>, n: nat, r: nat)
    requires n <= NUM_INPUT_BUTTONS && n <= |before| && n <= |after| && r < n
    requires after[r] && !before[r]
    requires forall i :: 0 <= i < n && i != r ==> before[i] || !after[i]
    ensures EdgeCalls(listeners, before, after, n) == PressCalls(listeners, FromIndex(r))
    decreases n
  {
    if r < n - 1 {
      OneRisingEdge(listeners, before, after, n - 1, r);
    } else {
      assert EdgeCalls(listeners, before, after, n - 1) == [];
    }
  }

  class Sdl2InputManager {
    /**
     * The InputManager this class inherits from: it stands for the inherited
     * listener list, and every listener call Update makes goes through it.
     */
    const base: InputManager
    const buttonStates: array<bool>
    var shutdownReceivedFlag: bool
    const joysticks: seq<Option<Joystick>>
    var buttonMappings: seq<ButtonMapping>

    predicate Valid()
      reads this
    {
      buttonStates.Length == NUM_INPUT_BUTTONS
    }

    /**
     * Every button released, no shutdown request, the joysticks SDL opened
     * kept in order, and this manager installed as the instance.
     */
    constructor (openJoysticks: seq<Option<Joystick>>, slot: InstanceSlot)
      modifies slot
      ensures Valid() && fresh(buttonStates)
      ensures forall i :: 0 <= i < NUM_INPUT_BUTTONS ==> !buttonStates[i]
      ensures !shutdownReceivedFlag && joysticks == openJoysticks && buttonMappings == []
      ensures base.listeners == []
      ensures slot.instance == base
    {
      var states := new bool[NUM_INPUT_BUTTONS];
      var i := 0;
      while i < NUM_INPUT_BUTTONS
        invariant 0 <= i <= NUM_INPUT_BUTTONS
        invariant forall k :: 0 <= k < i ==> !states[k]
        decreases NUM_INPUT_BUTTONS - i
      {
        states[i] := false;
        i := i + 1;
      }
      var m := new InputManager();
      base := m;
      buttonStates := states;
      shutdownReceivedFlag := false;
      joysticks := openJoysticks;
      buttonMappings := [];
      new;
      slot.SetInstance(m);
    }

    /** getJoystick. */
    method GetJoystick(index: int) returns (joystick: Option<Joystick>)
      ensures joystick == JoystickAt(joysticks, index)
      ensures joystick.Some? ==> 0 <= index < |joysticks|
    {
      if index < 0 || index >= |joysticks| {
        joystick := None;
      } else {
        joystick := joysticks[index];
      }
    }

    /** isButtonPressed. */
    function IsButtonPressed(b: Button): bool
      requires Valid()
      reads this, buttonStates
    {
      buttonStates[Index(b)]
    }

    /** shutdownReceived. */
    function ShutdownReceived(): bool
      reads this
    {
      shutdownReceivedFlag
    }

    method MapKey(key: int, b: Button)
      modifies this
      ensures buttonMappings == old(buttonMappings) + [ButtonMapping(Key(key), b)]
      ensures shutdownReceivedFlag == old(shutdownReceivedFlag)
    {
      buttonMappings := buttonMappings + [ButtonMapping(Key(key), b)];
    }

    method MapJoystickAxis(joystick: int, axis: int, sign: int, b: Button)
      modifies this
      ensures buttonMappings == old(buttonMappings) + [ButtonMapping(JoystickAxis(joystick, axis, sign), b)]
      ensures shutdownReceivedFlag == old(shutdownReceivedFlag)
    {
      buttonMappings := buttonMappings + [ButtonMapping(JoystickAxis(joystick, axis, sign), b)];
    }

    method MapJoystickButton(joystick: int, button: int, b: Button)
      modifies this
      ensures buttonMappings == old(buttonMappings) + [ButtonMapping(JoystickButton(joystick, button), b)]
      ensures shutdownReceivedFlag == old(shutdownReceivedFlag)
    {
      buttonMappings := buttonMappings + [ButtonMapping(JoystickButton(joystick, button), b)];
    }

    /**
     * setButtonPressed: listeners hear of the press only when the button was
     * released; the button is held afterwards and no other button changes.
     */
    method SetButtonPressed(b: Button) returns (calls: seq<Call>)
      requires Valid()
      modifies buttonStates
      ensures buttonStates[..] == old(buttonStates[..])[Index(b) := true]
      ensures calls == if old(buttonStates[Index(b)]) then [] else PressCalls(base.listeners, b)
    {
      if !buttonStates[Index(b)] {
        calls := base.NotifyButtonPress(b);
      } else {
        calls := [];
      }
      buttonStates[Index(b)] := true;
    }

    /** setButtonReleased: the button is released and nobody is told. */
    method SetButtonReleased(b: Button)
      requires Valid()
      modifies buttonStates
      ensures buttonStates[..] == old(buttonStates[..])[Index(b) := false]
    {
      buttonStates[Index(b)] := false;
    }

    /** The event pass of update: an Escape key-down or a quit event raises the shutdown flag. */
    method ReadEvents(events: seq<Event>)
      modifies this
      ensures shutdownReceivedFlag <==> old(shutdownReceivedFlag) || exists i :: 0 <= i < |events| && IsShutdownEvent(events[i])
      ensures buttonMappings == old(buttonMappings)
    {
      var i := 0;
      while i < |events|
        invariant 0 <= i <= |events| && buttonMappings == old(buttonMappings)
        invariant shutdownReceivedFlag <==> old(shutdownReceivedFlag) || exists k :: 0 <= k < i && IsShutdownEvent(events[k])
        decreases |events| - i
      {
        match events[i] {
          case KeyDown(scancode) =>
            if scancode == SCANCODE_ESCAPE {
              shutdownReceivedFlag := true;
            }
          case Quit =>
            shutdownReceivedFlag := true;
          case Other =>
        }
        i := i + 1;
      }
    }

    /** One mapping of the mapping pass: a key held, an axis pushed past the threshold, or a joystick button held. */
    method PollMapping(m: ButtonMapping, readings: Readings) returns (active: bool)
      ensures active == MappingActive(joysticks, readings, m)
    {
      active := false;
      match m.source {
        case Key(key) =>
          active := key in readings.keysDown;
        case JoystickAxis(index, axis, sign) =>
          var joystick := GetJoystick(index);
          if joystick.Some? {
            var value := AxisValue(readings, joystick.value, axis);
            if sign < 0 {
              active := value < -AXIS_THRESHOLD;
            } else {
              active := value > AXIS_THRESHOLD;
            }
          }
        case JoystickButton(index, button) =>
          var joystick := GetJoystick(index);
          if joystick.Some? {
            active := (joystick.value, button) in readings.buttons;
          }
      }
    }

    /** The mapping pass of update: a button's status is the OR over the mappings for it. */
    method PollMappings(readings: Readings) returns (status: array<bool>)
      ensures fresh(status) && status.Length == NUM_INPUT_BUTTONS
      ensures forall b :: 0 <= b < NUM_INPUT_BUTTONS ==>
        (status[b] <==> ButtonActive(joysticks, readings, buttonMappings, b))
    {
      status := new bool[NUM_INPUT_BUTTONS];
      var b := 0;
      while b < NUM_INPUT_BUTTONS
        invariant 0 <= b <= NUM_INPUT_BUTTONS
        invariant forall k :: 0 <= k < b ==> !status[k]
        decreases NUM_INPUT_BUTTONS - b
      {
        status[b] := false;
        b := b + 1;
      }
      var i := 0;
      while i < |buttonMappings|
        invariant 0 <= i <= |buttonMappings|
        invariant forall k :: 0 <= k < NUM_INPUT_BUTTONS ==>
          (status[k] <==> ButtonActive(joysticks, readings, buttonMappings[..i], k))
        decreases |buttonMappings| - i
      {
        var m := buttonMappings[i];
        var active := PollMapping(m, readings);
        status[Index(m.buttonId)] := status[Index(m.buttonId)] || active;
        assert buttonMappings[..i + 1] == buttonMappings[..i] + [m];
        i := i + 1;
      }
      assert buttonMappings[..i] == buttonMappings;
    }

    /**
     * The state-update pass of update: press every button whose status is
     * set and release every other, in index order.
     */
    method ApplyStatus(status: array<bool>) returns (calls: seq<Call>)
      requires Valid() && status.Length == NUM_INPUT_BUTTONS && status != buttonStates
      modifies buttonStates
      ensures buttonStates[..] == status[..]
      ensures calls == EdgeCalls(base.listeners, old(buttonStates[..]), status[..], NUM_INPUT_BUTTONS)
    {
      ghost var before := buttonStates[..];
      calls := [];
      var i := 0;
      while i < NUM_INPUT_BUTTONS
        invariant 0 <= i <= NUM_INPUT_BUTTONS
        invariant forall k :: 0 <= k < i ==> buttonStates[k] == status[k]
        invariant forall k :: i <= k < NUM_INPUT_BUTTONS ==> buttonStates[k] == before[k]
        invariant calls == EdgeCalls(base.listeners, before, status[..], i)
        decreases NUM_INPUT_BUTTONS - i
      {
        if status[i] {
          var made := SetButtonPressed(FromIndex(i));
          calls := calls + made;
        } else {
          SetButtonReleased(FromIndex(i));
        }
        i := i + 1;
      }
      assert buttonStates[..] == status[..];
    }

    /**
     * update: read the events, poll the mappings, then apply the statuses.
     * Afterwards a button is held exactly when some mapping for it is
     * active, and the listeners have heard of exactly the buttons that went
     * from released to held.
     */
    method Update(events: seq<Event>, readings: Readings) returns (calls: seq<Call>)
      requires Valid()
      modifies this, buttonStates
      ensures Valid() && buttonMappings == old(buttonMappings)
      ensures old(shutdownReceivedFlag) ==> shutdownReceivedFlag
      ensures shutdownReceivedFlag <==> old(shutdownReceivedFlag) || exists i :: 0 <= i < |events| && IsShutdownEvent(events[i])
      ensures forall b :: 0 <= b < NUM_INPUT_BUTTONS ==>
        (buttonStates[b] <==> ButtonActive(joysticks, readings, buttonMappings, b))
      ensures calls == EdgeCalls(base.listeners, old(buttonStates[..]), buttonStates[..], NUM_INPUT_BUTTONS)
    {
      ReadEvents(events);
      var status := PollMappings(readings);
      calls := ApplyStatus(status);
    }
  }

}
