/**
 * The abstract input manager (source/input/InputManager.cpp,
 * source/input/InputButton.hpp): an ordered list of listeners that are told
 * of button presses, and the process-wide instance slot.
 *
 * A listener is any object; telling it of a press is recorded as a `Call`,
 * and the list of calls a notification makes is its result.
 */
module Input {

  /** The virtual buttons, in the order of their indices 0 .. 6. */
  datatype Button = A | B | Down | Left | Right | Up | Start

  const NUM_INPUT_BUTTONS: nat := 7

  /** The integer value of a button. */
  function Index(b: Button): (i: nat)
    ensures i < NUM_INPUT_BUTTONS
  {
    match b
    case A => 0
    case B => 1
    case Down => 2
    case Left => 3
    case Right => 4
    case Up => 5
    case Start => 6
  }

  /** The button with a given integer value. */
  function FromIndex(i: nat): (b: Button)
    requires i < NUM_INPUT_BUTTONS
    ensures Index(b) == i
  {
    if i == 0 then A
    else if i == 1 then B
    else if i == 2 then Down
    else if i == 3 then Left
    else if i == 4 then Right
    else if i == 5 then Up
    else Start
  }

  /** Buttons and their indices are in one-to-one correspondence. */
  lemma IndexRoundTrip(b: Button, c: Button)
    ensures FromIndex(Index(b)) == b
    ensures Index(b) == Index(c) ==> b == c
  {
  }

  /** One `onButtonPress(button)` call made on `listener`. */
  datatype Call = Call(listener: object, button: Button)

  /** The calls a notification of `b` makes: one per listener entry, in list order. */
  function PressCalls(listeners: seq<object>, b: Button): (cs: seq<Call>)
    ensures |cs| == |listeners|
    ensures forall i :: 0 <= i < |cs| ==> cs[i] == Call(listeners[i], b)
  {
    if listeners == [] then [] else [Call(listeners[0], b)] + PressCalls(listeners[1..], b)
  }

  /** std::list::remove: every occurrence of `x` goes, the rest stay in order. */
  function Without(s: seq<object>, x: object): (r: seq<object>)
    ensures x !in r
    ensures forall i :: 0 <= i < |r| ==> r[i] in s && r[i] != x
    ensures forall i :: 0 <= i < |s| && s[i] != x ==> s[i] in r
    ensures |r| <= |s|
  {
    if s == [] then []
    else if s[0] == x then Without(s[1..], x)
    else [s[0]] + Without(s[1..], x)
  }

  /** Removal works piecewise, so the listeners that stay keep their relative order. */
  lemma {:induction false} WithoutConcat(s: seq<object>, t: seq<object>, x: object)
    ensures Without(s + t, x) == Without(s, x) + Without(t, x)
  {
    if s == [] {
      assert s + t == t;
    } else {
      assert (s + t)[1..] == s[1..] + t;
      WithoutConcat(s[1..], t, x);
    }
  }

  /** Removing a listener that is not registered changes nothing. */
  lemma {:induction false} WithoutAbsent(s: seq<object>, x: object)
    requires x !in s
    ensures Without(s, x) == s
  {
    if s != [] {
      WithoutAbsent(s[1..], x);
    }
  }

  class InputManager {
    var listeners: seq<object>

    constructor ()
      ensures listeners == []
    {
      listeners := [];
    }

    /** addListener: subscribe at the end of the list. */
    method AddListener(listener: object)
      modifies this
      ensures listeners == old(listeners) + [listener]
    {
      listeners := listeners + [listener];
    }

    /** removeListener: unsubscribe every entry of the listener. */
    method RemoveListener(listener: object)
      modifies this
      ensures listeners == Without(old(listeners), listener)
    {
      listeners := Without(listeners, listener);
    }

    /** notifyButtonPress: tell each listener entry, in order, of the press. */
    method NotifyButtonPress(b: Button) returns (calls: seq<Call>)
      ensures |calls| == |listeners|
      ensures forall i :: 0 <= i < |calls| ==> calls[i] == Call(listeners[i], b)
      ensures calls == PressCalls(listeners, b)
    {
      calls := [];
      var i := 0;
      while i < |listeners|
        invariant 0 <= i <= |listeners|
        invariant |calls| == i
        invariant forall j :: 0 <= j < i ==> calls[j] == Call(listeners[j], b)
      {
        calls := calls + [Call(listeners[i], b)];
        i := i + 1;
      }
    }
  }

  /** The process-wide slot behind setInstance / getInstance. */
  class InstanceSlot {
    var instance: InputManager?

    constructor ()
      ensures instance == null
    {
      instance := null;
    }

    method SetInstance(newInstance: InputManager?)
      modifies this
      ensures instance == newInstance
    {
      instance := newInstance;
    }

    /** getInstance dereferences the slot, so it must have been set. */
    method GetInstance() returns (m: InputManager)
      requires instance != null
      ensures m == instance
    {
      m := instance;
    }
  }
}
