/** The `useToggle` hook: one boolean state and three setters. */
module UseToggle {

  class ToggleState {
    var state: bool

    /** `initial` defaults to false. */
    constructor (initial: bool := false)
      ensures state == initial
    {
      state := initial;
    }

    method On()
      modifies this
      ensures state
    {
      state := true;
    }

    method Off()
      modifies this
      ensures !state
    {
      state := false;
    }

    method Toggle()
      modifies this
      ensures state == !old(state)
    {
      state := !state;
    }
  }

  /** Toggling twice restores the state. */
  method ToggleTwice(t: ToggleState)
    modifies t
    ensures t.state == old(t.state)
  {
    t.Toggle();
    t.Toggle();
  }

  /** `on` twice is `on` once. */
  method OnTwice(t: ToggleState)
    modifies t
    ensures t.state
  {
    t.On();
    t.On();
  }

  /** `off` twice is `off` once. */
  method OffTwice(t: ToggleState)
    modifies t
    ensures !t.state
  {
    t.Off();
    t.Off();
  }

  /** A toggle made without an initial value is off. */
  method DefaultIsOff() returns (t: ToggleState)
    ensures fresh(t) && !t.state
  {
    t := new ToggleState();
  }
}
