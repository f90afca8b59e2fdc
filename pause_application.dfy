/** `PauseApplication` in a player build: a component that pauses the game
    by setting `Time.timeScale` to 0 and resumes it by setting it back to
    1, toggled from an input action or from a key (with an optional held
    modifier) read through the legacy input manager. */
module Pausing {

  /** The Unity key codes the component can be configured with. */
  datatype KeyCode = None | Break | Pause | Escape | Other(code: int)

  /** What `Input.GetKeyDown` and `Input.GetKey` report in one frame. */
  datatype InputFrame = InputFrame(pressed: set<KeyCode>, held: set<KeyCode>)

  /** `InputAction.CallbackContext`, as far as the toggle reads it. */
  datatype CallbackContext = CallbackContext(performed: bool)

  /** The component's `paused` flag beside the global time scale. */
  datatype PauseState = PauseState(paused: bool, timeScale: real)

  /** The time scale agrees with the flag: 0 while paused, 1 while running.
      Every pause and resume leaves the state settled; only the time scale
      found at start-up (which other code may set) can be unsettled. */
  predicate Settled(s: PauseState)
  {
    s.timeScale == if s.paused then 0.0 else 1.0
  }

  /** The state `Pause()` leaves. */
  function Paused(): (r: PauseState)
    ensures r.paused && Settled(r)
  {
    PauseState(true, 0.0)
  }

  /** The state `Resume()` leaves. */
  function Resumed(): (r: PauseState)
    ensures !r.paused && Settled(r)
  {
    PauseState(false, 1.0)
  }

  /** Resume when paused, pause otherwise. */
  function Toggle(s: PauseState): (r: PauseState)
    ensures r.paused == !s.paused && Settled(r)
  {
    if s.paused then Resumed() else Paused()
  }

  /** Whether the legacy input toggles this frame: the pause key went down
      and the modifier is unset or held. */
  predicate KeyGate(pauseKey: KeyCode, pauseKeyModifier: KeyCode, input: InputFrame)
  {
    pauseKey in input.pressed && (pauseKeyModifier == KeyCode.None || pauseKeyModifier in input.held)
  }

  /** The state after one `Update` under the legacy input manager. */
  function AfterUpdate(s: PauseState, pauseKey: KeyCode, pauseKeyModifier: KeyCode, input: InputFrame): PauseState
  {
    if KeyGate(pauseKey, pauseKeyModifier, input) then Toggle(s) else s
  }

  /** Pausing and resuming are idempotent. */
  lemma PauseResumeIdempotent(s: PauseState)
    ensures s.paused && Settled(s) ==> s == Paused()
    ensures !s.paused && Settled(s) ==> s == Resumed()
  {
  }

  /** Two toggles restore a settled state; from any state the second toggle
      onwards alternate between the same two states. */
  lemma ToggleTwice(s: PauseState)
    ensures Settled(s) ==> Toggle(Toggle(s)) == s
    ensures Toggle(Toggle(Toggle(s))) == Toggle(s)
  {
  }

  /** An `Update` flips the flag exactly when the key gate is open, and
      otherwise leaves the whole state as it was. */
  lemma UpdateTogglesOnlyThroughGate(s: PauseState, pauseKey: KeyCode, pauseKeyModifier: KeyCode, input: InputFrame)
    ensures AfterUpdate(s, pauseKey, pauseKeyModifier, input).paused != s.paused <==>
            KeyGate(pauseKey, pauseKeyModifier, input)
    ensures !KeyGate(pauseKey, pauseKeyModifier, input) ==> AfterUpdate(s, pauseKey, pauseKeyModifier, input) == s
  {
  }

  /** Unity's global `Time`. */
  class Time {
    var timeScale: real

    constructor ()
      ensures timeScale == 1.0
    {
      timeScale := 1.0;
    }
  }

  class PauseApplication {
    var pauseKey: KeyCode
    var pauseKeyModifier: KeyCode
    var paused: bool
    const time: Time

    constructor (time: Time)
      ensures pauseKey == KeyCode.Break && pauseKeyModifier == KeyCode.None && !paused
      ensures this.time == time
    {
      pauseKey := KeyCode.Break;
      pauseKeyModifier := KeyCode.None;
      paused := false;
      this.time := time;
    }

    function State(): PauseState
      reads this, time
    {
      PauseState(paused, time.timeScale)
    }

    method Pause()
      modifies this, time
      ensures State() == Paused()
      ensures pauseKey == old(pauseKey) && pauseKeyModifier == old(pauseKeyModifier)
    {
      paused := true;
      time.timeScale := 0.0;
    }

    method Resume()
      modifies this, time
      ensures State() == Resumed()
      ensures pauseKey == old(pauseKey) && pauseKeyModifier == old(pauseKeyModifier)
    {
      paused := false;
      time.timeScale := 1.0;
    }

    /** The `performed` callback of the pause input action. */
    method OnPause(context: CallbackContext)
      modifies this, time
      ensures State() == if context.performed then Toggle(old(State())) else old(State())
      ensures pauseKey == old(pauseKey) && pauseKeyModifier == old(pauseKeyModifier)
    {
      if context.performed {
        if paused {
          Resume();
        } else {
          Pause();
        }
      }
    }

    /** The legacy input manager's per-frame check. */
    method Update(input: InputFrame)
      modifies this, time
      ensures State() == AfterUpdate(old(State()), pauseKey, pauseKeyModifier, input)
      ensures pauseKey == old(pauseKey) && pauseKeyModifier == old(pauseKeyModifier)
    {
      if pauseKey in input.pressed {
        if pauseKeyModifier == KeyCode.None || pauseKeyModifier in input.held {
          if paused {
            Resume();
          } else {
            Pause();
          }
        }
      }
    }
  }
}
