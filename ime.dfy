/**
 * The interrupt master enable flag (IME). EI, DI and RETI do not change it at once: they
 * schedule a change that `Cycle` applies once its countdown of steps has run out.
 */
module Ime {
  import opened Wrappers

  /** A delay in steps, a `u8` in the source; it is only ever decremented while positive, so it never wraps. */
  type Delay = k: nat | k < 256

  /** The flag and its two pending transitions, as a value. */
  datatype ImeState = ImeState(value: bool, enableIn: Option<Delay>, disableIn: Option<Delay>)

  /** One step of a pending countdown: a zero fires and empties the slot, any other count goes down by one. */
  function Countdown(pending: Option<Delay>): (r: Option<Delay>)
    ensures pending == None || pending == Some(0) ==> r == None
    ensures pending.Some? && pending.value > 0 ==> r == Some(pending.value - 1)
  {
    match pending
    case None => None
    case Some(k) => if k == 0 then None else Some(k - 1)
  }

  /**
   * The state after one `Cycle`. The enable transition is applied first and the disable one
   * second, so when both fire in the same step the flag ends up cleared.
   */
  function Tick(s: ImeState): (r: ImeState)
    ensures s.disableIn == Some(0) ==> !r.value
    ensures s.disableIn != Some(0) && s.enableIn == Some(0) ==> r.value
    ensures s.disableIn != Some(0) && s.enableIn != Some(0) ==> r.value == s.value
    ensures r.enableIn == Countdown(s.enableIn) && r.disableIn == Countdown(s.disableIn)
  {
    var afterEnable := if s.enableIn == Some(0) then true else s.value;
    ImeState(if s.disableIn == Some(0) then false else afterEnable,
             Countdown(s.enableIn), Countdown(s.disableIn))
  }

  /** The state after `k` calls of `Cycle`. */
  function Ticks(s: ImeState, k: nat): ImeState
    decreases k
  {
    if k == 0 then s else Ticks(Tick(s), k - 1)
  }

  /**
   * After `enable(n)` with nothing else pending, the flag keeps its old value through the
   * checks made before each of the first n + 1 steps, and is set after step n + 1.
   */
  lemma {:induction false} EnableTakesEffectAfterDelay(v: bool, n: Delay, k: nat)
    requires k <= n
    ensures Ticks(ImeState(v, Some(n), None), k) == ImeState(v, Some(n - k), None)
    ensures Ticks(ImeState(v, Some(n), None), n + 1) == ImeState(true, None, None)
  {
    EnableCountsDown(v, n, k);
    EnableCountsDown(v, n, n);
  }

  lemma {:induction false} EnableCountsDown(v: bool, n: Delay, k: nat)
    requires k <= n
    ensures Ticks(ImeState(v, Some(n), None), k) == ImeState(v, Some(n - k), None)
    ensures k == n ==> Ticks(ImeState(v, Some(n), None), k + 1) == ImeState(true, None, None)
  {
    if k > 0 {
      assert Tick(ImeState(v, Some(n), None)) == ImeState(v, Some(n - 1), None);
      EnableCountsDown(v, n - 1, k - 1);
    } else if n == 0 {
      assert Ticks(ImeState(v, Some(0), None), 1) == Ticks(ImeState(true, None, None), 0);
    }
  }

  /** `disable(n)` mirrors `enable(n)`: the flag holds for n + 1 steps and is cleared after them. */
  lemma {:induction false} DisableTakesEffectAfterDelay(v: bool, n: Delay, k: nat)
    requires k <= n
    ensures Ticks(ImeState(v, None, Some(n)), k) == ImeState(v, None, Some(n - k))
    ensures Ticks(ImeState(v, None, Some(n)), n + 1) == ImeState(false, None, None)
  {
    DisableCountsDown(v, n, k);
    DisableCountsDown(v, n, n);
  }

  lemma {:induction false} DisableCountsDown(v: bool, n: Delay, k: nat)
    requires k <= n
    ensures Ticks(ImeState(v, None, Some(n)), k) == ImeState(v, None, Some(n - k))
    ensures k == n ==> Ticks(ImeState(v, None, Some(n)), k + 1) == ImeState(false, None, None)
  {
    if k > 0 {
      assert Tick(ImeState(v, None, Some(n))) == ImeState(v, None, Some(n - 1));
      DisableCountsDown(v, n - 1, k - 1);
    } else if n == 0 {
      assert Ticks(ImeState(v, None, Some(0)), 1) == Ticks(ImeState(false, None, None), 0);
    }
  }

  /** With nothing pending, stepping changes nothing. */
  lemma {:induction false} IdleIsStable(v: bool, k: nat)
    ensures Ticks(ImeState(v, None, None), k) == ImeState(v, None, None)
  {
    if k > 0 {
      IdleIsStable(v, k - 1);
    }
  }

  class InterruptMasterEnable {
    var value: bool
    var enableInCycles: Option<Delay>
    var disableInCycles: Option<Delay>

    function State(): ImeState
      reads this
    {
      ImeState(value, enableInCycles, disableInCycles)
    }

    /** A new flag has no pending transitions. */
    constructor (value: bool)
      ensures State() == ImeState(value, None, None)
    {
      this.value := value;
      enableInCycles := None;
      disableInCycles := None;
    }

    /** Reading the flag does not change it. */
    function Enabled(): bool
      reads this
    {
      value
    }

    /** One step of both countdowns, enable first, disable second. */
    method Cycle()
      modifies this
      ensures State() == Tick(old(State()))
    {
      if enableInCycles == Some(0) {
        value := true;
        enableInCycles := None;
      } else if enableInCycles.Some? {
        enableInCycles := Some(enableInCycles.value - 1);
      }

      if disableInCycles == Some(0) {
        value := false;
        disableInCycles := None;
      } else if disableInCycles.Some? {
        disableInCycles := Some(disableInCycles.value - 1);
      }
    }

    /** Schedules the flag to be set; a pending enable is overwritten. */
    method Enable(afterCycles: Delay)
      modifies this
      ensures State() == old(State()).(enableIn := Some(afterCycles))
    {
      enableInCycles := Some(afterCycles);
    }

    /** Schedules the flag to be cleared; a pending disable is overwritten. */
    method Disable(afterCycles: Delay)
      modifies this
      ensures State() == old(State()).(disableIn := Some(afterCycles))
    {
      disableInCycles := Some(afterCycles);
    }
  }

  /** The source's two tests, replayed on the state values. */
  lemma ImeExamples()
    ensures !ImeState(false, Some(0), None).value && Ticks(ImeState(false, Some(0), None), 1).value
    ensures Ticks(ImeState(true, None, Some(0)), 1) == ImeState(false, None, None)
    ensures !Ticks(ImeState(false, Some(1), None), 1).value
    ensures Ticks(ImeState(false, Some(1), None), 2) == ImeState(true, None, None)
    ensures Ticks(ImeState(true, None, Some(3)), 3).value
    ensures Ticks(ImeState(true, None, Some(3)), 4) == ImeState(false, None, None)
  {
    EnableTakesEffectAfterDelay(false, 0, 0);
    DisableTakesEffectAfterDelay(true, 0, 0);
    EnableTakesEffectAfterDelay(false, 1, 1);
    DisableTakesEffectAfterDelay(true, 3, 3);
  }
}
