/** The shutter's state machine and the adapter that drives it to rest. */
module Shutter {
  import opened Basics

  datatype State = Init | Homing | Closed | Opening | Open | Closing | Fault

  datatype Outcome = Reached | Faulted | TimedOut

  /** The adapter gives up after this many ticks. */
  const Patience: nat := 10000

  // ---- One movement

  /** How many of the latest readings were true, after k ticks; sensor(i) is the reading of the
      limit switch at tick i of the movement. */
  function Streak(sensor: nat -> bool, k: nat): nat {
    if k == 0 then 0 else if sensor(k - 1) then Streak(sensor, k - 1) + 1 else 0
  }

  /** The movement ends after k ticks: the switch is debounced or the limit is reached. */
  predicate Stops(sensor: nat -> bool, limit: int, k: nat) {
    Streak(sensor, k) >= 3 || k >= limit
  }

  /** The first tick from k on after which the movement ends. */
  function FirstStop(sensor: nat -> bool, limit: int, k: nat): (n: nat)
    ensures k <= n <= Max(k, limit) && Stops(sensor, limit, n)
    ensures forall i :: k <= i < n ==> !Stops(sensor, limit, i)
    decreases Max(k, limit) - k
  {
    if Stops(sensor, limit, k) then k else FirstStop(sensor, limit, k + 1)
  }

  /** The ticks a movement takes if nothing cuts it short: at least one. */
  function Length(sensor: nat -> bool, limit: int): nat {
    FirstStop(sensor, limit, 1)
  }

  /** The switch is debounced exactly when the last three readings were true. */
  lemma DebounceReadsThree(sensor: nat -> bool, k: nat)
    ensures Streak(sensor, k) >= 3 <==> k >= 3 && sensor(k - 1) && sensor(k - 2) && sensor(k - 3)
  {
    StreakBound(sensor, k);
    if k >= 3 {
      assert Streak(sensor, k - 2) >= 1 <==> sensor(k - 3);
      assert Streak(sensor, k - 1) >= 2 <==> sensor(k - 2) && sensor(k - 3);
    }
  }

  lemma {:induction false} StreakBound(sensor: nat -> bool, k: nat)
    ensures Streak(sensor, k) <= k
  {
    if k > 0 {
      StreakBound(sensor, k - 1);
    }
  }

  function Never(i: nat): bool {
    false
  }

  lemma {:induction false} DeadSwitch(k: nat)
    ensures Streak(Never, k) == 0
  {
    if k > 0 {
      DeadSwitch(k - 1);
    }
  }

  /** With a switch that never closes, a movement takes as many ticks as its limit says. */
  lemma DeadSwitchLength(limit: int)
    ensures Length(Never, limit) == Max(1, limit)
  {
    DeadSwitch(Length(Never, limit));
  }

  // ---- The panel: what a command leaves behind

  datatype Panel = Panel(state: State, enabled: bool, dirOpen: bool, steps: nat)

  datatype Command = Home | OpenMm(mm: int) | CloseMm(mm: int)

  /** The travel in steps. */
  datatype Travel = Travel(maxMm: int, stepsPerMm: int)

  function Steps(t: Travel, mm: int): int {
    mm * t.stepsPerMm
  }

  predicate Accepted(t: Travel, c: Command) {
    c.Home? || c.mm <= t.maxMm
  }

  /** The steps a command asks for. */
  function Target(t: Travel, c: Command): int {
    if c.Home? then Steps(t, t.maxMm) else Steps(t, c.mm)
  }

  /** A movement ends at its target; opening and closing also at the end of the travel. */
  function Limit(t: Travel, c: Command): int {
    if c.Home? then Target(t, c) else Min(Target(t, c), Steps(t, t.maxMm))
  }

  function MovingState(c: Command): State {
    match c
    case Home => Homing
    case OpenMm(_) => Opening
    case CloseMm(_) => Closing
  }

  function GoalState(c: Command): State {
    if c.OpenMm? then Open else Closed
  }

  /** The state in which a movement that takes n ticks ends: homing needs the switch, the others
      are content with their target, and the end of the travel is a fault. */
  function EndState(t: Travel, c: Command, sensor: nat -> bool, n: nat): State {
    if Streak(sensor, n) >= 3 then GoalState(c)
    else if n >= Target(t, c) then (if c.Home? then Fault else GoalState(c))
    else Fault
  }

  /** The panel after a command has been carried out, and what the adapter answers. */
  function Carried(t: Travel, p: Panel, c: Command, sensor: nat -> bool): (Panel, Outcome) {
    if !Accepted(t, c) then (p.(state := Fault), Faulted)
    else
      var n := Length(sensor, Limit(t, c));
      if n > Patience then (Panel(MovingState(c), true, c.OpenMm?, p.steps + Patience), TimedOut)
      else
        var end := EndState(t, c, sensor, n);
        (Panel(end, false, c.OpenMm?, p.steps + n), if end == GoalState(c) then Reached else Faulted)
  }

  predicate AtRest(p: Panel) {
    !p.enabled && (p.state.Init? || p.state.Closed? || p.state.Open? || p.state.Fault?)
  }

  /** A longer limit asks for no fewer steps than a shorter one. */
  lemma StepsMonotone(t: Travel, mm: int)
    requires t.stepsPerMm >= 0 && mm <= t.maxMm
    ensures Steps(t, mm) <= Steps(t, t.maxMm)
  {
    assert (t.maxMm - mm) * t.stepsPerMm >= 0;
    assert Steps(t, t.maxMm) - Steps(t, mm) == (t.maxMm - mm) * t.stepsPerMm;
  }

  /** When the travel fits the adapter's patience, every command begun at rest ends at rest, never
      times out, takes at most the travel's steps, and opens or closes exactly when it is accepted. */
  lemma CommandsEndAtRest(t: Travel, p: Panel, c: Command, sensor: nat -> bool)
    requires t.stepsPerMm >= 0 && Steps(t, t.maxMm) <= Patience && AtRest(p)
    ensures var (after, outcome) := Carried(t, p, c, sensor);
            && AtRest(after) && outcome != TimedOut
            && p.steps <= after.steps <= p.steps + Max(1, Steps(t, t.maxMm))
            && (outcome == Reached ==> after.state == GoalState(c))
            && (!c.Home? ==> (outcome == Reached <==> Accepted(t, c)))
  {
    if Accepted(t, c) {
      StepsMonotone(t, if c.Home? then t.maxMm else c.mm);
    }
  }

  /** No such command ends at the end of the travel before its target. */
  lemma SoftLimitIsNeverReached(t: Travel, c: Command, sensor: nat -> bool)
    requires t.stepsPerMm >= 0 && Accepted(t, c) && !c.Home?
    ensures EndState(t, c, sensor, Length(sensor, Limit(t, c))) == GoalState(c)
  {
    StepsMonotone(t, c.mm);
  }

  /** For any number of steps per millimetre, the soft limit can stop an accepted movement exactly
      when its target lies beyond the travel and beyond the first step. */
  lemma SoftLimitExactly(t: Travel, c: Command)
    requires Accepted(t, c) && !c.Home?
    ensures EndState(t, c, Never, Length(Never, Limit(t, c))) == Fault
            <==> Max(1, Steps(t, t.maxMm)) < Target(t, c)
  {
    DeadSwitchLength(Limit(t, c));
    DeadSwitch(Length(Never, Limit(t, c)));
  }

  /** Homing ends in time for every switch exactly when the travel fits the patience; otherwise a
      dead switch leaves the motor enabled and the state moving. */
  lemma HomingEndsInTimeExactly(t: Travel, p: Panel)
    ensures (forall sensor: nat -> bool :: AtRest(Carried(t, p, Home, sensor).0)) <==> Steps(t, t.maxMm) <= Patience
    ensures Steps(t, t.maxMm) > Patience ==>
              Carried(t, p, Home, Never) == (Panel(Homing, true, false, p.steps + Patience), TimedOut)
  {
    DeadSwitchLength(Limit(t, Home));
    assert Steps(t, t.maxMm) > Patience ==> !AtRest(Carried(t, p, Home, Never).0);
  }

  /** Homing succeeds exactly when some three readings in a row were true within the travel and
      the adapter's patience; it stops at the first such three. */
  lemma HomingSucceedsExactly(t: Travel, p: Panel, sensor: nat -> bool)
    ensures Carried(t, p, Home, sensor).1 == Reached
            <==> exists k: nat :: k <= Min(Patience, Max(1, Steps(t, t.maxMm))) && Streak(sensor, k) >= 3
    ensures Carried(t, p, Home, sensor).1 == Reached ==>
              var n := Carried(t, p, Home, sensor).0.steps - p.steps;
              n >= 3 && sensor(n - 1) && sensor(n - 2) && sensor(n - 3)
  {
    var limit := Limit(t, Home);
    var n := Length(sensor, limit);
    DebounceReadsThree(sensor, n);
    if k: nat :| k <= Min(Patience, Max(1, limit)) && Streak(sensor, k) >= 3 {
      DebounceReadsThree(sensor, k);
      assert Stops(sensor, limit, k);
    }
  }

  /** A run of commands, each with the readings it meets. */
  function RunAll(t: Travel, p: Panel, commands: seq<(Command, nat -> bool)>): Panel {
    if commands == [] then p
    else
      var (c, sensor) := commands[|commands| - 1];
      Carried(t, RunAll(t, p, commands[..|commands| - 1]), c, sensor).0
  }

  /** Every run that starts at rest ends at rest. */
  lemma {:induction false} RunsEndAtRest(t: Travel, p: Panel, commands: seq<(Command, nat -> bool)>)
    requires t.stepsPerMm >= 0 && Steps(t, t.maxMm) <= Patience && AtRest(p)
    ensures AtRest(RunAll(t, p, commands))
  {
    if commands != [] {
      RunsEndAtRest(t, p, commands[..|commands| - 1]);
      var (c, sensor) := commands[|commands| - 1];
      CommandsEndAtRest(t, RunAll(t, p, commands[..|commands| - 1]), c, sensor);
    }
  }

  /** The last command of the run that was accepted took longer than the adapter waits; with none,
      whether the motor ran before. */
  predicate LastTimedOut(t: Travel, p: Panel, commands: seq<(Command, nat -> bool)>) {
    if commands == [] then p.enabled
    else
      var (c, sensor) := commands[|commands| - 1];
      if Accepted(t, c) then Length(sensor, Limit(t, c)) > Patience
      else LastTimedOut(t, p, commands[..|commands| - 1])
  }

  /** After any run, whatever the travel, the motor is left running exactly when the last accepted
      command timed out: a refused command does not stop it, any other does. */
  lemma {:induction false} MotorRunsExactly(t: Travel, p: Panel, commands: seq<(Command, nat -> bool)>)
    ensures RunAll(t, p, commands).enabled <==> LastTimedOut(t, p, commands)
  {
    if commands != [] {
      MotorRunsExactly(t, p, commands[..|commands| - 1]);
    }
  }

  // ---- A command, step by step

  /** The last three of the first k readings were true. */
  predicate Three(sensor: nat -> bool, k: nat) {
    k >= 3 && sensor(k - 1) && sensor(k - 2) && sensor(k - 3)
  }

  /** The steps the command asks for have been made: those of its distance, or of the whole travel to home. */
  predicate Far(t: Travel, c: Command, k: nat) {
    match c
    case Home => k >= t.maxMm * t.stepsPerMm
    case OpenMm(mm) => k >= mm * t.stepsPerMm
    case CloseMm(mm) => k >= mm * t.stepsPerMm
  }

  /** The movement has nothing left to wait for after k steps. */
  predicate Over(t: Travel, c: Command, sensor: nat -> bool, k: nat) {
    Three(sensor, k) || Far(t, c, k) || k >= t.maxMm * t.stepsPerMm
  }

  /** A command that asks for more than the travel only sets the fault. Any other turns the motor its way and
      steps until the switch was true three times, the distance is made, the travel is used up or the adapter
      loses patience, and at no earlier step; what stopped it decides where it ends and what is answered. */
  predicate CarriedAsTold(t: Travel, p: Panel, c: Command, sensor: nat -> bool, after: Panel, outcome: Outcome) {
    if !c.Home? && c.mm > t.maxMm then after == p.(state := Fault) && outcome == Faulted
    else
      var n := after.steps - p.steps;
      && 1 <= n <= 10000 && (forall k :: 1 <= k < n ==> !Over(t, c, sensor, k))
      && after.dirOpen == c.OpenMm?
      && (after.enabled <==> outcome == TimedOut) && (outcome == TimedOut <==> !Over(t, c, sensor, n))
      && (outcome == TimedOut ==>
            n == 10000 && after.state == match c case Home => Homing case OpenMm(_) => Opening case CloseMm(_) => Closing)
      && (outcome == Reached <==> Three(sensor, n) || (!c.Home? && Far(t, c, n)))
      && (outcome == Reached ==> after.state == if c.OpenMm? then Open else Closed)
      && (outcome == Faulted ==> after.state == Fault)
  }

  lemma StopsExactly(t: Travel, c: Command, sensor: nat -> bool, k: nat)
    ensures Stops(sensor, Limit(t, c), k) <==> Over(t, c, sensor, k)
    ensures Streak(sensor, k) >= 3 <==> Three(sensor, k)
    ensures k >= Target(t, c) <==> Far(t, c, k)
  {
    DebounceReadsThree(sensor, k);
  }

  lemma CarriedExactly(t: Travel, p: Panel, c: Command, sensor: nat -> bool)
    ensures var (after, outcome) := Carried(t, p, c, sensor);
            CarriedAsTold(t, p, c, sensor, after, outcome)
  {
    var n := Length(sensor, Limit(t, c));
    forall k: nat
      ensures Stops(sensor, Limit(t, c), k) <==> Over(t, c, sensor, k)
    {
      StopsExactly(t, c, sensor, k);
    }
    StopsExactly(t, c, sensor, n);
  }

  // ---- The objects

  class Stepper {
    const stepsPerMm: int
    var enabled: bool
    var dirOpen: bool
    var steps: nat

    constructor (stepsPerMm: int)
      ensures this.stepsPerMm == stepsPerMm && !enabled && steps == 0
    {
      this.stepsPerMm, enabled, dirOpen, steps := stepsPerMm, false, false, 0;
    }
  }

  class Fsm {
    const stepper: Stepper
    const maxMm: int
    var state: State
    var targetSteps: int
    var stepsDone: int
    var debOpen: int
    var debClosed: int

    constructor (stepper: Stepper, maxMm: int)
      ensures this.stepper == stepper && this.maxMm == maxMm && state == Init
    {
      this.stepper, this.maxMm := stepper, maxMm;
      state, targetSteps, stepsDone, debOpen, debClosed := Init, 0, 0, 0, 0;
    }

    function TravelOf(): Travel {
      Travel(maxMm, stepper.stepsPerMm)
    }

    function View(): Panel
      reads this, stepper
    {
      Panel(state, stepper.enabled, stepper.dirOpen, stepper.steps)
    }

    /** k ticks into the movement of a command, with the readings so far. */
    predicate Underway(c: Command, sensor: nat -> bool, k: nat, steps: nat)
      reads this, stepper
    {
      && state == MovingState(c) && targetSteps == Target(TravelOf(), c) && stepsDone == k
      && (if c.OpenMm? then debOpen else debClosed) == Streak(sensor, k)
      && View() == Panel(MovingState(c), true, c.OpenMm?, steps + k)
    }

    method Command(c: Command)
      modifies this, stepper
      ensures Accepted(TravelOf(), c) ==> forall sensor :: Underway(c, sensor, 0, old(stepper.steps))
      ensures !Accepted(TravelOf(), c) ==> View() == old(View()).(state := Fault)
    {
      if !c.Home? && c.mm > maxMm {
        state := Fault;
        return;
      }
      stepsDone := 0;
      targetSteps := (if c.Home? then maxMm else c.mm) * stepper.stepsPerMm;
      if c.OpenMm? {
        debOpen := 0;
      } else {
        debClosed := 0;
      }
      stepper.enabled := true;
      stepper.dirOpen := c.OpenMm?;
      state := MovingState(c);
    }

    method Debounce(level: bool, counter: int) returns (hit: bool, count: int)
      ensures count == if level then counter + 1 else 0
      ensures hit == (count >= 3)
    {
      count := if level then counter + 1 else 0;
      hit := level && count >= 3;
    }

    /** One tick of a movement; the reading is that of the switch the movement heads for. */
    method Tick(ghost c: Command, ghost sensor: nat -> bool, ghost k: nat, ghost steps: nat, level: bool)
      requires level == sensor(k)
      modifies this, stepper
      ensures old(Underway(c, sensor, k, steps)) ==>
                if Stops(sensor, Limit(TravelOf(), c), k + 1) then
                  View() == Panel(EndState(TravelOf(), c, sensor, k + 1), false, c.OpenMm?, steps + k + 1)
                else Underway(c, sensor, k + 1, steps)
      ensures old(AtRest(View())) || old(state) == Fault ==> View() == old(View())
    {
      var hit;
      match state
      case Homing =>
        stepper.steps := stepper.steps + 1;
        stepsDone := stepsDone + 1;
        hit, debClosed := Debounce(level, debClosed);
        if hit {
          stepper.enabled := false;
          state := Closed;
        } else if stepsDone >= targetSteps {
          stepper.enabled := false;
          state := Fault;
        }
      case Opening =>
        stepper.steps := stepper.steps + 1;
        stepsDone := stepsDone + 1;
        hit, debOpen := Debounce(level, debOpen);
        if hit {
          stepper.enabled := false;
          state := Open;
        } else if stepsDone >= targetSteps {
          stepper.enabled := false;
          state := Open;
        } else if stepsDone >= maxMm * stepper.stepsPerMm {
          stepper.enabled := false;
          state := Fault;
        }
      case Closing =>
        stepper.steps := stepper.steps + 1;
        stepsDone := stepsDone + 1;
        hit, debClosed := Debounce(level, debClosed);
        if hit {
          stepper.enabled := false;
          state := Closed;
        } else if stepsDone >= targetSteps {
          stepper.enabled := false;
          state := Closed;
        } else if stepsDone >= maxMm * stepper.stepsPerMm {
          stepper.enabled := false;
          state := Fault;
        }
      case _ =>
    }
  }

  class Adapter {
    const fsm: Fsm

    constructor (fsm: Fsm)
      ensures this.fsm == fsm
    {
      this.fsm := fsm;
    }

    method WaitFor(c: Command, sensor: nat -> bool, ghost p: Panel) returns (outcome: Outcome)
      requires if Accepted(fsm.TravelOf(), c) then fsm.Underway(c, sensor, 0, p.steps)
               else fsm.View() == p.(state := Fault)
      modifies fsm, fsm.stepper
      ensures (fsm.View(), outcome) == Carried(fsm.TravelOf(), p, c, sensor)
    {
      ghost var t := fsm.TravelOf();
      ghost var limit := Limit(t, c);
      for i := 0 to Patience
        invariant if Accepted(t, c) then fsm.Underway(c, sensor, i, p.steps)
                  else i == 0 && fsm.View() == p.(state := Fault)
        invariant Length(sensor, limit) > i
      {
        fsm.Tick(c, sensor, i, p.steps, sensor(i));
        if fsm.state == GoalState(c) {
          return Reached;
        }
        if fsm.state == Fault {
          return Faulted;
        }
      }
      outcome := TimedOut;
    }

    /** Home, open or close: the command, then the wait for its goal. */
    method Run(c: Command, sensor: nat -> bool) returns (outcome: Outcome)
      modifies fsm, fsm.stepper
      ensures (fsm.View(), outcome) == Carried(fsm.TravelOf(), old(fsm.View()), c, sensor)
    {
      ghost var p := fsm.View();
      fsm.Command(c);
      outcome := WaitFor(c, sensor, p);
    }
  }
}
