/** The application task of components/app/app.c: the boot prologue, the
    Mealy machine that switches on (current state, event type) and drives
    the two stopwatches, the consumer loop that applies queued events in
    order, and the one-shot setup timer whose callback enqueues the timer
    event.

    `Step` and `Run` state the machine on values; `AppTask` is the task's
    globals updated in place, and its methods are proved to follow `Step`
    and `Run`. Each event is handled at one instant `now` (microseconds),
    which every stopwatch call of that event uses. */
module App {
  import opened AppTypes
  import opened Optional
  import opened Esp
  import opened SettingsTypes
  import CInt
  import Chrono
  import Storage
  import Dispatcher

  /** The globals the task owns: the state, both stopwatches, and whether
      the setup timer can still fire. */
  datatype Machine = Machine(state: AppState, blue: Chrono.ChronoT, red: Chrono.ChronoT, setupTimerArmed: bool)

  /** An event and the instant the task handles it. */
  datatype TimedEvent = TimedEvent(event: AppEvent, at: int)

  /** What the boot prologue ends in: a fatal halt, or the machine and the
      control point the task starts with. */
  datatype BootOutcome = Halted | Booted(machine: Machine, controlPoint: ControlPoint)

  /** A stopwatch runs exactly when its team is the running one. */
  predicate Exclusive(m: Machine) {
    (m.blue.isRunning <==> m.state == RunningBlue) && (m.red.isRunning <==> m.state == RunningRed)
  }

  /** The clock has not gone back behind either running stopwatch. */
  predicate ClockOk(m: Machine, now: int) {
    Chrono.ClockOk(m.blue, now) && Chrono.ClockOk(m.red, now)
  }

  /** The control point read at boot: the stored one, or ALPHA when the
      read fails (the global starts as NONE). */
  function BootControlPoint(nvs: Storage.Nvs, openErr: Err): (cp: ControlPoint)
    ensures IsPlayable(cp)
    ensures Storage.KeyControlPoint in nvs.entries && openErr == Ok && nvs.entries[Storage.KeyControlPoint] < CpCount as bv8 ==>
      cp == nvs.entries[Storage.KeyControlPoint] as int
    ensures Storage.KeyControlPoint !in nvs.entries || openErr != Ok ==> cp == CpAlpha
    ensures Storage.GetControlPoint(nvs, openErr, Some(CpNone)).err != Ok ==> cp == CpAlpha
  {
    var got := Storage.GetControlPoint(nvs, openErr, Some(CpNone));
    if got.err != Ok then CpAlpha else got.out.value
  }

  /** Lines 29-60 of app_task: state INIT, the control point from storage,
      then the queue and the timer; failing to create either is fatal, and
      a timer that does not start sends the machine straight to IDLE. */
  function Boot(nvs: Storage.Nvs, openErr: Err, queueCreated: bool, timerCreated: bool, timerStarted: bool): (r: BootOutcome)
    ensures r.Halted? <==> !queueCreated || !timerCreated
    ensures r.Booted? ==> r.machine.blue == Chrono.Default && r.machine.red == Chrono.Default
    ensures r.Booted? ==> r.machine.state == (if timerStarted then Init else Idle)
    ensures r.Booted? ==> r.machine.setupTimerArmed == timerStarted
    ensures r.Booted? ==> Exclusive(r.machine) && r.controlPoint == BootControlPoint(nvs, openErr)
  {
    if !queueCreated || !timerCreated then Halted
    else
      var state := if timerStarted then Init else Idle;
      Booted(Machine(state, Chrono.Default, Chrono.Default, timerStarted), BootControlPoint(nvs, openErr))
  }

  /** The four effects the table is made of. */
  function EnterRunningBlue(m: Machine, now: int): Machine {
    m.(state := RunningBlue, blue := Chrono.AfterStart(m.blue, now), red := Chrono.AfterStop(m.red, now))
  }

  function EnterRunningRed(m: Machine, now: int): Machine {
    m.(state := RunningRed, blue := Chrono.AfterStop(m.blue, now), red := Chrono.AfterStart(m.red, now))
  }

  function EnterFinished(m: Machine, now: int): Machine {
    m.(state := Finished, blue := Chrono.AfterStop(m.blue, now), red := Chrono.AfterStop(m.red, now))
  }

  function ResetToIdle(m: Machine, now: int): Machine {
    m.(state := Idle, blue := Chrono.AfterReset(m.blue, now), red := Chrono.AfterReset(m.red, now))
  }

  function InitStep(m: Machine, e: AppEvent): Machine {
    match e
    case BtnBlueShort | BtnBlueMedium | BtnRedShort | BtnRedMedium | BtnBothShort | BtnBothMedium =>
      m.(state := Idle, setupTimerArmed := false)
    case BtnBothLong => m.(state := SettingsControlPoint, setupTimerArmed := false)
    case TmrInitSetup => m.(state := Idle)
    case BtnBlueLong | BtnRedLong => m
  }

  function IdleStep(m: Machine, e: AppEvent, now: int): Machine {
    match e
    case BtnBlueShort | BtnBlueMedium => EnterRunningBlue(m, now)
    case BtnRedShort | BtnRedMedium => EnterRunningRed(m, now)
    case _ => m
  }

  function RunningBlueStep(m: Machine, e: AppEvent, now: int): Machine {
    match e
    case BtnRedShort | BtnRedMedium => EnterRunningRed(m, now)
    case BtnBothMedium | BtnBothLong => EnterFinished(m, now)
    case _ => m
  }

  function RunningRedStep(m: Machine, e: AppEvent, now: int): Machine {
    match e
    case BtnBlueShort | BtnBlueMedium => EnterRunningBlue(m, now)
    case BtnBothMedium | BtnBothLong => EnterFinished(m, now)
    case _ => m
  }

  function FinishedStep(m: Machine, e: AppEvent, now: int): Machine {
    match e
    case BtnBothMedium | BtnBothLong => ResetToIdle(m, now)
    case _ => m
  }

  function SettingsControlPointStep(m: Machine, e: AppEvent): Machine {
    match e
    case BtnBlueShort => m.(state := SettingsExit)
    case BtnRedShort => m.(state := SettingsCpAlpha)
    case BtnBothMedium | BtnBothLong => m.(state := Idle)
    case _ => m
  }

  /** One pass of the receive loop: the transition table. A state without a
      case (SETTINGS, SETTINGS_EXIT, SETTINGS_CP_ALPHA) takes the default
      branch and nothing changes. */
  function Step(m: Machine, e: AppEvent, now: int): (r: Machine)
    ensures r.state == Init ==> m.state == Init
    ensures r.setupTimerArmed ==> m.setupTimerArmed
    ensures m.state != Init ==> r.setupTimerArmed == m.setupTimerArmed
    ensures m.state in {Settings, SettingsExit, SettingsCpAlpha} ==> r == m
  {
    match m.state
    case Init => InitStep(m, e)
    case Idle => IdleStep(m, e, now)
    case RunningBlue => RunningBlueStep(m, e, now)
    case RunningRed => RunningRedStep(m, e, now)
    case Finished => FinishedStep(m, e, now)
    case SettingsControlPoint => SettingsControlPointStep(m, e)
    case _ => m
  }

  /** The receive loop over a sequence of handled events, oldest first. */
  function Run(m: Machine, events: seq<TimedEvent>): (r: Machine)
    ensures events == [] ==> r == m
    ensures r.state == Init ==> m.state == Init
    ensures r.setupTimerArmed ==> m.setupTimerArmed
    ensures m.state != Init ==> r.setupTimerArmed == m.setupTimerArmed
    decreases |events|
  {
    if events == [] then m else Run(Step(m, events[0].event, events[0].at), events[1..])
  }

  /** Whether an event ends the game. */
  predicate EndsGame(m: Machine, e: AppEvent) {
    (m.state == RunningBlue || m.state == RunningRed) && (e == BtnBothMedium || e == BtnBothLong)
  }

  /** The team announced at the end of a game: BLUE when its seconds are at
      least RED's, so a tie goes to BLUE. */
  function Winner(blueSeconds: int, redSeconds: int): (t: Team)
    ensures t == Blue <==> blueSeconds >= redSeconds
    ensures t == Red <==> redSeconds > blueSeconds
  {
    if blueSeconds >= redSeconds then Blue else Red
  }

  /** The winner a step announces: the one that ends the game compares the
      seconds of the two stopped stopwatches; no other step announces one. */
  function Announcement(m: Machine, e: AppEvent, now: int): (w: Option<Team>)
    ensures w.Some? <==> EndsGame(m, e)
  {
    if EndsGame(m, e) then
      var next := Step(m, e, now);
      Some(Winner(Chrono.Seconds(next.blue, now), Chrono.Seconds(next.red, now)))
    else None
  }

  /** INIT: a SHORT or MEDIUM press of any kind goes to IDLE and disarms the
      setup timer; the timer event goes to IDLE without touching it; a
      combined LONG press opens the settings; a single LONG press is
      ignored. No stopwatch is touched. */
  lemma InitTransitions(m: Machine, e: AppEvent, now: int)
    requires m.state == Init
    ensures Step(m, e, now).blue == m.blue && Step(m, e, now).red == m.red
    ensures e in {BtnBlueShort, BtnBlueMedium, BtnRedShort, BtnRedMedium, BtnBothShort, BtnBothMedium} ==>
      Step(m, e, now).state == Idle && !Step(m, e, now).setupTimerArmed
    ensures e == TmrInitSetup ==> Step(m, e, now) == m.(state := Idle)
    ensures e == BtnBothLong ==> Step(m, e, now) == m.(state := SettingsControlPoint, setupTimerArmed := false)
    ensures e == BtnBlueLong || e == BtnRedLong ==> Step(m, e, now) == m
  {
  }

  /** IDLE: a SHORT or MEDIUM press of one team starts its stopwatch, stops
      the other and enters its RUNNING state; every other event (LONG
      presses, combined presses, the timer) changes nothing. */
  lemma IdleTransitions(m: Machine, e: AppEvent, now: int)
    requires m.state == Idle
    ensures e == BtnRedShort || e == BtnRedMedium ==>
      Step(m, e, now) == m.(state := RunningRed, red := Chrono.AfterStart(m.red, now), blue := Chrono.AfterStop(m.blue, now))
    ensures e == BtnBlueShort || e == BtnBlueMedium ==>
      Step(m, e, now) == m.(state := RunningBlue, blue := Chrono.AfterStart(m.blue, now), red := Chrono.AfterStop(m.red, now))
    ensures e !in {BtnRedShort, BtnRedMedium, BtnBlueShort, BtnBlueMedium} ==> Step(m, e, now) == m
  {
  }

  /** RUNNING: the running team's own presses change nothing; a SHORT or
      MEDIUM press of the other team hands the time over; a combined MEDIUM
      or LONG press ends the game with both stopwatches stopped. */
  lemma RunningTransitions(m: Machine, e: AppEvent, now: int)
    requires m.state == RunningBlue || m.state == RunningRed
    ensures m.state == RunningBlue && e in {BtnBlueShort, BtnBlueMedium, BtnBlueLong} ==> Step(m, e, now) == m
    ensures m.state == RunningRed && e in {BtnRedShort, BtnRedMedium, BtnRedLong} ==> Step(m, e, now) == m
    ensures m.state == RunningBlue && (e == BtnRedShort || e == BtnRedMedium) ==>
      Step(m, e, now) == m.(state := RunningRed, blue := Chrono.AfterStop(m.blue, now), red := Chrono.AfterStart(m.red, now))
    ensures m.state == RunningRed && (e == BtnBlueShort || e == BtnBlueMedium) ==>
      Step(m, e, now) == m.(state := RunningBlue, blue := Chrono.AfterStart(m.blue, now), red := Chrono.AfterStop(m.red, now))
    ensures m.state == RunningBlue && e == BtnRedLong ==> Step(m, e, now) == m
    ensures m.state == RunningRed && e == BtnBlueLong ==> Step(m, e, now) == m
    ensures e == BtnBothMedium || e == BtnBothLong ==>
      Step(m, e, now) == m.(state := Finished, blue := Chrono.AfterStop(m.blue, now), red := Chrono.AfterStop(m.red, now))
    ensures e == BtnBothMedium || e == BtnBothLong ==>
      !Step(m, e, now).blue.isRunning && !Step(m, e, now).red.isRunning
    ensures e == TmrInitSetup || e == BtnBothShort ==> Step(m, e, now) == m
  {
  }

  /** At the end of a game BLUE is announced exactly when its stopwatch
      shows at least as many seconds as RED's. */
  lemma WinnerAtFinish(m: Machine, e: AppEvent, now: int)
    requires EndsGame(m, e)
    ensures Step(m, e, now).state == Finished
    ensures Announcement(m, e, now) == Some(Blue) <==>
      Chrono.Seconds(Step(m, e, now).blue, now) >= Chrono.Seconds(Step(m, e, now).red, now)
  {
  }

  /** FINISHED: only a combined MEDIUM or LONG press matters, and it returns
      to IDLE with both totals zeroed; every other event changes nothing. */
  lemma FinishedTransitions(m: Machine, e: AppEvent, now: int)
    requires m.state == Finished
    ensures e == BtnBothMedium || e == BtnBothLong ==>
      Step(m, e, now).state == Idle && Step(m, e, now).blue.timeTotalUs == 0 && Step(m, e, now).red.timeTotalUs == 0
    ensures e != BtnBothMedium && e != BtnBothLong ==> Step(m, e, now) == m
  {
  }

  /** SETTINGS_CONTROL_POINT: BLUE SHORT goes to SETTINGS_EXIT, RED SHORT to
      SETTINGS_CP_ALPHA, a combined MEDIUM or LONG press to IDLE; nothing
      else changes anything. Only the state ever changes. */
  lemma SettingsControlPointTransitions(m: Machine, e: AppEvent, now: int)
    requires m.state == SettingsControlPoint
    ensures Step(m, e, now) == m.(state := Step(m, e, now).state)
    ensures Step(m, e, now).state ==
      match e
      case BtnBlueShort => SettingsExit
      case BtnRedShort => SettingsCpAlpha
      case BtnBothMedium | BtnBothLong => Idle
      case _ => SettingsControlPoint
  {
  }

  /** SETTINGS, SETTINGS_EXIT and SETTINGS_CP_ALPHA have no case of their
      own: whatever events follow, the machine never leaves them and nothing
      changes. */
  lemma {:induction false} DeadEndStatesAbsorb(m: Machine, events: seq<TimedEvent>)
    requires m.state in {Settings, SettingsExit, SettingsCpAlpha}
    ensures Run(m, events) == m
    decreases |events|
  {
    if events != [] {
      DeadEndStatesAbsorb(Step(m, events[0].event, events[0].at), events[1..]);
    }
  }

  /** Every step keeps each stopwatch running exactly when its team's
      RUNNING state is current. */
  lemma StepKeepsExclusive(m: Machine, e: AppEvent, now: int)
    requires Exclusive(m)
    ensures Exclusive(Step(m, e, now))
  {
  }

  /** So does every run, and hence at most one stopwatch ever runs. */
  lemma {:induction false} RunKeepsExclusive(m: Machine, events: seq<TimedEvent>)
    requires Exclusive(m)
    ensures Exclusive(Run(m, events))
    ensures !(Run(m, events).blue.isRunning && Run(m, events).red.isRunning)
    decreases |events|
  {
    if events != [] {
      StepKeepsExclusive(m, events[0].event, events[0].at);
      RunKeepsExclusive(Step(m, events[0].event, events[0].at), events[1..]);
    }
  }

  /** From boot, at most one stopwatch runs after any sequence of events. */
  lemma AtMostOneRunningAfterBoot(nvs: Storage.Nvs, openErr: Err, timerStarted: bool, events: seq<TimedEvent>)
    ensures var m := Boot(nvs, openErr, true, true, timerStarted).machine;
      Exclusive(Run(m, events)) && !(Run(m, events).blue.isRunning && Run(m, events).red.isRunning)
  {
    RunKeepsExclusive(Boot(nvs, openErr, true, true, timerStarted).machine, events);
  }

  /** Handled at an instant the clock has reached, a step leaves both
      stopwatches consistent with every later instant, and no total goes
      down except through the reset that leaves FINISHED. */
  lemma StepKeepsClock(m: Machine, e: AppEvent, now: int, later: int)
    requires ClockOk(m, now) && now <= later
    ensures ClockOk(Step(m, e, now), later)
    ensures !(m.state == Finished && (e == BtnBothMedium || e == BtnBothLong)) ==>
      Step(m, e, now).blue.timeTotalUs >= m.blue.timeTotalUs && Step(m, e, now).red.timeTotalUs >= m.red.timeTotalUs
  {
  }

  /** Events handled at non-decreasing instants. */
  predicate Ordered(events: seq<TimedEvent>) {
    forall i, j :: 0 <= i < j < |events| ==> events[i].at <= events[j].at
  }

  /** No event of the run is a combined MEDIUM or LONG press handled in
      FINISHED, the only transition that zeroes the totals. */
  predicate NoFinishedReset(m: Machine, events: seq<TimedEvent>)
    decreases |events|
  {
    events == [] ||
      (!(m.state == Finished && (events[0].event == BtnBothMedium || events[0].event == BtnBothLong)) &&
       NoFinishedReset(Step(m, events[0].event, events[0].at), events[1..]))
  }

  /** Over a run whose instants never go back, and that never resets a
      finished game, neither stopwatch total goes down. */
  lemma {:induction false} TotalsNeverDecrease(m: Machine, events: seq<TimedEvent>)
    requires Ordered(events)
    requires events != [] ==> ClockOk(m, events[0].at)
    requires NoFinishedReset(m, events)
    ensures Run(m, events).blue.timeTotalUs >= m.blue.timeTotalUs
    ensures Run(m, events).red.timeTotalUs >= m.red.timeTotalUs
    decreases |events|
  {
    if events != [] {
      var next := Step(m, events[0].event, events[0].at);
      var later := if |events| > 1 then events[1].at else events[0].at;
      StepKeepsClock(m, events[0].event, events[0].at, later);
      TotalsNeverDecrease(next, events[1..]);
    }
  }

  /** Appending one event to a run is one more step. */
  lemma {:induction false} RunAppend(m: Machine, events: seq<TimedEvent>, last: TimedEvent)
    ensures Run(m, events + [last]) == Step(Run(m, events), last.event, last.at)
    decreases |events|
  {
    if events == [] {
      assert events + [last] == [last];
    } else {
      assert (events + [last])[1..] == events[1..] + [last];
      RunAppend(Step(m, events[0].event, events[0].at), events[1..], last);
    }
  }

  /** A game from IDLE: RED starts at t, BLUE takes over 5 s later, both end
      it 3 s after that: RED shows 5 s, BLUE 3 s, RED wins; ending it again
      returns to IDLE with both totals zero. */
  lemma ExampleGame(t: int)
    ensures var m0 := Machine(Idle, Chrono.Default, Chrono.Default, false);
      var played := [TimedEvent(BtnRedShort, t), TimedEvent(BtnBlueShort, t + 5000000)];
      var m2 := Run(m0, played);
      var m3 := Step(m2, BtnBothMedium, t + 8000000);
      var m4 := Step(m3, BtnBothMedium, t + 9000000);
      m2.state == RunningBlue && m2.blue.isRunning && !m2.red.isRunning &&
      m3.state == Finished && Chrono.Seconds(m3.red, t + 8000000) == 5 && Chrono.Seconds(m3.blue, t + 8000000) == 3 &&
      Announcement(m2, BtnBothMedium, t + 8000000) == Some(Red) &&
      m4.state == Idle && m4.blue.timeTotalUs == 0 && m4.red.timeTotalUs == 0
  {
    var m0 := Machine(Idle, Chrono.Default, Chrono.Default, false);
    var played := [TimedEvent(BtnRedShort, t), TimedEvent(BtnBlueShort, t + 5000000)];
    var m1 := Step(m0, BtnRedShort, t);
    assert m1.red == Chrono.ChronoT(t, 0, true) && m1.blue == Chrono.Default;
    var m2 := Step(m1, BtnBlueShort, t + 5000000);
    assert m2.red == Chrono.ChronoT(t, 5000000, false);
    assert m2.blue == Chrono.ChronoT(t + 5000000, 0, true);
    assert played[1..] == [TimedEvent(BtnBlueShort, t + 5000000)];
    assert Run(m0, played) == Run(m1, played[1..]) == Run(m2, []) == m2;
    var m3 := Step(m2, BtnBothMedium, t + 8000000);
    assert m3.red.timeTotalUs == 5000000 && m3.blue.timeTotalUs == 3000000;
    assert Chrono.Seconds(m3.red, t + 8000000) == CInt.Div(5000000, Chrono.MicrosPerSecond) == 5;
    assert Chrono.Seconds(m3.blue, t + 8000000) == CInt.Div(3000000, Chrono.MicrosPerSecond) == 3;
  }

  /** The events of a queue paired with the instants they are handled at. */
  function Timed(events: seq<AppEvent>, times: seq<int>): (r: seq<TimedEvent>)
    requires |events| == |times|
    ensures |r| == |events|
    ensures forall i :: 0 <= i < |r| ==> r[i] == TimedEvent(events[i], times[i])
  {
    seq(|events|, i requires 0 <= i < |events| => TimedEvent(events[i], times[i]))
  }

  /** initial_setup_timer_callback: enqueue the timer event, dropped if the
      queue is full. */
  method InitialSetupTimerCallback(queue: Dispatcher.EventQueue) returns (queued: bool)
    requires queue.Valid()
    modifies queue
    ensures queue.Valid()
    ensures queued <==> |old(queue.items)| < Dispatcher.AppQueueLength
    ensures queue.items == if queued then old(queue.items) + [TmrInitSetup] else old(queue.items)
  {
    queued := queue.Send(TmrInitSetup);
  }

  /** The task's globals. */
  class AppTask {
    var currentState: AppState
    const blueChrono: Chrono.Stopwatch
    const redChrono: Chrono.Stopwatch
    var controlPoint: ControlPoint
    var setupTimerArmed: bool
    const queue: Dispatcher.EventQueue

    ghost predicate Valid()
      reads this, queue
    {
      blueChrono != redChrono && queue.Valid()
    }

    function Snapshot(): Machine
      reads this, blueChrono, redChrono
    {
      Machine(currentState, blueChrono.Value(), redChrono.Value(), setupTimerArmed)
    }

    /** The boot prologue once the queue and the timer have been created;
        `timerStarted` is what xTimerStart reports. */
    constructor (store: Storage.NvsStore, openErr: Err, timerStarted: bool)
      ensures Valid() && fresh(blueChrono) && fresh(redChrono) && fresh(queue) && queue.items == []
      ensures Booted(Snapshot(), controlPoint) == Boot(store.Value(), openErr, true, true, timerStarted)
    {
      blueChrono := new Chrono.Stopwatch();
      redChrono := new Chrono.Stopwatch();
      queue := new Dispatcher.EventQueue();
      new;
      currentState := Init;
      var err, out := store.GetControlPointFrom(openErr, Some(CpNone));
      controlPoint := out.value;
      if err != Ok {
        controlPoint := CpAlpha;
      }
      setupTimerArmed := timerStarted;
      if !timerStarted {
        currentState := Idle;
      }
    }

    /** get_app_state: a plain read. */
    method GetAppState() returns (s: AppState)
      ensures s == Snapshot().state
    {
      s := currentState;
    }

    /** Stop both stopwatches and announce the winner. */
    method FinishGame(now: int) returns (winner: Option<Team>)
      requires blueChrono != redChrono
      modifies this, blueChrono, redChrono
      ensures Snapshot() == EnterFinished(old(Snapshot()), now)
      ensures controlPoint == old(controlPoint)
      ensures winner == Some(Winner(Chrono.Seconds(blueChrono.Value(), now), Chrono.Seconds(redChrono.Value(), now)))
    {
      currentState := Finished;
      blueChrono.Stop(now);
      redChrono.Stop(now);
      var blueSeconds := Chrono.Seconds(blueChrono.Value(), now);
      var redSeconds := Chrono.Seconds(redChrono.Value(), now);
      winner := Some(if blueSeconds >= redSeconds then Blue else Red);
    }

    /** One pass of app_task's receive loop: the nested switch on the
        current state and the event type. */
    method HandleEvent(e: AppEvent, now: int) returns (winner: Option<Team>)
      requires Valid()
      modifies this, blueChrono, redChrono
      ensures Valid()
      ensures Snapshot() == Step(old(Snapshot()), e, now)
      ensures controlPoint == old(controlPoint)
      ensures winner == Announcement(old(Snapshot()), e, now)
    {
      winner := None;
      match currentState {
        case Init =>
          match e {
            case BtnBlueShort | BtnBlueMedium | BtnRedShort | BtnRedMedium | BtnBothShort | BtnBothMedium =>
              setupTimerArmed := false;
              currentState := Idle;
            case BtnBothLong =>
              setupTimerArmed := false;
              currentState := SettingsControlPoint;
            case TmrInitSetup =>
              currentState := Idle;
            case BtnBlueLong | BtnRedLong =>
          }
        case Idle =>
          match e {
            case BtnBlueShort | BtnBlueMedium =>
              currentState := RunningBlue;
              blueChrono.Start(now);
              redChrono.Stop(now);
            case BtnRedShort | BtnRedMedium =>
              currentState := RunningRed;
              blueChrono.Stop(now);
              redChrono.Start(now);
            case _ =>
          }
        case RunningBlue =>
          match e {
            case BtnRedShort | BtnRedMedium =>
              currentState := RunningRed;
              blueChrono.Stop(now);
              redChrono.Start(now);
            case BtnBothMedium | BtnBothLong =>
              winner := FinishGame(now);
            case _ =>
          }
        case RunningRed =>
          match e {
            case BtnBlueShort | BtnBlueMedium =>
              currentState := RunningBlue;
              blueChrono.Start(now);
              redChrono.Stop(now);
            case BtnBothMedium | BtnBothLong =>
              winner := FinishGame(now);
            case _ =>
          }
        case Finished =>
          match e {
            case BtnBothMedium | BtnBothLong =>
              currentState := Idle;
              blueChrono.Reset(now);
              redChrono.Reset(now);
            case _ =>
          }
        case SettingsControlPoint =>
          match e {
            case BtnBlueShort =>
              currentState := SettingsExit;
            case BtnRedShort =>
              currentState := SettingsCpAlpha;
            case BtnBothMedium | BtnBothLong =>
              currentState := Idle;
            case _ =>
          }
        case _ =>
      }
    }

    /** The one-shot setup timer expiring: it fires only while armed, and
        its callback enqueues the timer event. */
    method SetupTimerExpires() returns (queued: bool)
      requires Valid()
      modifies this, queue
      ensures Valid() && !setupTimerArmed
      ensures currentState == old(currentState) && controlPoint == old(controlPoint)
      ensures queued ==> old(setupTimerArmed)
      ensures queue.items == if queued then old(queue.items) + [TmrInitSetup] else old(queue.items)
      ensures old(setupTimerArmed) ==> (queued <==> |old(queue.items)| < Dispatcher.AppQueueLength)
    {
      queued := false;
      if setupTimerArmed {
        setupTimerArmed := false;
        queued := InitialSetupTimerCallback(queue);
      }
    }

    /** The receive loop draining the queue in FIFO order, event i being
        handled at instant `times[i]`. */
    method ConsumeQueued(times: seq<int>)
      requires Valid() && |times| == |queue.items|
      modifies this, blueChrono, redChrono, queue
      ensures Valid() && queue.items == []
      ensures Snapshot() == Run(old(Snapshot()), Timed(old(queue.items), times))
      ensures controlPoint == old(controlPoint)
    {
      ghost var pending := queue.items;
      ghost var timed := Timed(pending, times);
      var i := 0;
      while queue.items != []
        invariant Valid()
        invariant 0 <= i <= |times| && queue.items == pending[i..]
        invariant Snapshot() == Run(old(Snapshot()), timed[..i])
        invariant controlPoint == old(controlPoint)
        decreases |queue.items|
      {
        var e := queue.Receive();
        var _ := HandleEvent(e.value, times[i]);
        RunAppend(old(Snapshot()), timed[..i], timed[i]);
        assert timed[..i + 1] == timed[..i] + [timed[i]];
        i := i + 1;
      }
      assert timed[..i] == timed;
    }
  }
}
