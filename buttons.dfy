/** The press classifier of components/buttons: the interrupt handler that
    raises one event-group bit per button line, and one pass of the button
    task's endless loop, which takes the post-debounce snapshot of those
    bits, polls the line(s) every 10 ms, buckets the held time and sends one
    event to the application queue.

    The lines are read through `levels`: `levels(j)` is what the two
    `gpio_get_level` calls return after the (j+1)-th 10 ms delay. The held
    time is the number of polls times 10 ms, which abstracts the tick count
    the task measures. */
module Buttons {
  import opened AppTypes
  import opened Optional
  import Dispatcher

  const GpioBtnRed: int := 5
  const GpioBtnBlue: int := 4

  /** Event-group bits (BTN_RED_EVENT = 1 << 0, BTN_BLUE_EVENT = 1 << 1). */
  const BtnRedEvent: bv32 := 1
  const BtnBlueEvent: bv32 := 2

  const PressInterTimeMs: nat := 10
  const PressShortMaxMs: nat := 2000
  const PressMediumMaxMs: nat := 4000
  const PressLongMaxMs: nat := 10000

  /** The do-while bound. */
  const MaxPolls: nat := PressLongMaxMs / PressInterTimeMs

  /** Which button(s) the snapshot says were pressed. */
  datatype Group = BothButtons | RedButton | BlueButton

  /** Duration class of a press. */
  datatype Bucket = Short | Medium | Long

  /** One reading of the two lines; a held button reads level 0. */
  datatype LineLevels = LineLevels(red: int, blue: int)

  /** gpio_button_isr_handler: the bit raised for an interrupt on `gpioNum`. */
  function IsrBits(gpioNum: int): (bits: bv32)
    ensures bits == BtnRedEvent <==> gpioNum == GpioBtnRed
    ensures bits == BtnBlueEvent <==> gpioNum == GpioBtnBlue
    ensures bits == 0 <==> gpioNum != GpioBtnRed && gpioNum != GpioBtnBlue
  {
    if gpioNum == GpioBtnRed then BtnRedEvent
    else if gpioNum == GpioBtnBlue then BtnBlueEvent
    else 0
  }

  /** The post-debounce choice: both bits make a combined press, one bit a
      single press of that team, no bit no press at all. */
  function SelectGroup(bits: bv32): (g: Option<Group>)
    ensures g == Some(BothButtons) <==> bits & BtnRedEvent != 0 && bits & BtnBlueEvent != 0
    ensures g == Some(RedButton) <==> bits & BtnRedEvent != 0 && bits & BtnBlueEvent == 0
    ensures g == Some(BlueButton) <==> bits & BtnRedEvent == 0 && bits & BtnBlueEvent != 0
    ensures g == None <==> bits & (BtnRedEvent | BtnBlueEvent) == 0
  {
    var redPressed := bits & BtnRedEvent != 0;
    var bluePressed := bits & BtnBlueEvent != 0;
    if redPressed && bluePressed then Some(BothButtons)
    else if redPressed then Some(RedButton)
    else if bluePressed then Some(BlueButton)
    else None
  }

  /** The SHORT / MEDIUM / LONG if-chain: strict `<` against 2000 and
      4000 ms, so an edge value belongs to the upper bucket. */
  function Classify(ms: int): (b: Bucket)
    ensures b == Short <==> ms < PressShortMaxMs
    ensures b == Medium <==> PressShortMaxMs <= ms < PressMediumMaxMs
    ensures b == Long <==> PressMediumMaxMs <= ms
  {
    if ms < PressShortMaxMs then Short
    else if ms < PressMediumMaxMs then Medium
    else Long
  }

  /** The event a classified press sends. */
  function PressEvent(g: Group, b: Bucket): (e: AppEvent)
    ensures e != TmrInitSetup
    ensures PressKind(e) == Some((g, b))
  {
    match (g, b)
    case (BothButtons, Short) => BtnBothShort
    case (BothButtons, Medium) => BtnBothMedium
    case (BothButtons, Long) => BtnBothLong
    case (RedButton, Short) => BtnRedShort
    case (RedButton, Medium) => BtnRedMedium
    case (RedButton, Long) => BtnRedLong
    case (BlueButton, Short) => BtnBlueShort
    case (BlueButton, Medium) => BtnBlueMedium
    case (BlueButton, Long) => BtnBlueLong
  }

  /** The (group, bucket) pair a press event stands for; the timer event is
      not a press. */
  function PressKind(e: AppEvent): Option<(Group, Bucket)> {
    match e
    case TmrInitSetup => None
    case BtnRedShort => Some((RedButton, Short))
    case BtnRedMedium => Some((RedButton, Medium))
    case BtnRedLong => Some((RedButton, Long))
    case BtnBlueShort => Some((BlueButton, Short))
    case BtnBlueMedium => Some((BlueButton, Medium))
    case BtnBlueLong => Some((BlueButton, Long))
    case BtnBothShort => Some((BothButtons, Short))
    case BtnBothMedium => Some((BothButtons, Medium))
    case BtnBothLong => Some((BothButtons, Long))
  }

  /** Every press event is sent for exactly one (group, bucket) pair. */
  lemma PressEventOnto(e: AppEvent)
    requires e != TmrInitSetup
    ensures PressKind(e).Some? && PressEvent(PressKind(e).value.0, PressKind(e).value.1) == e
  {
  }

  /** The polling loop's condition: the BOTH loop goes on only while both
      lines are held, a single loop while its own line is. */
  predicate StillHeld(g: Group, l: LineLevels): (held: bool)
    ensures g == BothButtons ==> (held <==> l.red == 0 && l.blue == 0)
    ensures g == RedButton ==> (held <==> l.red == 0)
    ensures g == BlueButton ==> (held <==> l.blue == 0)
    ensures l.red == 0 && l.blue == 0 ==> held
  {
    match g
    case BothButtons => l.red == 0 && l.blue == 0
    case RedButton => l.red == 0
    case BlueButton => l.blue == 0
  }

  /** The number of iterations the do-while loop makes: at least one, at
      most MaxPolls, held at every poll but the last, and released at the
      last unless the cap stopped it. */
  function PollCount(g: Group, levels: nat -> LineLevels): (n: nat)
    ensures 1 <= n <= MaxPolls
    ensures forall j: nat :: j < n - 1 ==> StillHeld(g, levels(j))
    ensures n < MaxPolls ==> !StillHeld(g, levels(n - 1))
  {
    PollsFrom(g, levels, 1)
  }

  /** The polls still to come once `k` are done: the loop stops at the
      first poll from the k-th on that finds the line(s) released, or at
      the cap. */
  function PollsFrom(g: Group, levels: nat -> LineLevels, k: nat): (n: nat)
    requires 1 <= k <= MaxPolls
    ensures k <= n <= MaxPolls
    ensures forall j: nat :: k - 1 <= j < n - 1 ==> StillHeld(g, levels(j))
    ensures n < MaxPolls ==> !StillHeld(g, levels(n - 1))
    decreases MaxPolls - k
  {
    if StillHeld(g, levels(k - 1)) && k < MaxPolls then PollsFrom(g, levels, k + 1) else k
  }

  /** The do-while polling loop of button_task. */
  method PollPress(g: Group, levels: nat -> LineLevels) returns (polls: nat)
    ensures polls == PollCount(g, levels)
  {
    polls := 1;
    while StillHeld(g, levels(polls - 1)) && polls < MaxPolls
      invariant 1 <= polls <= MaxPolls
      invariant PollsFrom(g, levels, polls) == PollCount(g, levels)
      decreases MaxPolls - polls
    {
      polls := polls + 1;
    }
  }

  /** Held time in ms after `polls` polls of 10 ms each. */
  function PressDurationMs(polls: nat): nat {
    polls * PressInterTimeMs
  }

  /** In polls: fewer than 200 is SHORT, 200 to 399 MEDIUM, 400 or more
      LONG; a press held until the cap is therefore LONG. */
  lemma BucketOfPolls(polls: nat)
    ensures Classify(PressDurationMs(polls)) == Short <==> polls < 200
    ensures Classify(PressDurationMs(polls)) == Medium <==> 200 <= polls < 400
    ensures Classify(PressDurationMs(polls)) == Long <==> 400 <= polls
    ensures polls == MaxPolls ==> Classify(PressDurationMs(polls)) == Long
  {
  }

  /** The event one pass of the task produces from its snapshot: none when
      no bit is set, otherwise exactly one, of the snapshot's group and of
      the bucket of the measured time. */
  function EpisodeEvent(snapshot: bv32, levels: nat -> LineLevels): (e: Option<AppEvent>)
    ensures e == None <==> SelectGroup(snapshot) == None
    ensures e.Some? ==> e.value != TmrInitSetup
    ensures e.Some? ==>
      PressKind(e.value) == Some((SelectGroup(snapshot).value, Classify(PressDurationMs(PollCount(SelectGroup(snapshot).value, levels)))))
  {
    match SelectGroup(snapshot)
    case None => None
    case Some(g) => Some(PressEvent(g, Classify(PressDurationMs(PollCount(g, levels)))))
  }

  /** A bit raised while the line is already released still makes a press:
      the snapshot decides the group, and one poll of 10 ms is SHORT. */
  lemma EdgeAfterReleaseIsShortPress(levels: nat -> LineLevels)
    requires levels(0).red != 0
    ensures EpisodeEvent(BtnRedEvent, levels) == Some(BtnRedShort)
  {
    assert PollCount(RedButton, levels) == 1;
  }

  /** button_event_group */
  class ButtonEventGroup {
    var bits: bv32

    /** xEventGroupCreate: no bit set. */
    constructor ()
      ensures bits == 0
    {
      bits := 0;
    }

    /** gpio_button_isr_handler(gpioNum): raise that line's bit, nothing
        for any other pin. */
    method IsrHandler(gpioNum: int)
      modifies this
      ensures bits == old(bits) | IsrBits(gpioNum)
    {
      if gpioNum == GpioBtnRed {
        bits := bits | BtnRedEvent;
      } else if gpioNum == GpioBtnBlue {
        bits := bits | BtnBlueEvent;
      }
    }

    /** Bits raised by interrupts while the task is polling. */
    method RaiseFromIsr(edges: bv32)
      modifies this
      ensures bits == old(bits) | edges
    {
      bits := bits | edges;
    }

    /** xEventGroupClearBits */
    method ClearBits(mask: bv32)
      modifies this
      ensures bits == old(bits) & !mask
    {
      bits := bits & !mask;
    }
  }

  /** One pass of button_task's loop, from the post-debounce snapshot to the
      clearing of exactly the snapshot's bits. `edgesDuringPoll` are the
      bits interrupts raise while the task polls; they survive the clear
      unless the snapshot already held them. */
  method ButtonTaskPass(flags: ButtonEventGroup, levels: nat -> LineLevels, edgesDuringPoll: bv32,
                        queue: Dispatcher.EventQueue)
    returns (produced: Option<AppEvent>, queued: bool)
    requires queue.Valid()
    modifies flags, queue
    ensures queue.Valid()
    ensures produced == EpisodeEvent(old(flags.bits), levels)
    ensures queued <==> produced.Some? && |old(queue.items)| < Dispatcher.AppQueueLength
    ensures queue.items == if queued then old(queue.items) + [produced.value] else old(queue.items)
    ensures flags.bits == (old(flags.bits) | edgesDuringPoll) & !old(flags.bits)
  {
    var snapshot := flags.bits;
    produced, queued := None, false;
    var redPressed := snapshot & BtnRedEvent != 0;
    var bluePressed := snapshot & BtnBlueEvent != 0;
    var group: Option<Group> := None;
    if redPressed && bluePressed {
      group := Some(BothButtons);
    } else if redPressed {
      group := Some(RedButton);
    } else if bluePressed {
      group := Some(BlueButton);
    }
    if group.Some? {
      var polls := PollPress(group.value, levels);
      var e := PressEvent(group.value, Classify(PressDurationMs(polls)));
      produced := Some(e);
      queued := queue.Send(e);
    }
    flags.RaiseFromIsr(edgesDuringPoll);
    flags.ClearBits(snapshot);
  }
}
