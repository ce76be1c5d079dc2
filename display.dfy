/** The two TM1637 seven-segment panels of components/display/display.c:
    argument checks, the MM:SS digit split and the segment writes. The
    driver itself is not modelled; each driver call becomes a command
    appended to a log, and `numerical_symbols` (the driver's digit table) is
    a 10-entry table given when the bank is created. */
module Display {
  import opened Esp

  /** Display_t */
  const DisplayRed: int := 0
  const DisplayBlue: int := 1

  const BrightnessMin: int := 0
  const BrightnessMax: int := 7

  /** 99:59, the largest time four digits show. */
  const MaxSeconds: int := 5999

  /** The colon segment bit, OR-ed into the second digit. */
  const ColonBit: bv8 := 0x80

  /** A driver call. */
  datatype Tm1637Cmd =
    | SetSegmentFixed(display: int, position: int, segment: bv8)
    | SetBrightness(display: int, level: int)

  /** The statics `display_red` / `display_blue` (initialised or NULL) and
      the driver calls made so far. */
  datatype Panels = Panels(redReady: bool, blueReady: bool, commands: seq<Tm1637Cmd>)

  /** The four digits of MM:SS. */
  datatype Digits = Digits(m1: int, m2: int, s1: int, s2: int)

  predicate DigitsOk(d: Digits) {
    0 <= d.m1 <= 9 && 0 <= d.m2 <= 9 && 0 <= d.s1 <= 5 && 0 <= d.s2 <= 9
  }

  /** The seconds a set of digits stands for. */
  function JoinTime(d: Digits): int {
    600 * d.m1 + 60 * d.m2 + 10 * d.s1 + d.s2
  }

  /** The digit split of display_set_time: every digit 0..9, the tens of
      seconds at most 5, and the digits stand for the seconds given. */
  function SplitTime(seconds: int): (d: Digits)
    requires 0 <= seconds <= MaxSeconds
    ensures DigitsOk(d) && JoinTime(d) == seconds
  {
    var minutes := seconds / 60;
    var secs := seconds % 60;
    Digits(minutes / 10, minutes % 10, secs / 10, secs % 10)
  }

  /** The split is the only MM:SS reading of a time: splitting the time a
      set of digits stands for gives those digits back. */
  lemma SplitJoin(d: Digits)
    requires DigitsOk(d)
    ensures 0 <= JoinTime(d) <= MaxSeconds && SplitTime(JoinTime(d)) == d
  {
    var t := JoinTime(d);
    var minutes := 10 * d.m1 + d.m2;
    var secs := 10 * d.s1 + d.s2;
    assert t == 60 * minutes + secs && 0 <= secs < 60;
    assert t / 60 == minutes && t % 60 == secs;
    assert minutes / 10 == d.m1 && minutes % 10 == d.m2;
    assert secs / 10 == d.s1 && secs % 10 == d.s2;
  }

  /** The four segments written for `seconds`: the symbols of the digits in
      order, with the colon bit in the second one only when asked for. */
  function Segments(symbols: seq<bv8>, seconds: int, colon: bool): (segs: seq<bv8>)
    requires |symbols| == 10 && 0 <= seconds <= MaxSeconds
    ensures |segs| == 4
    ensures segs[0] == symbols[SplitTime(seconds).m1]
    ensures segs[1] == if colon then symbols[SplitTime(seconds).m2] | ColonBit else symbols[SplitTime(seconds).m2]
    ensures segs[2] == symbols[SplitTime(seconds).s1]
    ensures segs[3] == symbols[SplitTime(seconds).s2]
  {
    var d := SplitTime(seconds);
    var seg2 := symbols[d.m2];
    [symbols[d.m1], if colon then seg2 | ColonBit else seg2, symbols[d.s1], symbols[d.s2]]
  }

  /** The writes of `segs` to positions 0, 1, 2, 3, in that order. */
  function SegmentWrites(display: int, segs: seq<bv8>): (w: seq<Tm1637Cmd>)
    requires |segs| == 4
    ensures |w| == 4
    ensures forall i :: 0 <= i < 4 ==> w[i] == SetSegmentFixed(display, i, segs[i])
  {
    [SetSegmentFixed(display, 0, segs[0]), SetSegmentFixed(display, 1, segs[1]),
     SetSegmentFixed(display, 2, segs[2]), SetSegmentFixed(display, 3, segs[3])]
  }

  /** The display switch: an unknown display is an invalid argument, a known
      but uninitialised one a failure. */
  function Selection(p: Panels, display: int): (err: Err)
    ensures err == InvalidArg <==> display != DisplayRed && display != DisplayBlue
    ensures err == Fail <==> (display == DisplayRed && !p.redReady) || (display == DisplayBlue && !p.blueReady)
    ensures err == Ok || err == InvalidArg || err == Fail
  {
    if display == DisplayRed then (if p.redReady then Ok else Fail)
    else if display == DisplayBlue then (if p.blueReady then Ok else Fail)
    else InvalidArg
  }

  /** display_set_time: the seconds are checked first, then the display;
      only a call that passes both writes, and it writes the four segments. */
  function SetTime(p: Panels, symbols: seq<bv8>, display: int, seconds: int, colon: bool): (r: (Err, Panels))
    requires |symbols| == 10
    ensures !(0 <= seconds <= MaxSeconds) ==> r == (InvalidArg, p)
    ensures 0 <= seconds <= MaxSeconds ==> r.0 == Selection(p, display)
    ensures r.0 != Ok ==> r.1 == p
    ensures r.0 == Ok ==> r.1 == p.(commands := p.commands + SegmentWrites(display, Segments(symbols, seconds, colon)))
  {
    if seconds < 0 || seconds > MaxSeconds then (InvalidArg, p)
    else
      var err := Selection(p, display);
      if err != Ok then (err, p)
      else (Ok, p.(commands := p.commands + SegmentWrites(display, Segments(symbols, seconds, colon))))
  }

  /** display_set_brightness: the level is checked first (0..7), then the
      display; only a call that passes both reaches the driver. */
  function SetBrightnessLevel(p: Panels, display: int, brightness: int): (r: (Err, Panels))
    ensures !(BrightnessMin <= brightness <= BrightnessMax) ==> r == (InvalidArg, p)
    ensures BrightnessMin <= brightness <= BrightnessMax ==> r.0 == Selection(p, display)
    ensures r.0 != Ok ==> r.1 == p
    ensures r.0 == Ok ==> r.1 == p.(commands := p.commands + [SetBrightness(display, brightness)])
  {
    if brightness < BrightnessMin || brightness > BrightnessMax then (InvalidArg, p)
    else
      var err := Selection(p, display);
      if err != Ok then (err, p)
      else (Ok, p.(commands := p.commands + [SetBrightness(display, brightness)]))
  }

  /** The module's statics and the driver it drives. */
  class DisplayBank {
    var redReady: bool
    var blueReady: bool
    var commands: seq<Tm1637Cmd>
    const symbols: seq<bv8>

    function Value(): Panels
      reads this
    {
      Panels(redReady, blueReady, commands)
    }

    /** Both handles NULL, no driver call yet. */
    constructor (numericalSymbols: seq<bv8>)
      requires |numericalSymbols| == 10
      ensures Value() == Panels(false, false, []) && symbols == numericalSymbols
    {
      redReady, blueReady, commands := false, false, [];
      symbols := numericalSymbols;
    }

    /** display_init, where `redOk` and `blueOk` say whether tm1637_init
        returned a handle: the blue panel is not tried once the red one
        failed. */
    method InitDisplays(redOk: bool, blueOk: bool) returns (err: Err)
      modifies this
      ensures redReady == redOk && commands == old(commands)
      ensures blueReady == if redOk then blueOk else old(blueReady)
      ensures err == if redOk && blueOk then Ok else Fail
    {
      redReady := redOk;
      if !redReady {
        return Fail;
      }
      blueReady := blueOk;
      if !blueReady {
        return Fail;
      }
      return Ok;
    }

    /** display_set_time */
    method SetTimeOn(display: int, seconds: int, colon: bool) returns (err: Err)
      requires |symbols| == 10
      modifies this
      ensures (err, Value()) == SetTime(old(Value()), symbols, display, seconds, colon)
    {
      if seconds < 0 || seconds > 5999 {
        return InvalidArg;
      }
      if display == DisplayRed {
        if !redReady {
          return Fail;
        }
      } else if display == DisplayBlue {
        if !blueReady {
          return Fail;
        }
      } else {
        return InvalidArg;
      }
      var d := SplitTime(seconds);
      var seg1, seg2, seg3, seg4 := symbols[d.m1], symbols[d.m2], symbols[d.s1], symbols[d.s2];
      if colon {
        seg2 := seg2 | ColonBit;
      }
      commands := commands + [SetSegmentFixed(display, 0, seg1)];
      commands := commands + [SetSegmentFixed(display, 1, seg2)];
      commands := commands + [SetSegmentFixed(display, 2, seg3)];
      commands := commands + [SetSegmentFixed(display, 3, seg4)];
      assert commands == old(commands) + SegmentWrites(display, [seg1, seg2, seg3, seg4]);
      err := Ok;
    }

    /** display_set_brightness */
    method SetBrightnessOn(display: int, brightness: int) returns (err: Err)
      modifies this
      ensures (err, Value()) == SetBrightnessLevel(old(Value()), display, brightness)
    {
      if brightness < BrightnessMin || brightness > BrightnessMax {
        return InvalidArg;
      }
      if display == DisplayRed {
        if !redReady {
          return Fail;
        }
      } else if display == DisplayBlue {
        if !blueReady {
          return Fail;
        }
      } else {
        return InvalidArg;
      }
      commands := commands + [SetBrightness(display, brightness)];
      err := Ok;
    }
  }
}
