/** Control points, setting kinds and their human-readable names
    (components/settings_types). The C enums are plain `int`s, and the code
    does arithmetic and range checks on them, so the model keeps them as
    `int` constants rather than as a datatype. */
module SettingsTypes {

  /** ControlPoint_t */
  type ControlPoint = int

  const CpNone: ControlPoint := -1
  const CpAlpha: ControlPoint := 0
  const CpBravo: ControlPoint := 1
  const CpCharlie: ControlPoint := 2
  const CpDelta: ControlPoint := 3
  const CpEcho: ControlPoint := 4
  const CpCount: ControlPoint := 5

  /** SettingType_t */
  type SettingType = int

  const SettingControlPoint: SettingType := 0
  const SettingBeep: SettingType := 1
  const SettingExit: SettingType := 2
  const SettingCount: SettingType := 3

  /** A control point usable in play: ALPHA through ECHO. */
  predicate IsPlayable(cp: ControlPoint) {
    CpAlpha <= cp < CpCount
  }

  /** Setting_t: the values the settings menu edits. */
  datatype Setting = Setting(controlPoint: ControlPoint, beep: bool)

  /** control_point_to_string: the five playable points get their names,
      NONE gets "None", and everything else (COUNT included) "Unknown". */
  function ControlPointToString(cp: ControlPoint): (s: string)
    ensures s == "None" <==> cp == CpNone
    ensures s == "Unknown" <==> !(CpNone <= cp < CpCount)
    ensures IsPlayable(cp) ==> |s| >= 4 && s[0] == "ABCDE"[cp]
  {
    match cp
    case 0 => "Alpha"
    case 1 => "Bravo"
    case 2 => "Charlie"
    case 3 => "Delta"
    case 4 => "Echo"
    case -1 => "None"
    case _ => "Unknown"
  }

  /** Every defined value (NONE through ECHO) has a name of its own. */
  lemma ControlPointNamesDistinct(a: ControlPoint, b: ControlPoint)
    requires CpNone <= a < CpCount && CpNone <= b < CpCount
    requires a != b
    ensures ControlPointToString(a) != ControlPointToString(b)
  {
  }

  /** generic_enable_to_string */
  function GenericEnableToString(enable: bool): (s: string)
    ensures enable <==> s == "ON"
    ensures !enable <==> s == "OFF"
  {
    if enable then "ON" else "OFF"
  }
}
