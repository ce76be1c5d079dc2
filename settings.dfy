/** The settings menu of components/settings/settings.c: a cursor over
    CONTROL_POINT, BEEP and EXIT, in-place edits of the control point and the
    beep flag, and their load and save through persistence. The display
    updates the C code makes along the way are left out.

    The beep flag's persistence (`storage_get_beep`, `storage_set_beep`) has
    no declaration or definition in the firmware, so the model takes its
    answers as parameters: `beepRead` is what the read reports (and, on
    success, the flag it delivers), `beepWriteErr` what the write reports.
    Load and save also report the persistence calls they make, in order. */
module Settings {
  import CInt
  import opened Esp
  import opened Optional
  import opened SettingsTypes
  import Storage

  /** The statics `current_setting_type` and `setting`. */
  datatype Menu = Menu(cursor: SettingType, setting: Setting)

  /** The menu in a state the firmware can reach: cursor on a setting kind,
      control point playable. */
  predicate MenuOk(m: Menu) {
    0 <= m.cursor < SettingCount && IsPlayable(m.setting.controlPoint)
  }

  /** A persistence call made by load or save. */
  datatype StorageCall = ReadControlPoint | ReadBeep | WriteControlPoint(cp: ControlPoint) | WriteBeep(beep: bool)

  /** What an abstract persistence read reports, and the value it delivers
      when it succeeds. */
  datatype Answer<T> = Answer(err: Err, value: T)

  datatype LoadResult = LoadResult(err: Err, setting: Setting, calls: seq<StorageCall>)

  datatype SaveResult = SaveResult(err: Err, nvs: Storage.Nvs, calls: seq<StorageCall>)

  /** settings_next: the cursor moves to the next kind, wrapping past EXIT
      back to CONTROL_POINT; the values are not touched. */
  function Next(m: Menu): (r: Menu)
    ensures r.setting == m.setting
    ensures 0 <= m.cursor ==> 0 <= r.cursor < SettingCount
    ensures 0 <= m.cursor < SettingCount ==> r.cursor == if m.cursor == SettingExit then SettingControlPoint else m.cursor + 1
    ensures MenuOk(m) ==> MenuOk(r)
  {
    m.(cursor := CInt.Rem(m.cursor + 1, SettingCount))
  }

  /** The control point after one edit: the next point, wrapping from ECHO
      to ALPHA; NONE becomes ALPHA. */
  function NextControlPoint(cp: ControlPoint): (r: ControlPoint)
    ensures CpNone <= cp ==> IsPlayable(r)
    ensures cp == CpNone ==> r == CpAlpha
    ensures IsPlayable(cp) ==> r == if cp == CpEcho then CpAlpha else cp + 1
  {
    CInt.Rem(cp + 1, CpCount)
  }

  /** settings_modify_current: on CONTROL_POINT the point advances, on BEEP
      the flag flips, on EXIT (or anything else) nothing changes; the cursor
      never moves. */
  function ModifyCurrent(m: Menu): (r: Menu)
    ensures r.cursor == m.cursor
    ensures m.cursor == SettingControlPoint ==>
      r.setting == m.setting.(controlPoint := NextControlPoint(m.setting.controlPoint))
    ensures m.cursor == SettingBeep ==> r.setting == m.setting.(beep := !m.setting.beep)
    ensures m.cursor != SettingControlPoint && m.cursor != SettingBeep ==> r == m
    ensures MenuOk(m) ==> MenuOk(r)
  {
    if m.cursor == SettingControlPoint then
      m.(setting := m.setting.(controlPoint := NextControlPoint(m.setting.controlPoint)))
    else if m.cursor == SettingBeep then
      m.(setting := m.setting.(beep := !m.setting.beep))
    else
      m
  }

  /** SETTING_COUNT calls of settings_next bring the cursor back. */
  lemma NextCycles(m: Menu)
    requires 0 <= m.cursor < SettingCount
    ensures Next(Next(Next(m))) == m
  {
  }

  /** CONTROL_POINT_COUNT edits bring a playable control point back. */
  lemma ControlPointCycles(m: Menu)
    requires m.cursor == SettingControlPoint && IsPlayable(m.setting.controlPoint)
    ensures ModifyCurrent(ModifyCurrent(ModifyCurrent(ModifyCurrent(ModifyCurrent(m))))) == m
  {
  }

  /** Two edits of BEEP bring the flag back. */
  lemma BeepToggleInvolution(m: Menu)
    requires m.cursor == SettingBeep
    ensures ModifyCurrent(ModifyCurrent(m)) == m
  {
  }

  /** settings_load: read the control point, then the beep flag, stopping at
      the first error and returning it; a failed read leaves its value as it
      was. */
  function Load(setting: Setting, nvs: Storage.Nvs, openErr: Err, beepRead: Answer<bool>): (r: LoadResult)
    ensures 1 <= |r.calls| <= 2 && r.calls == [ReadControlPoint, ReadBeep][..|r.calls|]
    ensures r.err == Ok <==> |r.calls| == 2 && beepRead.err == Ok
    ensures |r.calls| == 1 <==> r.err == Storage.GetControlPoint(nvs, openErr, Some(setting.controlPoint)).err != Ok
    ensures |r.calls| == 1 ==> r.setting == setting
    ensures |r.calls| == 2 ==> r.err == beepRead.err
    ensures |r.calls| == 2 ==>
      Storage.KeyControlPoint in nvs.entries && r.setting.controlPoint == nvs.entries[Storage.KeyControlPoint] as int
    ensures r.setting.beep == if r.err == Ok then beepRead.value else setting.beep
    ensures IsPlayable(setting.controlPoint) ==> IsPlayable(r.setting.controlPoint)
  {
    var got := Storage.GetControlPoint(nvs, openErr, Some(setting.controlPoint));
    if got.err != Ok then
      LoadResult(got.err, setting, [ReadControlPoint])
    else
      var withPoint := setting.(controlPoint := got.out.value);
      if beepRead.err != Ok then
        LoadResult(beepRead.err, withPoint, [ReadControlPoint, ReadBeep])
      else
        LoadResult(Ok, withPoint.(beep := beepRead.value), [ReadControlPoint, ReadBeep])
  }

  /** settings_save: write the control point, then the beep flag; a failed
      first write skips the second and its error is returned. */
  function Save(setting: Setting, nvs: Storage.Nvs, faults: Storage.FlashFaults, beepWriteErr: Err): (r: SaveResult)
    ensures |r.calls| >= 1 && r.calls[0] == WriteControlPoint(setting.controlPoint)
    ensures r.nvs == Storage.SetControlPoint(nvs, setting.controlPoint, faults).nvs
    ensures |r.calls| == 1 <==> Storage.SetControlPoint(nvs, setting.controlPoint, faults).err != Ok
    ensures |r.calls| == 1 ==> r.err == Storage.SetControlPoint(nvs, setting.controlPoint, faults).err
    ensures |r.calls| == 2 ==> r.calls[1] == WriteBeep(setting.beep) && r.err == beepWriteErr
    ensures |r.calls| <= 2
  {
    var written := Storage.SetControlPoint(nvs, setting.controlPoint, faults);
    if written.err != Ok then
      SaveResult(written.err, written.nvs, [WriteControlPoint(setting.controlPoint)])
    else
      SaveResult(beepWriteErr, written.nvs, [WriteControlPoint(setting.controlPoint), WriteBeep(setting.beep)])
  }

  /** Saving a playable setting and loading it back restores it. */
  lemma SaveThenLoad(setting: Setting, nvs: Storage.Nvs, faults: Storage.FlashFaults, prior: Setting)
    requires IsPlayable(setting.controlPoint)
    requires Save(setting, nvs, faults, Ok).err == Ok
    ensures Load(prior, Save(setting, nvs, faults, Ok).nvs, Ok, Answer(Ok, setting.beep)) ==
      LoadResult(Ok, setting, [ReadControlPoint, ReadBeep])
  {
    Storage.SetThenGet(nvs, setting.controlPoint, faults, prior.controlPoint);
  }

  /** settings_init: the cursor goes to CONTROL_POINT whatever the load
      reports. */
  function Init(m: Menu, nvs: Storage.Nvs, openErr: Err, beepRead: Answer<bool>): (r: Menu)
    ensures r.cursor == SettingControlPoint
    ensures r.setting == Load(m.setting, nvs, openErr, beepRead).setting
    ensures IsPlayable(m.setting.controlPoint) ==> MenuOk(r)
  {
    Menu(SettingControlPoint, Load(m.setting, nvs, openErr, beepRead).setting)
  }

  /** setting_type_to_string: a distinct name per kind and COUNT, "UNKNOWN"
      for anything else. */
  function SettingTypeToString(t: SettingType): (s: string)
    ensures s == "UNKNOWN" <==> !(SettingControlPoint <= t <= SettingCount)
    ensures SettingControlPoint <= t <= SettingCount ==> |s| > 8 && s[..8] == "SETTING_"
  {
    match t
    case 0 => "SETTING_CONTROL_POINT"
    case 1 => "SETTING_BEEP"
    case 2 => "SETTING_EXIT"
    case 3 => "SETTING_COUNT"
    case _ => "UNKNOWN"
  }

  /** setting_type_to_short_string: a distinct label per kind and COUNT,
      "UNK" for anything else. */
  function SettingTypeToShortString(t: SettingType): (s: string)
    ensures s == "UNK" <==> !(SettingControlPoint <= t <= SettingCount)
    ensures 2 <= |s| <= 4
  {
    match t
    case 0 => "CP"
    case 1 => "BEEP"
    case 2 => "EXIT"
    case 3 => "CNT"
    case _ => "UNK"
  }

  /** control_point_to_short_string: a distinct label per value from NONE to
      COUNT, "UNK" for anything else. */
  function ControlPointToShortString(cp: ControlPoint): (s: string)
    ensures s == "UNK" <==> !(CpNone <= cp <= CpCount)
    ensures IsPlayable(cp) ==> |s| == 1 && s[0] == "ABCDE"[cp]
  {
    match cp
    case -1 => "NONE"
    case 0 => "A"
    case 1 => "B"
    case 2 => "C"
    case 3 => "D"
    case 4 => "E"
    case 5 => "CNT"
    case _ => "UNK"
  }

  /** The three tables give distinct strings to distinct defined values. */
  lemma ShortNamesDistinct(a: int, b: int)
    requires a != b
    ensures SettingControlPoint <= a <= SettingCount && SettingControlPoint <= b <= SettingCount ==>
      SettingTypeToString(a) != SettingTypeToString(b) && SettingTypeToShortString(a) != SettingTypeToShortString(b)
    ensures CpNone <= a <= CpCount && CpNone <= b <= CpCount ==>
      ControlPointToShortString(a) != ControlPointToShortString(b)
  {
  }

  /** The module's statics, updated in place. */
  class SettingsMenu {
    var currentSettingType: SettingType
    var setting: Setting

    function Value(): Menu
      reads this
    {
      Menu(currentSettingType, setting)
    }

    /** Zero-initialised statics: cursor on CONTROL_POINT, ALPHA, beep off. */
    constructor ()
      ensures Value() == Menu(SettingControlPoint, Setting(CpAlpha, false)) && MenuOk(Value())
    {
      currentSettingType := SettingControlPoint;
      setting := Setting(CpAlpha, false);
    }

    /** settings_next */
    method NextSetting()
      modifies this
      ensures Value() == Next(old(Value()))
    {
      currentSettingType := CInt.Rem(currentSettingType + 1, SettingCount);
    }

    /** settings_modify_current */
    method ModifyCurrentSetting()
      modifies this
      ensures Value() == ModifyCurrent(old(Value()))
    {
      if currentSettingType == SettingControlPoint {
        setting := setting.(controlPoint := CInt.Rem(setting.controlPoint + 1, CpCount));
      } else if currentSettingType == SettingBeep {
        setting := setting.(beep := !setting.beep);
      }
    }

    /** settings_load */
    method LoadSettings(store: Storage.NvsStore, openErr: Err, beepRead: Answer<bool>)
      returns (err: Err, calls: seq<StorageCall>)
      modifies this
      ensures currentSettingType == old(currentSettingType)
      ensures LoadResult(err, setting, calls) == Load(old(setting), store.Value(), openErr, beepRead)
    {
      var out;
      calls := [ReadControlPoint];
      err, out := store.GetControlPointFrom(openErr, Some(setting.controlPoint));
      setting := setting.(controlPoint := out.value);
      if err != Ok {
        return;
      }
      calls := calls + [ReadBeep];
      err := beepRead.err;
      if err != Ok {
        return;
      }
      setting := setting.(beep := beepRead.value);
    }

    /** settings_save */
    method SaveSettings(store: Storage.NvsStore, faults: Storage.FlashFaults, beepWriteErr: Err)
      returns (err: Err, calls: seq<StorageCall>)
      modifies store
      ensures SaveResult(err, store.Value(), calls) == Save(setting, old(store.Value()), faults, beepWriteErr)
    {
      calls := [WriteControlPoint(setting.controlPoint)];
      err := store.SetControlPointIn(setting.controlPoint, faults);
      if err != Ok {
        return;
      }
      calls := calls + [WriteBeep(setting.beep)];
      err := beepWriteErr;
    }

    /** settings_init */
    method InitSettings(store: Storage.NvsStore, openErr: Err, beepRead: Answer<bool>)
      modifies this
      ensures Value() == Init(old(Value()), store.Value(), openErr, beepRead)
    {
      currentSettingType := SettingControlPoint;
      var _, _ := LoadSettings(store, openErr, beepRead);
    }

    /** settings_get_current */
    method GetCurrent() returns (t: SettingType)
      ensures t == Value().cursor
    {
      t := currentSettingType;
    }
  }
}
