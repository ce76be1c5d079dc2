/** Control-point persistence (components/storage/storage.c). The NVS
    namespace "config" is a map from key to byte. What the flash library
    answers to `nvs_open`, `nvs_set_u8` and `nvs_commit` is not visible in
    the source, so it is a parameter (`FlashFaults`); `nvs_get_u8` answers
    from the map. */
module Storage {
  import opened Esp
  import opened Optional
  import opened SettingsTypes

  const KeyControlPoint: string := "controlpoint"

  /** The results the flash library gives to open, set and commit. */
  datatype FlashFaults = FlashFaults(openErr: Err, setErr: Err, commitErr: Err)

  /** The NVS namespace as seen by storage.c: its entries and how many
      commits were made. */
  datatype Nvs = Nvs(entries: map<string, bv8>, commits: nat)

  /** What storage_set_control_point returns, and the namespace after it. */
  datatype SetResult = SetResult(err: Err, nvs: Nvs)

  /** What storage_get_control_point returns, and the output variable after
      it (`None` stands for a NULL output pointer). */
  datatype GetResult = GetResult(err: Err, out: Option<ControlPoint>)

  /** storage_set_control_point: a value outside ALPHA..ECHO is refused
      before the store is opened; otherwise the byte is written under
      "controlpoint", and commit happens only after a successful write. */
  function SetControlPoint(nvs: Nvs, cp: ControlPoint, faults: FlashFaults): (r: SetResult)
    ensures !IsPlayable(cp) ==> r == SetResult(InvalidArg, nvs)
    ensures IsPlayable(cp) && faults.openErr != Ok ==> r == SetResult(faults.openErr, nvs)
    ensures r.nvs.commits == nvs.commits + (if IsPlayable(cp) && faults.openErr == Ok && faults.setErr == Ok then 1 else 0)
    ensures r.err == Ok <==> IsPlayable(cp) && faults.openErr == Ok && faults.setErr == Ok && faults.commitErr == Ok
    ensures r.err == Ok ==> r.nvs.entries == nvs.entries[KeyControlPoint := cp as bv8]
    ensures r.nvs.entries != nvs.entries ==> r.nvs.entries == nvs.entries[KeyControlPoint := cp as bv8]
  {
    if cp <= CpNone || cp >= CpCount then SetResult(InvalidArg, nvs)
    else if faults.openErr != Ok then SetResult(faults.openErr, nvs)
    else if faults.setErr != Ok then SetResult(faults.setErr, nvs)
    else SetResult(faults.commitErr, Nvs(nvs.entries[KeyControlPoint := cp as bv8], nvs.commits + 1))
  }

  /** storage_get_control_point: a NULL output is refused; a stored byte
      below COUNT is written out; a missing key or a larger byte is an
      error; on every error path the output keeps its old value. */
  function GetControlPoint(nvs: Nvs, openErr: Err, out: Option<ControlPoint>): (r: GetResult)
    ensures out == None ==> r == GetResult(InvalidArg, None)
    ensures r.err != Ok ==> r.out == out
    ensures r.err == Ok <==> out.Some? && openErr == Ok && KeyControlPoint in nvs.entries && nvs.entries[KeyControlPoint] < CpCount as bv8
    ensures r.err == Ok ==> r.out == Some(nvs.entries[KeyControlPoint] as int) && IsPlayable(r.out.value)
    ensures out.Some? && openErr == Ok && KeyControlPoint !in nvs.entries ==> r.err == NvsNotFound
    ensures out.Some? && openErr == Ok && KeyControlPoint in nvs.entries && nvs.entries[KeyControlPoint] >= CpCount as bv8 ==> r.err == InvalidResponse
  {
    if out.None? then GetResult(InvalidArg, out)
    else if openErr != Ok then GetResult(openErr, out)
    else if KeyControlPoint !in nvs.entries then GetResult(NvsNotFound, out)
    else
      var val := nvs.entries[KeyControlPoint];
      if val < CpCount as bv8 then GetResult(Ok, Some(val as int))
      else GetResult(InvalidResponse, out)
  }

  /** A control point that was saved successfully is read back unchanged. */
  lemma SetThenGet(nvs: Nvs, cp: ControlPoint, faults: FlashFaults, prior: ControlPoint)
    requires SetControlPoint(nvs, cp, faults).err == Ok
    ensures GetControlPoint(SetControlPoint(nvs, cp, faults).nvs, Ok, Some(prior)) == GetResult(Ok, Some(cp))
  {
  }

  /** Whatever the store holds, a successful read yields a playable point. */
  lemma GetYieldsPlayable(nvs: Nvs, openErr: Err, prior: ControlPoint)
    requires GetControlPoint(nvs, openErr, Some(prior)).err == Ok
    ensures IsPlayable(GetControlPoint(nvs, openErr, Some(prior)).out.value)
  {
  }

  /** The NVS namespace the firmware writes through. */
  class NvsStore {
    var entries: map<string, bv8>
    var commits: nat

    function Value(): Nvs
      reads this
    {
      Nvs(entries, commits)
    }

    constructor (initial: map<string, bv8>)
      ensures Value() == Nvs(initial, 0)
    {
      entries, commits := initial, 0;
    }

    /** storage_set_control_point */
    method SetControlPointIn(cp: ControlPoint, faults: FlashFaults) returns (err: Err)
      modifies this
      ensures SetResult(err, Value()) == SetControlPoint(old(Value()), cp, faults)
    {
      if cp <= CpNone || cp >= CpCount {
        return InvalidArg;
      }
      err := faults.openErr;
      if err != Ok {
        return;
      }
      err := faults.setErr;
      if err == Ok {
        entries := entries[KeyControlPoint := cp as bv8];
        err := faults.commitErr;
        commits := commits + 1;
      }
    }

    /** storage_get_control_point, writing through `out`. */
    method GetControlPointFrom(openErr: Err, out: Option<ControlPoint>) returns (err: Err, outAfter: Option<ControlPoint>)
      ensures GetResult(err, outAfter) == GetControlPoint(Value(), openErr, out)
    {
      outAfter := out;
      if out.None? {
        return InvalidArg, outAfter;
      }
      err := openErr;
      if err != Ok {
        return;
      }
      if KeyControlPoint !in entries {
        err := NvsNotFound;
      } else {
        var val := entries[KeyControlPoint];
        if val < CpCount as bv8 {
          outAfter := Some(val as int);
        } else {
          err := InvalidResponse;
        }
      }
    }
  }
}
