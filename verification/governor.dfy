/**
 * What the two governor tools (cpu-powersave and cpu-on-demand) share: the
 * scale and driver enumerations, the kernel's sysfs files as seen by the
 * tools, driver detection, the governor writer and the per-core walk of
 * `shc_set_scale`. Only the translation table and the entry points differ;
 * those live in the CpuPowersave and CpuOnDemand modules.
 */
module Governor {
  import opened CStrings

  datatype Option<T> = None | Some(value: T)

  const ExitSuccess: int := 0
  const ExitFailure: int := 1

  /** Size of the buffer `shc_get_driver` reads `scaling_driver` into. */
  const PathMax: nat := 4096

  /** The literal that identifies the intel_pstate driver. */
  const IntelPstateName: string := "intel_pstate"

  /** The requested frequency scale (ShcScale). */
  datatype Scale = Powersave | Performance

  /** The driver detected for one core (ShcDriver). */
  datatype Driver = Unknown | Cpufreq | IntelPstate

  /** One governor string written to one `scaling_governor` file. */
  datatype Write = Write(path: string, bytes: string)

  /**
   * The kernel side, as far as the tools can observe it.
   * `drivers` maps each `scaling_driver` path that opens for reading to what
   * `read` returns on it: `None` when the read fails. A path that is not a
   * key does not open.
   * `governors` maps each `scaling_governor` path that opens for writing to
   * the write oracle: whether writing the given bytes succeeds. A path that is
   * not a key does not open.
   */
  datatype Sysfs = Sysfs(drivers: map<string, Option<string>>, governors: map<string, string -> bool>)

  /**
   * `shc_transform_intel`, the same in both programs: the intel_pstate
   * governor for a scale.
   */
  function TransformIntel(scale: Scale): (mode: string)
    ensures scale == Performance ==> mode == "performance"
    ensures scale == Powersave ==> mode == "powersave"
  {
    match scale
    case Performance => "performance"
    case Powersave => "powersave"
  }

  function DriverPath(core: string): string { core + "/scaling_driver" }

  function GovernorPath(core: string): string { core + "/scaling_governor" }

  /** The driver file content starts with the 12 bytes `intel_pstate`. */
  predicate StartsWithIntelPstate(content: string)
  {
    |IntelPstateName| <= |content| && content[..|IntelPstateName|] == IntelPstateName
  }

  /**
   * `shc_read_node`: open `node` read-only and read at most `buflen` bytes.
   * Either step failing yields `None`.
   */
  function ReadNode(fs: Sysfs, node: string, buflen: nat): (r: Option<string>)
    ensures r.None? <==> node !in fs.drivers || fs.drivers[node].None?
    ensures r.Some? ==> |r.value| <= buflen && r.value <= fs.drivers[node].value
  {
    if node !in fs.drivers then None
    else match fs.drivers[node]
      case None => None
      case Some(content) => Some(if |content| <= buflen then content else content[..buflen])
  }

  /**
   * `shc_get_driver`: read `<core>/scaling_driver` into a zeroed buffer and
   * compare its first 12 characters with `intel_pstate` using `strncmp`.
   * A failed open or read gives Unknown; any other content, including an
   * empty one, that does not start with `intel_pstate` gives Cpufreq.
   */
  function GetDriver(fs: Sysfs, core: string): (d: Driver)
    ensures d == Unknown <==> DriverPath(core) !in fs.drivers || fs.drivers[DriverPath(core)].None?
    ensures d == IntelPstate <==>
      DriverPath(core) in fs.drivers && fs.drivers[DriverPath(core)].Some? &&
      StartsWithIntelPstate(fs.drivers[DriverPath(core)].value)
    ensures d == Cpufreq <==>
      DriverPath(core) in fs.drivers && fs.drivers[DriverPath(core)].Some? &&
      !StartsWithIntelPstate(fs.drivers[DriverPath(core)].value)
  {
    match ReadNode(fs, DriverPath(core), PathMax)
    case None => Unknown
    case Some(buf) =>
      StrnEqualIsPrefix(buf, IntelPstateName);
      assert StartsWithIntelPstate(buf) <==> StartsWithIntelPstate(fs.drivers[DriverPath(core)].value);
      if StrnEqual(buf, IntelPstateName, 12) then IntelPstate else Cpufreq
  }

  /**
   * `shc_set_governor`: open `<core>/scaling_governor` for writing and write
   * `mode` into it. True exactly when both the open and the write succeed: a
   * failed open or a failed write gives false, anything else true.
   */
  function SetGovernor(fs: Sysfs, core: string, mode: string): (ok: bool)
    ensures ok <==> GovernorPath(core) in fs.governors && fs.governors[GovernorPath(core)](mode)
  {
    GovernorPath(core) in fs.governors && fs.governors[GovernorPath(core)](mode)
  }

  /**
   * One core goes through: its driver translates to a governor string and
   * that string is written successfully.
   */
  predicate CoreAccepted(fs: Sysfs, transform: (Driver, Scale) -> Option<string>, scale: Scale, core: string)
  {
    var mode := transform(GetDriver(fs, core), scale);
    mode.Some? && SetGovernor(fs, core, mode.value)
  }

  /** The write made for an accepted core. */
  function CoreWrite(fs: Sysfs, transform: (Driver, Scale) -> Option<string>, scale: Scale, core: string): Write
    requires transform(GetDriver(fs, core), scale).Some?
  {
    Write(GovernorPath(core), transform(GetDriver(fs, core), scale).value)
  }

  /**
   * The writes the walk over `cores` makes, in order: one per core, until the
   * first core that is not accepted, where the walk stops.
   */
  function Planned(fs: Sysfs, transform: (Driver, Scale) -> Option<string>, scale: Scale, cores: seq<string>): (ws: seq<Write>)
    ensures |ws| <= |cores|
  {
    if cores == [] || !CoreAccepted(fs, transform, scale, cores[0]) then []
    else [CoreWrite(fs, transform, scale, cores[0])] + Planned(fs, transform, scale, cores[1..])
  }

  /**
   * The walk writes the cores in order, each with its own translated
   * governor string and only after that write succeeded; when it writes fewer
   * cores than it was given, the first unwritten core is one that was not
   * accepted, and no core after it is written.
   */
  lemma {:induction false} PlannedInOrder(fs: Sysfs, transform: (Driver, Scale) -> Option<string>, scale: Scale, cores: seq<string>)
    ensures forall k :: 0 <= k < |Planned(fs, transform, scale, cores)| ==>
      CoreAccepted(fs, transform, scale, cores[k]) &&
      Planned(fs, transform, scale, cores)[k] == CoreWrite(fs, transform, scale, cores[k])
    ensures |Planned(fs, transform, scale, cores)| < |cores| ==>
      !CoreAccepted(fs, transform, scale, cores[|Planned(fs, transform, scale, cores)|])
  {
    if cores != [] && CoreAccepted(fs, transform, scale, cores[0]) {
      var rest := Planned(fs, transform, scale, cores[1..]);
      PlannedInOrder(fs, transform, scale, cores[1..]);
      assert Planned(fs, transform, scale, cores) == [CoreWrite(fs, transform, scale, cores[0])] + rest;
      forall k | 1 <= k < 1 + |rest|
        ensures CoreAccepted(fs, transform, scale, cores[k])
        ensures Planned(fs, transform, scale, cores)[k] == CoreWrite(fs, transform, scale, cores[k])
      {
        assert cores[1..][k - 1] == cores[k];
      }
    }
  }

  /** The walk writes every core exactly when every core is accepted. */
  lemma {:induction false} PlannedComplete(fs: Sysfs, transform: (Driver, Scale) -> Option<string>, scale: Scale, cores: seq<string>)
    ensures |Planned(fs, transform, scale, cores)| == |cores| <==>
      forall k :: 0 <= k < |cores| ==> CoreAccepted(fs, transform, scale, cores[k])
  {
    PlannedInOrder(fs, transform, scale, cores);
  }

  /** One step of the walk: the writes from core `i` on, unfolded once. */
  lemma PlannedStep(fs: Sysfs, transform: (Driver, Scale) -> Option<string>, scale: Scale, cores: seq<string>, i: nat)
    requires i < |cores|
    ensures Planned(fs, transform, scale, cores[i..]) ==
      if CoreAccepted(fs, transform, scale, cores[i])
      then [CoreWrite(fs, transform, scale, cores[i])] + Planned(fs, transform, scale, cores[i + 1..])
      else []
  {
    assert cores[i..][0] == cores[i] && cores[i..][1..] == cores[i + 1..];
  }

  /**
   * One iteration of the loop of `shc_set_scale`: detect the core's driver,
   * translate the scale and, when the translation is not NULL, write the
   * governor string. The result is the write made, or `None` when the loop
   * must stop at this core.
   */
  method VisitCore(fs: Sysfs, transform: (Driver, Scale) -> Option<string>, scale: Scale, cpu: string)
    returns (written: Option<Write>)
    ensures written.None? <==> !CoreAccepted(fs, transform, scale, cpu)
    ensures written.Some? ==> written.value == CoreWrite(fs, transform, scale, cpu)
  {
    var driver := GetDriver(fs, cpu);
    var targetMode := transform(driver, scale);
    if targetMode.None? {
      return None;
    }
    if !SetGovernor(fs, cpu, targetMode.value) {
      return None;
    }
    written := Some(Write(GovernorPath(cpu), targetMode.value));
  }

  /**
   * The loop of `shc_set_scale` over the glob result `cores`: visit the cores
   * in order and leave the loop at the first core whose translation is NULL
   * or whose write fails. The writes made are exactly those of `Planned`:
   * the k-th goes to the k-th core, with its translated governor string, and
   * an early stop happens only at a core that was not accepted.
   */
  method WalkCores(fs: Sysfs, transform: (Driver, Scale) -> Option<string>, scale: Scale, cores: seq<string>)
    returns (writes: seq<Write>)
    ensures writes == Planned(fs, transform, scale, cores)
    ensures forall k :: 0 <= k < |writes| ==>
      CoreAccepted(fs, transform, scale, cores[k]) && writes[k] == CoreWrite(fs, transform, scale, cores[k])
    ensures |writes| < |cores| ==> !CoreAccepted(fs, transform, scale, cores[|writes|])
  {
    writes := [];
    var i := 0;
    while i < |cores|
      invariant 0 <= i <= |cores|
      // the cores before i were written, in order, with their planned
      // governor strings, and nothing else was written
      invariant Planned(fs, transform, scale, cores) == writes + Planned(fs, transform, scale, cores[i..])
    {
      var written := VisitCore(fs, transform, scale, cores[i]);
      PlannedStep(fs, transform, scale, cores, i);
      if written.None? {
        assert Planned(fs, transform, scale, cores[i..]) == [];
        break;
      }
      ghost var rest := Planned(fs, transform, scale, cores[i + 1..]);
      assert writes + ([written.value] + rest) == (writes + [written.value]) + rest;
      writes := writes + [written.value];
      i := i + 1;
    }
    assert i == |cores| ==> cores[i..] == [];
    PlannedInOrder(fs, transform, scale, cores);
  }
}
