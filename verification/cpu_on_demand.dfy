/**
 * cpu-on-demand: the service variant. It ignores its arguments, always asks
 * for the power-saving scale and has no root check. Its cpufreq table maps
 * the performance scale to the string `powerformance`, which is kept here
 * as the code has it.
 */
module CpuOnDemand {
  import opened Governor

  /** `shc_transform_cpufreq`: this program's cpufreq governor for a scale. */
  function TransformCpufreq(scale: Scale): (mode: string)
    ensures scale == Performance ==> mode == "powerformance"
    ensures scale == Powersave ==> mode == "ondemand"
  {
    match scale
    case Performance => "powerformance"
    case Powersave => "ondemand"
  }

  /**
   * `shc_transform`: the governor string for a driver and a scale; NULL
   * (`None`) for an unknown driver, whatever the scale.
   */
  function Transform(driver: Driver, scale: Scale): (mode: Option<string>)
    ensures mode.None? <==> driver == Unknown
    ensures driver == IntelPstate ==> mode == Some(if scale == Performance then "performance" else "powersave")
    ensures driver == Cpufreq ==> mode == Some(if scale == Performance then "powerformance" else "ondemand")
  {
    match driver
    case IntelPstate => Some(TransformIntel(scale))
    case Cpufreq => Some(TransformCpufreq(scale))
    case Unknown => None
  }

  /**
   * What `shc_set_scale` does, given the glob result (`None` when `glob`
   * fails, which includes matching nothing) and the kernel files: when
   * globbing fails, fail; otherwise walk the cores and report success, even
   * when the walk stopped early. There is no privilege check.
   */
  predicate ScaleApplied(scale: Scale, glob: Option<seq<string>>, fs: Sysfs, status: int, writes: seq<Write>)
  {
    if glob.None? then status == ExitFailure && writes == []
    else status == ExitSuccess && writes == Planned(fs, Transform, scale, glob.value)
  }

  /** `shc_set_scale`: the glob, then the per-core walk. */
  method SetScale(scale: Scale, glob: Option<seq<string>>, fs: Sysfs)
    returns (status: int, writes: seq<Write>)
    ensures ScaleApplied(scale, glob, fs, status, writes)
  {
    if glob.None? {
      return ExitFailure, [];
    }
    writes := WalkCores(fs, Transform, scale, glob.value);
    status := ExitSuccess;
  }

  /**
   * The power-saving walk, the only one this program runs: every governor
   * file it writes belongs to a core whose driver is known, in glob order,
   * and gets `powersave` (intel_pstate) or `ondemand` (cpufreq).
   */
  lemma {:induction false} OnDemandWalkWrites(fs: Sysfs, cores: seq<string>)
    ensures forall k :: 0 <= k < |Planned(fs, Transform, Powersave, cores)| ==>
      var w := Planned(fs, Transform, Powersave, cores)[k];
      GetDriver(fs, cores[k]) != Unknown && w.path == GovernorPath(cores[k]) &&
      w.bytes == (if GetDriver(fs, cores[k]) == IntelPstate then "powersave" else "ondemand")
  {
    PlannedInOrder(fs, Transform, Powersave, cores);
  }

  /**
   * The power-saving walk stops early only at a core with an unknown driver
   * or a refused write; no core after it is written.
   */
  lemma {:induction false} OnDemandWalkStops(fs: Sysfs, cores: seq<string>)
    ensures |Planned(fs, Transform, Powersave, cores)| < |cores| ==>
      var stop := cores[|Planned(fs, Transform, Powersave, cores)|];
      GetDriver(fs, stop) == Unknown || !SetGovernor(fs, stop, Transform(GetDriver(fs, stop), Powersave).value)
  {
    PlannedInOrder(fs, Transform, Powersave, cores);
  }

  /**
   * Hence the misspelt `powerformance` entry is never written by this
   * program: every string it writes is `powersave` or `ondemand`.
   */
  lemma {:induction false} NeverWritesPowerformance(fs: Sysfs, cores: seq<string>)
    ensures forall w :: w in Planned(fs, Transform, Powersave, cores) ==>
      w.bytes == "powersave" || w.bytes == "ondemand"
  {
    OnDemandWalkWrites(fs, cores);
  }

  /**
   * `main`: ignore the arguments and set the power-saving scale; the exit
   * status is that of `shc_set_scale`.
   */
  method Run(argv: seq<string>, glob: Option<seq<string>>, fs: Sysfs)
    returns (status: int, writes: seq<Write>)
    ensures ScaleApplied(Powersave, glob, fs, status, writes)
    ensures forall w :: w in writes ==> w.bytes == "powersave" || w.bytes == "ondemand"
  {
    status, writes := SetScale(Powersave, glob, fs);
    if glob.Some? {
      NeverWritesPowerformance(fs, glob.value);
    }
  }
}
