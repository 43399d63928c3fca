/**
 * cpu-powersave: the command-line tool. `start` switches every core to its
 * power-saving governor, `stop` to its performance governor; both do nothing
 * unless the effective user is root. The other arguments only print text.
 */
module CpuPowersave {
  import opened Governor

  /** `shc_transform_cpufreq`: the generic cpufreq governor for a scale. */
  function TransformCpufreq(scale: Scale): (mode: string)
    ensures scale == Performance ==> mode == "performance"
    ensures scale == Powersave ==> mode == "ondemand"
  {
    match scale
    case Performance => "performance"
    case Powersave => "ondemand"
  }

  /**
   * `shc_transform`: the governor string for a driver and a scale; NULL
   * (`None`) for an unknown driver, whatever the scale.
   */
  function Transform(driver: Driver, scale: Scale): (mode: Option<string>)
    ensures mode.None? <==> driver == Unknown
    ensures driver == IntelPstate ==> mode == Some(if scale == Performance then "performance" else "powersave")
    ensures driver == Cpufreq ==> mode == Some(if scale == Performance then "performance" else "ondemand")
  {
    match driver
    case IntelPstate => Some(TransformIntel(scale))
    case Cpufreq => Some(TransformCpufreq(scale))
    case Unknown => None
  }

  /**
   * What `shc_set_scale` does, given the effective user id, the glob result
   * (`None` when `glob` fails, which includes matching nothing) and the
   * kernel files: without root, fail before globbing; when globbing fails,
   * fail; otherwise walk the cores and report success, even when the walk
   * stopped early.
   */
  predicate ScaleApplied(scale: Scale, euid: nat, glob: Option<seq<string>>, fs: Sysfs, status: int, writes: seq<Write>)
  {
    if euid != 0 then status == ExitFailure && writes == []
    else if glob.None? then status == ExitFailure && writes == []
    else status == ExitSuccess && writes == Planned(fs, Transform, scale, glob.value)
  }

  /** `shc_set_scale`: the root check, the glob, then the per-core walk. */
  method SetScale(scale: Scale, euid: nat, glob: Option<seq<string>>, fs: Sysfs)
    returns (status: int, writes: seq<Write>)
    ensures ScaleApplied(scale, euid, glob, fs, status, writes)
  {
    if euid != 0 {
      return ExitFailure, [];
    }
    if glob.None? {
      return ExitFailure, [];
    }
    writes := WalkCores(fs, Transform, scale, glob.value);
    status := ExitSuccess;
  }

  /**
   * Every governor file the walk writes belongs to a core whose driver is
   * known, in glob order, and holds that driver's governor for the scale:
   * `powersave` or `ondemand` for Powersave, `performance` for Performance.
   * If the walk stops early, the core it stopped at has an unknown driver or
   * refused the write.
   */
  lemma {:induction false} PowersaveWalkWrites(fs: Sysfs, scale: Scale, cores: seq<string>)
    ensures forall k :: 0 <= k < |Planned(fs, Transform, scale, cores)| ==>
      var w := Planned(fs, Transform, scale, cores)[k];
      GetDriver(fs, cores[k]) != Unknown && w.path == GovernorPath(cores[k]) &&
      w.bytes == (match GetDriver(fs, cores[k])
                  case IntelPstate => if scale == Performance then "performance" else "powersave"
                  case _ => if scale == Performance then "performance" else "ondemand")
    ensures |Planned(fs, Transform, scale, cores)| < |cores| ==>
      var stop := cores[|Planned(fs, Transform, scale, cores)|];
      GetDriver(fs, stop) == Unknown || !SetGovernor(fs, stop, Transform(GetDriver(fs, stop), scale).value)
  {
    PlannedInOrder(fs, Transform, scale, cores);
  }

  /** What `main` does with its arguments. */
  datatype Action =
    | Apply(scale: Scale)        // `start` / `stop`: run shc_set_scale
    | ShowUsage(status: int)     // print the usage text, exit with `status`
    | ShowVersion                // print the version banner, exit successfully
    | RejectArgument(arg: string) // report an unknown argument, exit with failure

  /** `main`'s dispatch on `argv` (`argv[0]` is the program name). */
  function Dispatch(argv: seq<string>): (a: Action)
    ensures |argv| != 2 ==> a == ShowUsage(ExitFailure)
    ensures a == Apply(Powersave) <==> |argv| == 2 && argv[1] == "start"
    ensures a == Apply(Performance) <==> |argv| == 2 && argv[1] == "stop"
    ensures a == ShowUsage(ExitSuccess) <==> |argv| == 2 && argv[1] in {"help", "-h"}
    ensures a == ShowVersion <==> |argv| == 2 && argv[1] in {"version", "-v"}
    ensures a.RejectArgument? <==>
      |argv| == 2 && argv[1] !in {"start", "stop", "help", "-h", "version", "-v"}
    ensures a.RejectArgument? ==> a.arg == argv[1]
  {
    if |argv| != 2 then ShowUsage(ExitFailure)
    else if argv[1] == "start" then Apply(Powersave)
    else if argv[1] == "stop" then Apply(Performance)
    else if argv[1] == "help" || argv[1] == "-h" then ShowUsage(ExitSuccess)
    else if argv[1] == "version" || argv[1] == "-v" then ShowVersion
    else RejectArgument(argv[1])
  }

  /**
   * `main`: dispatch, then either set the scale or exit with the action's
   * status without touching any governor file.
   */
  method Run(argv: seq<string>, euid: nat, glob: Option<seq<string>>, fs: Sysfs)
    returns (status: int, writes: seq<Write>)
    ensures Dispatch(argv).Apply? ==> ScaleApplied(Dispatch(argv).scale, euid, glob, fs, status, writes)
    ensures !Dispatch(argv).Apply? ==> writes == []
    ensures Dispatch(argv).ShowUsage? ==> status == Dispatch(argv).status
    ensures Dispatch(argv) == ShowVersion ==> status == ExitSuccess
    ensures Dispatch(argv).RejectArgument? ==> status == ExitFailure
  {
    match Dispatch(argv)
    case Apply(scale) =>
      status, writes := SetScale(scale, euid, glob, fs);
    case ShowUsage(s) =>
      status, writes := s, [];
    case ShowVersion =>
      status, writes := ExitSuccess, [];
    case RejectArgument(_) =>
      status, writes := ExitFailure, [];
  }

  /**
   * `cpu-powersave start` as root on a single intel_pstate core whose
   * governor file accepts `powersave` writes exactly `powersave` there;
   * `cpu-powersave stop` on a single core of any other known driver writes
   * exactly `performance`.
   */
  lemma StartAndStopOnOneCore(fs: Sysfs, core: string, content: string)
    requires DriverPath(core) in fs.drivers && fs.drivers[DriverPath(core)] == Some(content)
    requires GovernorPath(core) in fs.governors
    ensures StartsWithIntelPstate(content) && fs.governors[GovernorPath(core)]("powersave") ==>
      ScaleApplied(Dispatch(["cpu-powersave", "start"]).scale, 0, Some([core]), fs,
                   ExitSuccess, [Write(GovernorPath(core), "powersave")])
    ensures !StartsWithIntelPstate(content) && fs.governors[GovernorPath(core)]("performance") ==>
      ScaleApplied(Dispatch(["cpu-powersave", "stop"]).scale, 0, Some([core]), fs,
                   ExitSuccess, [Write(GovernorPath(core), "performance")])
  {
    assert [core][1..] == [];
  }

  /**
   * The exit status only reports the root check and the glob: a walk that
   * stops at the first core, with nothing written, still exits successfully.
   */
  lemma StoppedWalkStillSucceeds(scale: Scale, fs: Sysfs, core: string)
    requires DriverPath(core) !in fs.drivers
    ensures ScaleApplied(scale, 0, Some([core]), fs, ExitSuccess, [])
  {
  }
}
