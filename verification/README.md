# CPU governor tools (solus-hardware-config) in Dafny

This project models the two programs that switch the frequency-scaling governor on every
CPU core of a Linux machine. Each program takes the cores the kernel exposes under
`/sys/devices/system/cpu/cpu*/cpufreq` and visits them in the order `glob` lists them. For
each core it reads `scaling_driver` and classifies the driver as `intel_pstate`, generic
cpufreq, or unknown. It then translates the requested scale (power-saving or performance)
into that driver's governor string and writes the string to `scaling_governor`. The walk
stops at the first core whose driver is unknown or whose write fails.

- `cpu-powersave` is a command-line tool. `start` requests the power-saving scale and
  `stop` requests the performance scale; `help`/`-h` and `version`/`-v` print text.
  `start` and `stop` do nothing unless the effective user is root; the other arguments
  never reach the root check.
- `cpu-on-demand` is the service variant. It ignores its arguments, always requests the
  power-saving scale and has no root check. Its cpufreq table maps the performance scale to
  the string `powerformance`.

Modules:

- `CStrings` (`cstrings.dfy`): `strncmp` over a zero-filled buffer, and the proof that
  comparing against `intel_pstate` is a 12-byte prefix test.
- `Governor` (`governor.dfy`): what both programs share, written once. This covers the
  scale and driver types, the kernel's sysfs files seen through an abstract `Sysfs` value,
  `shc_read_node`, `shc_transform_intel`, `shc_get_driver`, `shc_set_governor` and the per-core loop of
  `shc_set_scale`. That loop is the method `WalkCores`. It is proved equal to the
  specification function `Planned`, and the lemmas about `Planned` give the ordering and
  early-stop properties. The code of these functions is identical in the two sources
  (cpu-powersave/main.c:46-107, 142-175, 194-209 and cpu-on-demand/main.c:47-108,
  143-176, 190-205). The table below cites the cpu-powersave lines.
- `CpuPowersave` (`cpu_powersave.dfy`) and `CpuOnDemand` (`cpu_on_demand.dfy`): each
  program's own translation table, its `shc_set_scale` (with or without the root check)
  and its `main`.

How the kernel side is modelled:

- The glob result is an input: `Some(paths)`, or `None` when `glob` returns non-zero, which
  includes the no-match case. Because `glob` is called without `GLOB_NOCHECK`, it never
  reports success with no paths. The model still accepts `Some([])`, and then the walk
  writes nothing and the run succeeds.
- `geteuid()` is an input number.
- `Sysfs.drivers` maps each `scaling_driver` path that opens to what `read` returns on it.
  The value is `None` when the read fails. A path missing from the map does not open.
- `Sysfs.governors` maps each `scaling_governor` path that opens for writing to an oracle:
  does writing the given bytes succeed?
- The observable effect of a run is the log of successful governor writes, in order. The
  methods return it together with the exit status.

Behaviour of the code that the model keeps as written:

- After a walk that stopped early, both programs still return `EXIT_SUCCESS`. An unknown
  driver or a failed write leaves the loop with `goto failed`, and the code after the
  `failed:` label frees the glob result and returns `EXIT_SUCCESS`
  (cpu-powersave/main.c:200-214, cpu-on-demand/main.c:196-210). The exit status therefore
  reports only the root check and the glob. `ScaleApplied` and
  `CpuPowersave.StoppedWalkStillSucceeds` state this.
- The cpufreq table of cpu-on-demand maps the performance scale to `powerformance`
  (cpu-on-demand/main.c:117). The same entry in cpu-powersave is `performance`
  (cpu-powersave/main.c:116). No run of cpu-on-demand reaches this entry, because its
  `main` only ever requests the power-saving scale (`CpuOnDemand.NeverWritesPowerformance`).
- Driver detection calls `strncmp` on the literal `intel_pstate` with length 12, over a
  buffer zero-filled before the read (cpu-powersave/main.c:75-87). The literal is 12
  bytes with no NUL, so this comparison is a test that the content starts with
  `intel_pstate` (`CStrings.StrnEqualIsPrefix`). Content shorter than 12 bytes, including
  empty content, is classified as cpufreq.

## Model

| member | source | states |
|---|---|---|
| CStrings.StrnEqualFromNoNul | cpu-powersave/main.c:87 | when the literal holds no NUL in the compared range, `strncmp` equals 0 exactly when every compared position matches |
| CStrings.StrnEqualIsPrefix | cpu-powersave/main.c:87 | `strncmp(buf, lit, strlen(lit)) == 0` holds exactly when the buffer has at least that many bytes and starts with the literal; shorter content never matches |
| Governor.ReadNode | cpu-powersave/main.c:46-67 | the read fails (`None`) exactly when the open fails or the read fails; on success it returns a prefix of the file of at most `buflen` bytes |
| Governor.GetDriver | cpu-powersave/main.c:72-93 | the result is Unknown exactly when `scaling_driver` cannot be opened or read; IntelPstate exactly when the read content starts with the 12 bytes `intel_pstate`; Cpufreq for every other readable content, including empty content |
| Governor.TransformIntel | cpu-powersave/main.c:98-107 | intel_pstate: performance gives `performance`, powersave gives `powersave` (the same table as cpu-on-demand/main.c:99-108) |
| Governor.SetGovernor | cpu-powersave/main.c:142-175 | a write reports success exactly when `<core>/scaling_governor` opens for writing and the write of that string is accepted; a failed open or a failed write reports failure |
| Governor.Planned | cpu-powersave/main.c:194-209 | the walk writes at most one governor file per glob entry |
| Governor.PlannedInOrder | cpu-powersave/main.c:194-209 | the k-th write goes to `<core>/scaling_governor` of the k-th core in glob order and carries exactly that core's translated string, and only after its translation succeeded and its write was accepted; if fewer cores are written than globbed, the first unwritten core had a NULL translation or a failed write, and no later core is written |
| Governor.PlannedComplete | cpu-powersave/main.c:194-209 | every core is written exactly when every core translates and accepts its write |
| Governor.VisitCore | cpu-powersave/main.c:195-208 | one loop iteration writes exactly when the core's translation is not NULL and its write succeeds, and then the write is `CoreWrite` for that core; otherwise it signals the stop |
| Governor.WalkCores | cpu-powersave/main.c:194-209 | the loop's write log equals `Planned`; each write goes to its core's governor path, in glob order, with that core's translated string; an early exit happens only at a core that was not accepted |
| CpuPowersave.TransformCpufreq | cpu-powersave/main.c:112-121 | cpufreq: performance gives `performance`, powersave gives `ondemand` |
| CpuPowersave.Transform | cpu-powersave/main.c:126-137 | NULL exactly for an unknown driver, for every scale; for the two known drivers, the table entries above |
| CpuPowersave.SetScale | cpu-powersave/main.c:180-215 | not root: EXIT_FAILURE before globbing, no writes; glob fails: EXIT_FAILURE, no writes; otherwise EXIT_SUCCESS and exactly the writes of the walk, whether or not it stopped early |
| CpuPowersave.PowersaveWalkWrites | cpu-powersave/main.c:194-214 | every written core has a known driver, and its governor file gets `powersave` (intel_pstate) or `ondemand` (cpufreq) for power-saving, and `performance` for performance; the walk stops only at an unknown driver or a refused write |
| CpuPowersave.Dispatch | cpu-powersave/main.c:249-273 | argc other than 2 gives usage with failure; `start` is exactly the power-saving scale; `stop` is exactly the performance scale; `help`/`-h` give usage with success; `version`/`-v` give the version banner; any other single argument is rejected |
| CpuPowersave.Run | cpu-powersave/main.c:249-273 | a `start`/`stop` run behaves as `shc_set_scale` for that scale; usage, version and unknown-argument runs write nothing and exit with failure for a bad argc, success for help or version, and failure for an unknown argument |
| CpuPowersave.StartAndStopOnOneCore | cpu-powersave/main.c:259-262 | as root on one core, `start` on an intel_pstate driver writes exactly `powersave`; `stop` on any other readable driver writes exactly `performance` |
| CpuPowersave.StoppedWalkStillSucceeds | cpu-powersave/main.c:202-214 | a walk that stops at its first core with nothing written still exits with EXIT_SUCCESS |
| CpuOnDemand.TransformCpufreq | cpu-on-demand/main.c:113-122 | cpufreq: performance gives the misspelt `powerformance`, powersave gives `ondemand` |
| CpuOnDemand.Transform | cpu-on-demand/main.c:127-138 | NULL exactly for an unknown driver, for every scale; for the two known drivers, this program's table entries |
| CpuOnDemand.SetScale | cpu-on-demand/main.c:181-211 | glob fails: EXIT_FAILURE, no writes; otherwise EXIT_SUCCESS and exactly the writes of the walk, with no privilege check and whether or not the walk stopped early |
| CpuOnDemand.OnDemandWalkWrites | cpu-on-demand/main.c:190-205 | with the power-saving scale, every written core has a known driver and is written in glob order; its governor file gets `powersave` (intel_pstate) or `ondemand` (cpufreq) |
| CpuOnDemand.OnDemandWalkStops | cpu-on-demand/main.c:196-204 | with the power-saving scale, when fewer cores are written than globbed, the first unwritten core has an unknown driver or refused its write (the log holds only the cores before it) |
| CpuOnDemand.NeverWritesPowerformance | cpu-on-demand/main.c:218-221 | with the power-saving scale, every string written is `powersave` or `ondemand`, so `powerformance` is never written |
| CpuOnDemand.Run | cpu-on-demand/main.c:218-221 | whatever the arguments, the run is `shc_set_scale` with the power-saving scale, and every string it writes is `powersave` or `ondemand` |

## Left out

- The `open`/`read`/`write`/`fdatasync`/`close` system calls and file descriptors are not
  modelled. They are replaced by the `Sysfs` read map and write oracle. The ignored
  `fdatasync` result (cpu-powersave/main.c:169) has no effect in the model.
- A short `write` (fewer bytes than the string) counts as success, as in the source, which
  only checks for a negative return. The model does not record how many bytes reached the
  file.
- Pattern expansion by `glob` and `globfree` are not modelled. The matched paths are an
  input.
- `geteuid()` is an input.
- The text of the usage, version and error messages, and `errno`/`strerror`, are not
  modelled. `CpuPowersave.Action` only says which message `main` prints.
- Path building with `snprintf` is modelled as concatenation, so truncation at `PATH_MAX`
  is left out. The `snprintf`-failure branches (cpu-powersave/main.c:78-81, 149-152) are
  also left out, because concatenation cannot fail. In the source, the second of these
  returns `SHC_DRIVER_UNKNOWN`, which converts to `false`, so it would act as a failed
  write.
- What the kernel does after a governor string is written, and other programs changing
  sysfs at the same time, are outside the model.
- Bytes are modelled as characters. The driver file's content is a `string`, and the
  `buflen` of `shc_read_node` counts characters. This matters only for non-ASCII content,
  which never matches the ASCII prefix `intel_pstate` in either reading.
