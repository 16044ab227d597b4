# Macro-controlled logging (mcl.h), modelled in Dafny

mcl.h is a single C header that builds a logging facility out of
preprocessor macros. A program defines named logging systems, each with one
mutable level cell, and writes `LOG_FATAL` … `LOG_TRACE` statements against
them. Three build-time macros decide what each statement becomes:
`DYNAMIC_LOG_LVL` (runtime level changes on or off), `DYNAMIC_LOG_LVL_MIN`
and `DYNAMIC_LOG_LVL_MAX`. A statement above the maximum is deleted. A
statement inside `[MIN, MAX]` is checked at runtime against the system's
stored level when dynamic levels are on. Every other statement is hardwired
and always runs its action. Every level a system stores is clamped into
`[MIN, MAX]`.

The model has two modules:

- `Mcl` (`mcl.dfy`) holds the compile-time policy as pure functions. It has
  the level constants (Fatal = 0 … Trace = 7, with the sentinels None = -1
  and All = 0x7f). `Configure` covers the build configuration, with its
  defaults and the check that rejects `MIN > MAX`. `Clamp` is
  `__LOG_LVL_CLAMP`. `TierOf` and `Emits` are the three-way decision that
  all eight `LOG_<LEVEL>` macros share. `DefaultAction` is the routing of
  the default `LOG_ACTION`.
- `LogSystems` (`log_system.dfy`) holds the per-system level cell as a
  class. Its members are `Define` (`DEFINE_LOG_SYSTEM`), `Get`
  (`GET_LOG_SYSTEM_LVL`), `Set` (`SET_LOG_SYSTEM_LVL`) and `Log` (one
  `LOG_<LEVEL>` statement). The class keeps a ghost record of the levels
  passed to `Set`. Its invariant ties the cell to `StoredLevel`, which
  replays that history from the clamped initial level. The lemmas about the
  replay therefore hold for every reachable state of a system. Separate
  logging systems are separate objects.

The eight `LOG_<LEVEL>` macros differ only in their level constant. The
model therefore has one `Log` method that takes the level, restricted to
the eight levels 0..7.

The header's comment at include/mcl.h:65-66 gives `LOG_LVL_ERROR` as the
default minimum. The code at include/mcl.h:161-163 uses `LOG_LVL_WARN`. The
model follows the code (`DefaultConfiguration`). Under the code's default,
the header's own usage example at include/mcl.h:45,
`DEFINE_LOG_SYSTEM(example, LOG_LVL_ERROR)`, stores Warn, not Error.
`DefaultConfigurationScenario` checks this.

With `DYNAMIC_LOG_LVL` off, every statement at or below the maximum is
hardwired, including those at or above the minimum. `GET` then reports the
maximum and `SET` does nothing. In this case the build creates no level
cell. The model keeps the `lvl` field, but nothing reads it.

## Model

| member | source | states |
|---|---|---|
| `Mcl.Configure` | include/mcl.h:86-167 | An undefined `DYNAMIC_LOG_LVL` means on and any non-zero value enables it; an undefined maximum is Verbose and an undefined minimum is Warn; the build succeeds iff the effective min <= max, and otherwise fails with the header's error message |
| `Mcl.DefaultConfiguration` | include/mcl.h:150-163 | With no macro defined, the configuration is dynamic on, min Warn, max Verbose (the code's default, not the comment's Error) |
| `Mcl.Clamp` | include/mcl.h:358-360 | Given min <= max, the result lies in [min, max]; it is the identity on [min, max]; below min it gives exactly min; above max it gives exactly max |
| `Mcl.ClampIsNearest` | include/mcl.h:358-360 | The clamped level is at least as close to the request as every level in [min, max] |
| `Mcl.ClampIdempotent` | include/mcl.h:358-360 | Clamping twice gives the same level as clamping once |
| `Mcl.ClampMonotone` | include/mcl.h:358-360 | Clamping preserves the order of two requested levels |
| `Mcl.TierOf` | include/mcl.h:200-213 | A statement is compiled out iff level > max; it is runtime-checked iff dynamic levels are on and min <= level <= max; it is hardwired iff level <= max and (dynamic levels are off or level < min) |
| `Mcl.Emits` | include/mcl.h:200-213 | Above max a statement never emits, whatever the stored level or dynamic setting; at or below max it always emits when dynamic levels are off or level < min; with dynamic levels on and min <= level <= max it emits iff stored >= level |
| `Mcl.OnlyDynamicReadsStoredLevel` | include/mcl.h:200-213 | Outside the runtime-checked tier, the outcome is the same for every stored level |
| `Mcl.EmitsMonotone` | include/mcl.h:200-353 | If a statement at some level emits, a statement at any more severe (lower) level emits for the same stored level |
| `Mcl.MaxAllKeepsEveryStatement` | include/mcl.h:137-152 | With max = LOG_LVL_ALL, no statement at any of the eight levels is compiled out |
| `Mcl.MaxNoneDeletesEveryStatement` | include/mcl.h:200-213 | With max = LOG_LVL_NONE (which builds only if min is lowered to -1 as well), every statement at the eight levels takes the empty branch and never emits |
| `Mcl.StoredAllEmitsUpToMax` | include/mcl.h:137-140 | For every valid configuration with max <= LOG_LVL_ALL, requesting LOG_LVL_ALL stores max, and then a statement emits iff its level <= max |
| `Mcl.StoredNoneKeepsMin` | include/mcl.h:132-135 | For every valid configuration with min >= LOG_LVL_NONE, requesting LOG_LVL_NONE stores min, not -1; a statement then emits iff its level <= max and (dynamic levels are off or its level <= min), so a statement at exactly min still emits |
| `Mcl.DefaultAction` | include/mcl.h:179-193 | The default action keeps the level and writes to stderr iff the level is Fatal, Error or Warn (0..2); every other value goes to stdout |
| `LogSystems.Replay` | include/mcl.h:405-410 | Starting from a level in [min, max], the stored level stays in [min, max] after any sequence of SET requests, and an empty sequence leaves it unchanged |
| `LogSystems.StoredLevel` | include/mcl.h:381-410 | The level after DEFINE and any sequence of SETs lies in [min, max]; with no SET it is the clamped initial level |
| `LogSystems.LastSetWins` | include/mcl.h:405-410 | After one or more SETs, the stored level is the clamp of the last request and does not depend on earlier requests or on the initial level |
| `LogSystems.ReplayAppend` | include/mcl.h:405-410 | One more SET makes the stored level the clamp of its argument |
| `LogSystems.LogSystem.Level` | include/mcl.h:393-397 | The reported level lies in [min, max]; it is max when dynamic levels are off and the replayed stored level when they are on |
| `LogSystems.LogSystem.Define` | include/mcl.h:381-386 | DEFINE sets the cell to the clamped initial level, with no SET recorded yet; with dynamic levels off, the reported level is max |
| `LogSystems.LogSystem.Get` | include/mcl.h:388-397 | GET returns the reported level `Level()`, which lies in [min, max]: the stored level when dynamic levels are on, and max when they are off |
| `LogSystems.LogSystem.Set` | include/mcl.h:399-410 | With dynamic levels on, SET stores the clamp of its argument and keeps the invariant; with them off, it changes nothing |
| `LogSystems.LogSystem.Log` | include/mcl.h:200-353 | A statement at one of the eight levels runs an action iff `Emits` holds for the system's reported level; when it does, the action is the default action at that level |

## Left out

- The `fprintf` calls and printf-style formatting of the default action are foreign I/O. An emission is modelled as the chosen stream and the level only.
- The guarantee that the arguments of a compiled-out statement are never evaluated comes from preprocessor expansion. The model only shows that no action occurs.
- A replacement `LOG_ACTION` supplied by the build is not modelled. `Log` always uses the default action.
- `DECLARE_LOG_SYSTEM`, the `extern` linkage, the token pasting that names the cell, and the link errors from defining a system twice or never are linker artifacts. Separate systems are separate objects.
- The `char` type of the level cell (include/mcl.h:90) is not modelled. Levels are unbounded `int`, so truncation and sign problems are not captured. These include a configured maximum above 127. They also include negative levels, such as LOG_LVL_NONE (-1) used as the minimum or as a stored level: where plain `char` is unsigned, the cell holds 255, and every runtime-checked statement emits.
- `__LOG_LVL_CLAMP` is a text macro. It evaluates its argument up to three times and does not parenthesise it. The model takes the argument as an already evaluated integer.
- `LogSystems.LogSystem.Set` returns nothing, although the expansion of `SET_LOG_SYSTEM_LVL` with dynamic levels on is an assignment expression whose value is the stored level. With dynamic levels off it expands to nothing and has no value.
- The header guard and the `#include <stdio.h>` are not modelled. The level cell has no thread safety, and concurrent access is not modelled.
