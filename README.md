# footloose machines in Dafny

A model of the machine layer of footloose, a tool that runs a small cluster of
"machines" backed either by docker containers or by ignite microVMs. Two
pieces are modelled:

- **Machine configuration** (`pkg/config/machine.go`), module `Config` in
  `config.dfy`. It covers the declared machine record, the ignite options and
  the defaults `IgniteConfig` fills into a copy of them: 2 CPUs, "1GB" memory,
  "4GB" disk and kernel "weaveworks/ignite-kernel:4.19.47". It also covers the
  check that a machine name contains the `%d` index placeholder. Both are
  functions over values, with lemmas.
- **Runtime machine** (`pkg/cluster/machine.go`), module `Cluster` in
  `cluster.dfy`. It is a class `Machine` with the spec, name, hostname and ip,
  plus the `ports` cache the source mutates. `HostPort` is a method with
  `modifies`. The lifecycle and identity queries (`ContainerName`,
  `IsCreated`, `IsStarted`, `IsIgnite`, `Hostname`) are functions of the
  machine and of the results of the external commands.

The external calls (`executeCommand`, `execForeground`, `docker.Inspect`) are
parameters: `CommandOutput`, `ForegroundResult` and `Inspection` hold what
they returned. A ghost log `queries` on the machine records the queries
`HostPort` issues. This is how the model states that a cache hit issues no
query.

Module `GoStrings` (`go_strings.dfy`) gives the Go library routines the core
relies on: `strings.Contains`, `strings.Replace` and `strings.Trim` with the
quote character, `strconv.Atoi`, `strconv.ParseBool` and `%d` formatting.
Module `Wrappers` (`wrappers.dfy`) holds `Option`, which stands for Go's nil
pointers, nil maps and nil errors.

Three behaviours of the code are worth knowing before reading the contracts:

- On a parse failure, `HostPort` still writes Atoi's fallback 0 at
  `ports[containerPort]` (pkg/cluster/machine.go:116). So a later call for
  that port returns 0 with no error.
- `HostPort` removes every `'` in the inspected line, wherever it occurs
  (pkg/cluster/machine.go:115). `IsStarted` trims only leading and trailing
  quotes (pkg/cluster/machine.go:89).
- The cache map is allocated lazily. It is only allocated once an inspection
  has returned exactly one line (pkg/cluster/machine.go:111-113). The model
  keeps the nil state as `ports == None`.

## Model

| member | source | states |
|---|---|---|
| `GoStrings.Contains` | pkg/config/machine.go:106 | true iff `sub` occurs at some index of `s` |
| `GoStrings.RemoveQuotes` | pkg/cluster/machine.go:115 | no quote is left, the text does not grow, and quote-free text is unchanged |
| `GoStrings.RemoveQuotesKeepsOthers` | pkg/cluster/machine.go:115 | every character other than the quote survives, as often as it occurred |
| `GoStrings.RemoveQuotesConcat` | pkg/cluster/machine.go:115 | quote removal distributes over concatenation, so the other characters keep their order |
| `GoStrings.TrimQuotes` | pkg/cluster/machine.go:89 | the result is `s` with a run of quotes cut from each end, and it neither starts nor ends with a quote |
| `GoStrings.TrimQuotesWrapped` | pkg/cluster/machine.go:89 | trimming `'t'` gives back `t` when `t` has no quote at either end |
| `GoStrings.FormatNat` | pkg/cluster/machine.go:103 | decimal digits without a leading zero whose value is `n` |
| `GoStrings.FormatInt` | pkg/cluster/machine.go:103 | `%d` rendering: a minus sign iff `n < 0`, then digits with no leading zero whose value is the magnitude |
| `GoStrings.Atoi` | pkg/cluster/machine.go:116 | succeeds iff the text is an optional sign plus at least one digit; on success the value is the digits' value, negated after a minus sign ("+5", "007" and "-0" included); on failure the value is 0 |
| `GoStrings.AtoiFormatInt` | pkg/cluster/machine.go:103-116 | parsing what `%d` prints gives back the number |
| `GoStrings.FormatIntAtoi` | pkg/cluster/machine.go:103-116 | text in `%d`'s own form parses, and printing the value gives the text back |
| `GoStrings.QuotedPortExample` | pkg/cluster/machine.go:115-116 | the inspected line `'32768'` yields port 32768 |
| `GoStrings.QuotedTextExample` | pkg/cluster/machine.go:115-119 | a quoted non-number fails to parse, with fallback 0 |
| `GoStrings.ParseBool` | pkg/cluster/machine.go:89-90 | true exactly for "1", "t", "T", "TRUE", "true", "True"; ok exactly for those and their false counterparts |
| `Config.FillDefaults` | pkg/config/machine.go:75-86 | set fields are kept, unset ones get their defaults, CopyFiles passes through, and the result is complete (CPUs >= 1, memory, disk and kernel non-empty) |
| `Config.IgniteConfig` | pkg/config/machine.go:70-87 | with no stored options the result is the defaults with an empty CopyFiles; otherwise the stored options with only the unset fields defaulted and CopyFiles untouched; always complete |
| `Config.FillDefaultsDetermined` | pkg/config/machine.go:75-86 | keeping set fields, defaulting unset ones and passing CopyFiles through determine the result |
| `Config.FillDefaultsFixesComplete` | pkg/config/machine.go:75-86 | complete options are returned unchanged |
| `Config.FillDefaultsIdempotent` | pkg/config/machine.go:75-86 | defaulting twice equals defaulting once |
| `Config.Validate` | pkg/config/machine.go:105-111 | no error iff the name contains "%d"; otherwise the error "Machine configuration not valid" |
| `Config.ValidateOnlyReadsName` | pkg/config/machine.go:105-111 | two machines with the same name validate alike |
| `Config.ValidateExamples` | pkg/config/machine.go:105-111 | "node%d" passes and "node" fails, whatever the other fields hold |
| `Cluster.Machine.constructor` | pkg/cluster/machine.go:20-33 | a machine holds its spec, name, hostname and ip, has a nil port cache and has issued no query |
| `Cluster.Machine.IsIgnite` | pkg/cluster/machine.go:123-125 | true iff the spec carries ignite options; the backend string is not read |
| `Cluster.Machine.ContainerName` | pkg/cluster/machine.go:41-51 | the name for a container machine; for an ignite machine, the `docker ps` output when that succeeded with non-empty output, else the name; never empty for a non-empty name |
| `Cluster.Machine.Hostname` | pkg/cluster/machine.go:54-56 | the stored hostname, with no query |
| `Cluster.Machine.IsCreated` | pkg/cluster/machine.go:60-76 | ignite: true iff `ignite logs` gave no error and exit code 0; container: true iff the name inspection printed a non-empty first line |
| `Cluster.Machine.IsStarted` | pkg/cluster/machine.go:79-94 | ignite: the same test as IsCreated; container: true iff the first running-state line, with wrapping quotes trimmed, is a true spelling for ParseBool |
| `Cluster.HostPortTemplateShape` | pkg/cluster/machine.go:103 | the inspection template is the fixed prefix, the port as `%d` prints it, and the fixed "/tcp" suffix |
| `Cluster.HostPortTemplateInjective` | pkg/cluster/machine.go:103 | different container ports give different templates |
| `Cluster.Machine.MissQueries` | pkg/cluster/machine.go:103 | a cache miss issues, for an ignite machine, the `docker ps` lookup with the `label=ignite.name=<name>` filter first; then, in every case, one inspection of ContainerName with the host-port template of the port |
| `Cluster.Machine.MissInspectsPort` | pkg/cluster/machine.go:103 | after a miss's queries, the ports inspected so far are the earlier ones plus the looked-up port, and no other |
| `Cluster.Machine.HostPort` | pkg/cluster/machine.go:97-121 | hit: the cached value, no error, no query, nothing changed. Miss: exactly the MissQueries. A failed inspection or a line count other than one gives -1 with an error and leaves the cache, even a nil one, as it was. One line: Atoi of the quote-free text is stored at the port even when the parse fails, and is returned on success (-1 and an error otherwise). Old entries are never changed, only this port can be added, and every cached port was inspected |
| `Cluster.Machine.HostPortTwice` | pkg/cluster/machine.go:99-120 | once a call got as far as parsing, a second call for the port issues no query and returns the parsed value (0 after a parse failure) without error |
| `Cluster.IgniteCreatedIffStarted` | pkg/cluster/machine.go:60-86 | for an ignite machine, IsCreated and IsStarted agree |
| `Cluster.ContainerStartedWhenTrue` | pkg/cluster/machine.go:88-93 | a container whose running state prints `'true'` is started |
| `Cluster.ContainerNotStartedWhenFalse` | pkg/cluster/machine.go:88-93 | a container whose running state prints `'false'` is not started |

## Left out

- `footloose.go` is not part of this model. It holds command-line wiring, environment lookups and path resolution.
- The bodies of `executeCommand`, `execForeground` and `docker.Inspect` are not modelled. They run external processes or talk to the docker daemon. Their results are parameters of the model.
- The logging calls (pkg/config/machine.go:108, pkg/cluster/machine.go:62, 65) are left out. They have no effect on results.
- Error values are the typed `PortError` variants with the data the source puts in them (the raw lines, the line count, the text that failed to parse). The exact wording of the wrapped error messages is left out.
- GoStrings.Atoi: does not model the 64-bit range check of `strconv.Atoi`. Integers are unbounded, so a decimal text outside the range of Go's `int` parses successfully here; Go would report a range error and return a clamped value.
- Cluster.Machine.IsStarted: for a container machine it requires at least one inspected line. The source indexes the first line unguarded and would panic on an empty result.
- `Volume`, `PortMapping`, `Networks`, `Privileged`, `Cmd`, `Backend` and `Image` are carried as plain data only. The "tcp", "0.0.0.0" and HostPort+i behaviours appear only in doc comments and are not implemented in these files.
- The machine's `ip` field and the unused `igniteName` constant have no logic in these files.
- Config.IgniteConfig: the source copies the `Ignite` struct shallowly (pkg/config/machine.go:73), so the returned `CopyFiles` is the same map object as the stored spec's, and a caller that writes into it changes the stored options. The model treats the map as a value and does not capture this aliasing.
- The spec is a pointer in the source. Here it is an immutable value, so a change made to the spec through another alias is not captured. `IgniteConfig` cannot change the stored fields themselves, since it assigns only to its local copy.
- A nil `CopyFiles` map is the empty map. Go reads the two identically.
- JSON and YAML field tags and (de)serialisation are left out; libraries handle them.
- There is no concurrency in these files.
