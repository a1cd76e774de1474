/**
 * Machine configuration (pkg/config/machine.go): the declared machine, its
 * optional ignite (microVM) options, the defaulting rules applied when those
 * options are read, and the name-template validation.
 */
module Config {
  import opened Wrappers
  import GoStrings

  type uint16 = x: int | 0 <= x < 0x1_0000
  type uint64 = x: int | 0 <= x < 0x1_0000_0000_0000_0000

  /** A volume attached to a machine (plain data). */
  datatype Volume = Volume(kind: string, source: string, destination: string, readOnly: bool)

  /** A port published from the machine onto the host (plain data). */
  datatype PortMapping = PortMapping(protocol: string, address: string, hostPort: uint16, containerPort: uint16)

  /** Ignite-specific options; a nil CopyFiles map is the empty map. */
  datatype Ignite = Ignite(cpus: uint64, memory: string, disk: string, kernel: string, copyFiles: map<string, string>)

  /** A declared machine; `ignite` is None when the options pointer is nil. */
  datatype Machine = Machine(
    name: string,
    image: string,
    privileged: bool,
    volumes: seq<Volume>,
    networks: seq<string>,
    portMappings: seq<PortMapping>,
    cmd: string,
    backend: string,
    ignite: Option<Ignite>)

  const DefaultCPUs: uint64 := 2
  const DefaultMemory: string := "1GB"
  const DefaultDisk: string := "4GB"
  const DefaultKernel: string := "weaveworks/ignite-kernel:4.19.47"

  /** Go's zero value `Ignite{}`. */
  const ZeroIgnite: Ignite := Ignite(0, "", "", "", map[])

  /** Every field the user set in `i` (non-zero CPUs, non-empty strings) is the same in `r`. */
  predicate KeepsSetFields(i: Ignite, r: Ignite) {
    && (i.cpus != 0 ==> r.cpus == i.cpus)
    && (i.memory != "" ==> r.memory == i.memory)
    && (i.disk != "" ==> r.disk == i.disk)
    && (i.kernel != "" ==> r.kernel == i.kernel)
  }

  /** Every field left unset in `i` holds its default in `r`. */
  predicate DefaultsUnsetFields(i: Ignite, r: Ignite) {
    && (i.cpus == 0 ==> r.cpus == DefaultCPUs)
    && (i.memory == "" ==> r.memory == DefaultMemory)
    && (i.disk == "" ==> r.disk == DefaultDisk)
    && (i.kernel == "" ==> r.kernel == DefaultKernel)
  }

  /** Options a microVM can be started from: at least one CPU and every size and image given. */
  predicate Complete(i: Ignite) {
    i.cpus >= 1 && i.memory != "" && i.disk != "" && i.kernel != ""
  }

  /** The conditionals of IgniteConfig applied to a copy of the options. */
  function FillDefaults(i: Ignite): (r: Ignite)
    ensures KeepsSetFields(i, r) && DefaultsUnsetFields(i, r)
    ensures r.copyFiles == i.copyFiles
    ensures Complete(r)
  {
    i.(cpus := if i.cpus == 0 then DefaultCPUs else i.cpus,
       memory := if i.memory == "" then DefaultMemory else i.memory,
       disk := if i.disk == "" then DefaultDisk else i.disk,
       kernel := if i.kernel == "" then DefaultKernel else i.kernel)
  }

  /**
   * Machine.IgniteConfig: the stored options (or the zero options when there
   * are none) with defaults filled in. The machine value itself is untouched.
   */
  function IgniteConfig(m: Machine): (i: Ignite)
    ensures m.ignite.None? ==> i == Ignite(DefaultCPUs, DefaultMemory, DefaultDisk, DefaultKernel, map[])
    ensures m.ignite.Some? ==> KeepsSetFields(m.ignite.value, i) && DefaultsUnsetFields(m.ignite.value, i)
    ensures m.ignite.Some? ==> i.copyFiles == m.ignite.value.copyFiles
    ensures Complete(i)
  {
    FillDefaults(m.ignite.GetOr(ZeroIgnite))
  }

  /** The two field rules and the CopyFiles pass-through determine the result of FillDefaults. */
  lemma FillDefaultsDetermined(i: Ignite, r: Ignite)
    requires KeepsSetFields(i, r) && DefaultsUnsetFields(i, r) && r.copyFiles == i.copyFiles
    ensures r == FillDefaults(i)
  {
  }

  /** Complete options are left as they are. */
  lemma FillDefaultsFixesComplete(i: Ignite)
    requires Complete(i)
    ensures FillDefaults(i) == i
  {
  }

  /** Defaulting twice is the same as defaulting once. */
  lemma FillDefaultsIdempotent(i: Ignite)
    ensures FillDefaults(FillDefaults(i)) == FillDefaults(i)
  {
    FillDefaultsFixesComplete(FillDefaults(i));
  }

  /** The error Machine.validate reports. */
  const InvalidConfiguration: string := "Machine configuration not valid"

  /** The placeholder the name template must carry for the machine index. */
  const IndexPlaceholder: string := "%d"

  /** Machine.validate: an error iff the name does not contain "%d". */
  function Validate(conf: Machine): (err: Option<string>)
    ensures err.None? <==> exists k :: GoStrings.OccursAt(conf.name, IndexPlaceholder, k)
    ensures err.Some? ==> err.value == InvalidConfiguration
  {
    if GoStrings.Contains(conf.name, IndexPlaceholder) then None else Some(InvalidConfiguration)
  }

  /** Only the name decides validity. */
  lemma ValidateOnlyReadsName(a: Machine, b: Machine)
    requires a.name == b.name
    ensures Validate(a) == Validate(b)
  {
  }

  /** "node%d" is accepted and "node" is rejected, whatever the other fields hold. */
  lemma ValidateExamples(conf: Machine)
    ensures Validate(conf.(name := "node%d")) == None
    ensures Validate(conf.(name := "node")) == Some(InvalidConfiguration)
  {
    assert GoStrings.OccursAt("node%d", IndexPlaceholder, 4);
    forall k | 0 <= k <= 2
      ensures !GoStrings.OccursAt("node", IndexPlaceholder, k)
    {
      assert "node"[k] != '%';
    }
  }
}
