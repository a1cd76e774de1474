/**
 * The runtime machine (pkg/cluster/machine.go): one node backed either by a
 * docker container or by an ignite microVM, its lifecycle queries and the
 * memoised host-port lookup.
 *
 * The external calls (executeCommand, execForeground, docker.Inspect) are not
 * part of this model: their results are parameters.
 */
module Cluster {
  import opened Wrappers
  import opened GoStrings
  import Config

  /** What executeCommand returns: the command's output and whether it reported an error. */
  datatype CommandOutput = CommandOutput(stdout: string, failed: bool)

  /** What execForeground returns: the exit code and whether it reported an error. */
  datatype ForegroundResult = ForegroundResult(exitCode: int, failed: bool)

  /** What docker.Inspect returns: the printed lines and whether it reported an error. */
  datatype Inspection = Inspection(lines: seq<string>, failed: bool)

  /** An external query issued while resolving a host port. */
  datatype Query =
    | ListContainers(filter: string)             // docker ps -q -f <filter>
    | Inspect(container: string, format: string) // docker inspect -f <format> <container>

  /** The fixed text around the port number in HostPort's inspection template. */
  const TemplatePrefix: string := "{{(index (index .NetworkSettings.Ports \""
  const TemplateSuffix: string := "/tcp\") 0).HostPort}}"

  /** The inspection template that prints the host port bound to "<containerPort>/tcp". */
  function HostPortTemplate(containerPort: int): string {
    TemplatePrefix + FormatInt(containerPort) + TemplateSuffix
  }

  /** The port's %d text sits between the fixed prefix and suffix of its template. */
  lemma HostPortTemplateShape(containerPort: int)
    ensures var t := HostPortTemplate(containerPort);
      && |t| == |TemplatePrefix| + |FormatInt(containerPort)| + |TemplateSuffix|
      && t[..|TemplatePrefix|] == TemplatePrefix && t[|t| - |TemplateSuffix|..] == TemplateSuffix
      && t[|TemplatePrefix|..|t| - |TemplateSuffix|] == FormatInt(containerPort)
  {
  }

  /** Different container ports give different templates, so a template names one port. */
  lemma HostPortTemplateInjective(a: int, b: int)
    requires HostPortTemplate(a) == HostPortTemplate(b)
    ensures a == b
  {
    HostPortTemplateShape(a);
    HostPortTemplateShape(b);
    AtoiFormatInt(a);
    AtoiFormatInt(b);
  }

  /** Why HostPort failed. */
  datatype PortError =
    | InspectFailed(output: seq<string>)   // the inspection call reported an error
    | UnexpectedLineCount(count: nat)      // the inspection printed other than one line
    | MalformedPort(text: string)          // the printed value is not a decimal integer

  /** Some query in `qs` inspected the host port of `containerPort`. */
  ghost predicate Inspected(qs: seq<Query>, containerPort: int) {
    exists i :: 0 <= i < |qs| && qs[i].Inspect? && qs[i].format == HostPortTemplate(containerPort)
  }

  class Machine {
    /** The declared machine this node was built from. */
    const spec: Config.Machine
    /** The container name. */
    const name: string
    /** The container hostname. */
    const hostname: string
    /** The container ip. */
    const ip: string

    /** machineCache.ports: containerPort -> hostPort; None while the Go map is nil. */
    var ports: Option<map<int, int>>

    /** The queries HostPort has issued so far, oldest first. */
    ghost var queries: seq<Query>

    /** The port cache as lookups see it: a nil map reads as empty. */
    function Cache(): map<int, int>
      reads this
    {
      ports.GetOr(map[])
    }

    /** Every cached host port came from an inspection of that container port. */
    ghost predicate Valid()
      reads this
    {
      forall p :: p in Cache() ==> Inspected(queries, p)
    }

    constructor (spec: Config.Machine, name: string, hostname: string, ip: string)
      ensures this.spec == spec && this.name == name && this.hostname == hostname && this.ip == ip
      ensures ports == None && Cache() == map[] && queries == []
      ensures Valid()
    {
      this.spec := spec;
      this.name := name;
      this.hostname := hostname;
      this.ip := ip;
      ports := None;
      queries := [];
    }

    /** IsIgnite: the spec carries ignite options; the backend string is not consulted. */
    predicate IsIgnite()
      ensures IsIgnite() <==> spec.ignite.Some?
    {
      spec.ignite.Some?
    }

    /** The label filter used to find an ignite VM's container. */
    function IgniteFilter(): string {
      "label=ignite.name=" + name
    }

    /**
     * ContainerName, given what `docker ps -q -f <IgniteFilter()>` returned:
     * the id found for an ignite machine, the machine name in every other case.
     */
    function ContainerName(ps: CommandOutput): (cid: string)
      ensures !IsIgnite() ==> cid == name
      ensures cid != name ==> IsIgnite() && !ps.failed && cid == ps.stdout
      ensures IsIgnite() && !ps.failed && ps.stdout != "" ==> cid == ps.stdout
      ensures name != "" ==> cid != ""
    {
      if IsIgnite() then
        if ps.failed || |ps.stdout| == 0 then name else ps.stdout
      else
        name
    }

    /** Hostname: the stored hostname, with no query. */
    function Hostname(): (h: string)
      ensures h == hostname
    {
      hostname
    }

    /** The ignite proxy for "exists" and "running": `ignite logs` ran without error and exited 0. */
    predicate LogsSucceeded(logs: ForegroundResult) {
      !logs.failed && logs.exitCode == 0
    }

    /**
     * IsCreated, given what `ignite logs <name>` returned and the lines
     * docker.Inspect printed for "{{.Name}}" (its error is discarded).
     */
    predicate IsCreated(logs: ForegroundResult, nameLines: seq<string>)
      ensures IsIgnite() ==> (IsCreated(logs, nameLines) <==> LogsSucceeded(logs))
      ensures !IsIgnite() ==> (IsCreated(logs, nameLines) <==> |nameLines| > 0 && nameLines[0] != "")
    {
      if IsIgnite() then
        LogsSucceeded(logs)
      else
        |nameLines| > 0 && |nameLines[0]| > 0
    }

    /**
     * IsStarted, given what `ignite logs <name>` returned and the lines
     * docker.Inspect printed for "{{.State.Running}}" (its error is
     * discarded). The first line is read unconditionally, so a container
     * machine needs at least one.
     */
    predicate IsStarted(logs: ForegroundResult, runningLines: seq<string>)
      requires IsIgnite() || |runningLines| > 0
      ensures IsIgnite() ==> (IsStarted(logs, runningLines) <==> LogsSucceeded(logs))
      ensures !IsIgnite() ==> (IsStarted(logs, runningLines) <==> TrimQuotes(runningLines[0]) in TrueWords)
    {
      if IsIgnite() then
        LogsSucceeded(logs)
      else
        ParseBool(TrimQuotes(runningLines[0])).value
    }

    /** The queries HostPort issues on a cache miss: the ignite lookup, if any, then one inspection. */
    function MissQueries(ps: CommandOutput, containerPort: int): (qs: seq<Query>)
      ensures |qs| == (if IsIgnite() then 2 else 1)
      ensures IsIgnite() ==> qs[0] == ListContainers(IgniteFilter())
      ensures qs[|qs| - 1] == Inspect(ContainerName(ps), HostPortTemplate(containerPort))
    {
      (if IsIgnite() then [ListContainers(IgniteFilter())] else []) + [Inspect(ContainerName(ps), HostPortTemplate(containerPort))]
    }

    /** A miss records an inspection of the port it looks up, and forgets none of the earlier ones. */
    lemma MissInspectsPort(qs: seq<Query>, ps: CommandOutput, containerPort: int)
      ensures Inspected(qs + MissQueries(ps, containerPort), containerPort)
      ensures forall p :: Inspected(qs + MissQueries(ps, containerPort), p) <==> Inspected(qs, p) || p == containerPort
    {
      var all := qs + MissQueries(ps, containerPort);
      assert all[|all| - 1].format == HostPortTemplate(containerPort);
      forall p | Inspected(qs, p)
        ensures Inspected(all, p)
      {
        var i :| 0 <= i < |qs| && qs[i].Inspect? && qs[i].format == HostPortTemplate(p);
        assert all[i] == qs[i];
      }
      forall p | Inspected(all, p) && p != containerPort
        ensures Inspected(qs, p)
      {
        var i :| 0 <= i < |all| && all[i].Inspect? && all[i].format == HostPortTemplate(p);
        if i >= |qs| {
          assert all[i] == MissQueries(ps, containerPort)[i - |qs|];
          assert i == |all| - 1;
          HostPortTemplateInjective(p, containerPort);
          assert false;
        } else {
          assert qs[i] == all[i];
        }
      }
    }

    /**
     * HostPort: the host port bound to `containerPort`. `ps` is what the
     * ignite container lookup would print and `inspection` what the port
     * inspection would return; neither is consulted on a cache hit.
     */
    method HostPort(containerPort: int, ps: CommandOutput, inspection: Inspection)
      returns (hostPort: int, err: Option<PortError>)
      requires Valid()
      modifies this`ports, this`queries
      ensures Valid()
      // a cached port is answered from the cache, with no query
      ensures containerPort in old(Cache()) ==>
        && hostPort == old(Cache())[containerPort] && err == None
        && ports == old(ports) && queries == old(queries)
      // otherwise exactly one inspection is issued, against ContainerName
      ensures containerPort !in old(Cache()) ==>
        queries == old(queries) + MissQueries(ps, containerPort)
      // a failed inspection or a wrong line count leaves the cache, even a nil one, as it was
      ensures containerPort !in old(Cache()) && inspection.failed ==>
        hostPort == -1 && err == Some(InspectFailed(inspection.lines)) && ports == old(ports)
      ensures containerPort !in old(Cache()) && !inspection.failed && |inspection.lines| != 1 ==>
        hostPort == -1 && err == Some(UnexpectedLineCount(|inspection.lines|)) && ports == old(ports)
      // one line: its quote-free text is parsed and stored, even when the parse fails
      ensures containerPort !in old(Cache()) && !inspection.failed && |inspection.lines| == 1 ==>
        var text := RemoveQuotes(inspection.lines[0]);
        var parsed := Atoi(text);
        && ports == Some(old(Cache())[containerPort := parsed.value])
        && (parsed.ok ==> hostPort == parsed.value && err == None)
        && (!parsed.ok ==> hostPort == -1 && err == Some(MalformedPort(text)))
      // entries already cached keep their values, and only containerPort can be added
      ensures forall p :: p in old(Cache()) ==> p in Cache() && Cache()[p] == old(Cache())[p]
      ensures Cache().Keys <= old(Cache()).Keys + {containerPort}
    {
      if ports.Some? && containerPort in ports.value {
        return ports.value[containerPort], None;
      }
      MissInspectsPort(queries, ps, containerPort);
      queries := queries + MissQueries(ps, containerPort);
      assert forall p :: p in Cache() ==> Inspected(queries, p);
      assert Inspected(queries, containerPort);

      var lines := inspection.lines;
      if inspection.failed {
        return -1, Some(InspectFailed(lines));
      }
      if |lines| != 1 {
        return -1, Some(UnexpectedLineCount(|lines|));
      }
      if ports.None? {
        ports := Some(map[]);
      }
      var port := RemoveQuotes(lines[0]);
      var parsed := Atoi(port);
      ports := Some(ports.value[containerPort := parsed.value]);
      if !parsed.ok {
        return -1, Some(MalformedPort(port));
      }
      return ports.value[containerPort], None;
    }

    /**
     * A caller asking twice for the same port: once the first call got as far
     * as parsing, the second answers from the cache with no query, and
     * returns the parsed value without error even when the first call failed
     * to parse (the fallback 0 was stored).
     */
    method HostPortTwice(containerPort: int, ps: CommandOutput, inspection: Inspection,
                         ps2: CommandOutput, inspection2: Inspection)
      returns (first: int, firstErr: Option<PortError>, second: int, secondErr: Option<PortError>)
      requires Valid()
      modifies this`ports, this`queries
      ensures Valid()
      ensures first == second || firstErr.Some?
      ensures containerPort in old(Cache()) || (!inspection.failed && |inspection.lines| == 1) ==>
        && containerPort in Cache() && second == Cache()[containerPort] && secondErr == None
        && |queries| == |old(queries)| + (if containerPort in old(Cache()) then 0 else |MissQueries(ps, containerPort)|)
      ensures containerPort !in old(Cache()) && !inspection.failed && |inspection.lines| == 1 ==>
        second == Atoi(RemoveQuotes(inspection.lines[0])).value
    {
      first, firstErr := HostPort(containerPort, ps, inspection);
      ghost var afterFirst := queries;
      ghost var hit := containerPort in Cache();
      second, secondErr := HostPort(containerPort, ps2, inspection2);
      assert hit ==> queries == afterFirst;
    }
  }

  /** For an ignite machine "created" and "started" are the same question: did `ignite logs` succeed. */
  lemma IgniteCreatedIffStarted(m: Machine, logs: ForegroundResult, nameLines: seq<string>, runningLines: seq<string>)
    requires m.IsIgnite()
    ensures m.IsCreated(logs, nameLines) == m.IsStarted(logs, runningLines)
  {
  }

  /** A container whose running state prints 'true', quotes and all, is started. */
  lemma ContainerStartedWhenTrue(m: Machine, logs: ForegroundResult)
    requires !m.IsIgnite()
    ensures m.IsStarted(logs, ["'true'"])
  {
    assert "'true'" == [Quote] + "true" + [Quote];
    TrimQuotesWrapped("true");
  }

  /** A container whose running state prints 'false' is not started. */
  lemma ContainerNotStartedWhenFalse(m: Machine, logs: ForegroundResult)
    requires !m.IsIgnite()
    ensures !m.IsStarted(logs, ["'false'"])
  {
    assert "'false'" == [Quote] + "false" + [Quote];
    TrimQuotesWrapped("false");
    assert "false" !in TrueWords;
  }
}
