/** The collection agent: each cycle samples the host and the container
    runtime, writes one `system_metrics` point and one `container_metrics`
    point per container, and picks the delay before the next cycle. */
module MonitoringAgent {
  import opened TimeSeries

  /** The part of `psutil.virtual_memory()` the agent reads. */
  datatype VirtualMemory = VirtualMemory(percent: real, total: int, used: int)

  datatype SystemMetrics = SystemMetrics(cpuUsage: real, memoryUsage: real, memoryTotal: int, memoryUsed: int)

  /** The three counters read from one container's stats. */
  datatype ContainerStats = ContainerStats(totalUsage: int, memoryUsage: int, memoryLimit: int)

  /** One listed container as the runtime reports it; `stats` is the outcome
      of asking for its stats (a missing counter is a failure too). */
  datatype Container = Container(id: string, name: string, status: string, stats: Result<ContainerStats>)

  datatype ContainerMetrics = ContainerMetrics(id: string, name: string, status: string,
                                               cpuUsage: int, memoryUsage: int, memoryLimit: int)

  datatype DockerMetrics = DockerMetrics(containerCount: nat, containers: seq<ContainerMetrics>)

  /** What the probes answer during one cycle. */
  datatype Probes = Probes(cpuPercent: Result<real>, memory: Result<VirtualMemory>, listing: Result<seq<Container>>)

  /** The loop's delays, in seconds. */
  const COLLECT_INTERVAL: nat := 10
  const ERROR_INTERVAL: nat := 30

  /** The host sample: CPU first, then memory; either probe may raise. */
  function CollectSystemMetrics(cpuPercent: Result<real>, memory: Result<VirtualMemory>): (r: Result<SystemMetrics>)
    ensures r.Ok? <==> cpuPercent.Ok? && memory.Ok?
    ensures r.Err? ==> r.error == if cpuPercent.Err? then cpuPercent.error else memory.error
    ensures r.Ok? ==> && r.value.cpuUsage == cpuPercent.value
                      && r.value.memoryUsage == memory.value.percent
                      && r.value.memoryTotal == memory.value.total
                      && r.value.memoryUsed == memory.value.used
  {
    match cpuPercent
    case Err(e) => Err(e)
    case Ok(cpu) =>
      match memory
      case Err(e) => Err(e)
      case Ok(vm) => Ok(SystemMetrics(cpu, vm.percent, vm.total, vm.used))
  }

  predicate AllStatsRead(cs: seq<Container>)
  {
    forall i :: 0 <= i < |cs| ==> cs[i].stats.Ok?
  }

  function MetricsOf(c: Container): ContainerMetrics
    requires c.stats.Ok?
  {
    ContainerMetrics(c.id, c.name, c.status, c.stats.value.totalUsage, c.stats.value.memoryUsage, c.stats.value.memoryLimit)
  }

  /** The per-container samples of a listing, in listing order. */
  function Samples(cs: seq<Container>): (ms: seq<ContainerMetrics>)
    requires AllStatsRead(cs)
    ensures |ms| == |cs|
    ensures forall i :: 0 <= i < |cs| ==> ms[i] == MetricsOf(cs[i])
  {
    seq(|cs|, i requires 0 <= i < |cs| => MetricsOf(cs[i]))
  }

  /** The container sample: the listing, then each container's stats in
      listing order; the first failure raises. */
  method CollectDockerMetrics(listing: Result<seq<Container>>) returns (r: Result<DockerMetrics>)
    ensures r.Ok? <==> listing.Ok? && AllStatsRead(listing.value)
    ensures listing.Err? ==> r == Err(listing.error)
    ensures r.Err? && listing.Ok? ==>
      exists i :: (0 <= i < |listing.value| && listing.value[i].stats.Err? &&
                   r.error == listing.value[i].stats.error && AllStatsRead(listing.value[..i]))
    ensures r.Ok? ==> && r.value.containerCount == |listing.value|
                      && |r.value.containers| == |listing.value|
                      && forall i :: 0 <= i < |listing.value| ==> r.value.containers[i] == MetricsOf(listing.value[i])
  {
    if listing.Err? {
      return Err(listing.error);
    }
    var containers := listing.value;
    var count := |containers|;
    var samples: seq<ContainerMetrics> := [];
    var i := 0;
    while i < |containers|
      invariant 0 <= i <= |containers|
      invariant AllStatsRead(containers[..i])
      invariant |samples| == i
      invariant forall j :: 0 <= j < i ==> samples[j] == MetricsOf(containers[j])
    {
      var c := containers[i];
      if c.stats.Err? {
        return Err(c.stats.error);
      }
      samples := samples + [MetricsOf(c)];
      assert containers[..i + 1] == containers[..i] + [c];
      i := i + 1;
    }
    assert containers[..i] == containers;
    return Ok(DockerMetrics(count, samples));
  }

  function SystemPoint(s: SystemMetrics, containerCount: int): Point
  {
    Point("system_metrics", map[],
          map["cpu_usage" := Float(s.cpuUsage), "memory_usage" := Float(s.memoryUsage),
              "memory_total" := Int(s.memoryTotal), "memory_used" := Int(s.memoryUsed),
              "container_count" := Int(containerCount)])
  }

  /** The host point has no tags and carries the host sample unchanged,
      with the number of listed containers. */
  lemma SystemPointShape(s: SystemMetrics, containerCount: int)
    ensures SystemPoint(s, containerCount).measurement == "system_metrics"
    ensures SystemPoint(s, containerCount).tags == map[]
    ensures SystemPoint(s, containerCount).fields.Keys ==
      {"cpu_usage", "memory_usage", "memory_total", "memory_used", "container_count"}
    ensures SystemPoint(s, containerCount).fields["cpu_usage"] == Float(s.cpuUsage)
    ensures SystemPoint(s, containerCount).fields["memory_usage"] == Float(s.memoryUsage)
    ensures SystemPoint(s, containerCount).fields["memory_total"] == Int(s.memoryTotal)
    ensures SystemPoint(s, containerCount).fields["memory_used"] == Int(s.memoryUsed)
    ensures SystemPoint(s, containerCount).fields["container_count"] == Int(containerCount)
  {
  }

  function RunningFlag(status: string): int
  {
    if status == "running" then 1 else 0
  }

  function ContainerPoint(c: ContainerMetrics): Point
  {
    Point("container_metrics", map["container_id" := c.id, "container_name" := c.name],
          map["cpu_usage" := Int(c.cpuUsage), "memory_usage" := Int(c.memoryUsage),
              "memory_limit" := Int(c.memoryLimit), "status" := Int(RunningFlag(c.status))])
  }

  /** A container point is tagged with the container's id and name, carries
      its counters unchanged, and has status 1 exactly for "running". */
  lemma ContainerPointShape(c: ContainerMetrics)
    ensures ContainerPoint(c).measurement == "container_metrics"
    ensures ContainerPoint(c).tags == map["container_id" := c.id, "container_name" := c.name]
    ensures ContainerPoint(c).fields.Keys == {"cpu_usage", "memory_usage", "memory_limit", "status"}
    ensures ContainerPoint(c).fields["cpu_usage"] == Int(c.cpuUsage)
    ensures ContainerPoint(c).fields["memory_usage"] == Int(c.memoryUsage)
    ensures ContainerPoint(c).fields["memory_limit"] == Int(c.memoryLimit)
    ensures ContainerPoint(c).fields["status"] == Int(1) <==> c.status == "running"
    ensures ContainerPoint(c).fields["status"] == Int(0) <==> c.status != "running"
  {
  }

  /** What a cycle has written once the host point and the points of the
      containers `cs` are out: the host point first, then one point per
      container in order. */
  function CyclePoints(system: SystemMetrics, containerCount: int, cs: seq<ContainerMetrics>): seq<Point>
  {
    if cs == [] then [SystemPoint(system, containerCount)]
    else CyclePoints(system, containerCount, cs[..|cs| - 1]) + [ContainerPoint(cs[|cs| - 1])]
  }

  lemma {:induction false} CyclePointsMeaning(system: SystemMetrics, containerCount: int, cs: seq<ContainerMetrics>)
    ensures |CyclePoints(system, containerCount, cs)| == 1 + |cs|
    ensures CyclePoints(system, containerCount, cs)[0] == SystemPoint(system, containerCount)
    ensures forall i :: 0 <= i < |cs| ==> CyclePoints(system, containerCount, cs)[1 + i] == ContainerPoint(cs[i])
  {
    if cs != [] {
      var init := cs[..|cs| - 1];
      CyclePointsMeaning(system, containerCount, init);
      assert forall i :: 0 <= i < |init| ==> init[i] == cs[i];
    }
  }

  predicate CycleSucceeds(p: Probes)
  {
    p.cpuPercent.Ok? && p.memory.Ok? && p.listing.Ok? && AllStatsRead(p.listing.value)
  }

  /** The points one cycle writes, in write order. */
  function CycleWrites(p: Probes): seq<Point>
  {
    if CycleSucceeds(p) then
      var system := CollectSystemMetrics(p.cpuPercent, p.memory).value;
      CyclePoints(system, |p.listing.value|, Samples(p.listing.value))
    else []
  }

  /** A cycle writes exactly when no probe raises, and then 1 + n points for
      n listed containers: the host point, whose container count is n, and
      then container i's point at position 1 + i. */
  lemma CycleWritesShape(p: Probes)
    ensures CycleWrites(p) == [] <==> !CycleSucceeds(p)
    ensures CycleSucceeds(p) ==> |CycleWrites(p)| == 1 + |p.listing.value|
    ensures CycleSucceeds(p) ==>
      CycleWrites(p)[0] == SystemPoint(CollectSystemMetrics(p.cpuPercent, p.memory).value, |p.listing.value|)
    ensures CycleSucceeds(p) ==> forall i :: 0 <= i < |p.listing.value| ==>
      CycleWrites(p)[1 + i] == ContainerPoint(MetricsOf(p.listing.value[i]))
  {
    if CycleSucceeds(p) {
      CyclePointsMeaning(CollectSystemMetrics(p.cpuPercent, p.memory).value,
                         |p.listing.value|, Samples(p.listing.value));
    }
  }

  /** One cycle of the agent; `ok` is false where the cycle raises.  Both
      probes run before the first write, so a raising cycle writes nothing. */
  method SendMetricsToInfluxdb(store: Store, p: Probes) returns (ok: bool)
    modifies store
    ensures ok == CycleSucceeds(p)
    ensures store.points == old(store.points) + CycleWrites(p)
  {
    var system := CollectSystemMetrics(p.cpuPercent, p.memory);
    if system.Err? {
      return false;
    }
    var docker := CollectDockerMetrics(p.listing);
    if docker.Err? {
      return false;
    }
    var count := docker.value.containerCount;
    store.Write(SystemPoint(system.value, count));
    var containers := docker.value.containers;
    assert containers == Samples(p.listing.value);
    var i := 0;
    while i < |containers|
      invariant 0 <= i <= |containers|
      invariant store.points == old(store.points) + CyclePoints(system.value, count, containers[..i])
    {
      assert containers[..i + 1][..i] == containers[..i];
      store.Write(ContainerPoint(containers[i]));
      i := i + 1;
    }
    assert containers[..i] == containers;
    return true;
  }

  /** The delay before the next cycle: the collection interval after a
      cycle that completed, three times as long after one that raised. */
  function NextDelay(completed: bool): (d: nat)
    ensures completed ==> d == COLLECT_INTERVAL
    ensures !completed ==> d == 3 * COLLECT_INTERVAL
  {
    if completed then COLLECT_INTERVAL else ERROR_INTERVAL
  }

  /** All points written by a run of cycles, in write order. */
  function RunWrites(cycles: seq<Probes>): seq<Point>
  {
    if cycles == [] then [] else RunWrites(cycles[..|cycles| - 1]) + CycleWrites(cycles[|cycles| - 1])
  }

  lemma RunWritesStep(cycles: seq<Probes>, n: nat)
    requires n < |cycles|
    ensures RunWrites(cycles[..n + 1]) == RunWrites(cycles[..n]) + CycleWrites(cycles[n])
  {
    assert cycles[..n + 1][..n] == cycles[..n];
  }

  /** The agent's endless loop, over the first |cycles| cycles: every cycle
      runs whatever became of the one before, and each is followed by the
      delay its outcome picks. */
  method RunAgent(store: Store, cycles: seq<Probes>) returns (delays: seq<nat>)
    modifies store
    ensures |delays| == |cycles|
    ensures forall i :: 0 <= i < |cycles| ==> delays[i] == NextDelay(CycleSucceeds(cycles[i]))
    ensures store.points == old(store.points) + RunWrites(cycles)
  {
    delays := [];
    var n := 0;
    while n < |cycles|
      invariant 0 <= n <= |cycles|
      invariant |delays| == n
      invariant forall i :: 0 <= i < n ==> delays[i] == NextDelay(CycleSucceeds(cycles[i]))
      invariant store.points == old(store.points) + RunWrites(cycles[..n])
    {
      ghost var before := store.points;
      var ok := SendMetricsToInfluxdb(store, cycles[n]);
      assert store.points == old(store.points) + RunWrites(cycles[..n + 1]) by {
        RunWritesStep(cycles, n);
        assert store.points == before + CycleWrites(cycles[n]);
      }
      delays := delays + [NextDelay(ok)];
      n := n + 1;
    }
    assert cycles[..n] == cycles;
  }
}
