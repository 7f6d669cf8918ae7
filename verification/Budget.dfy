/** The live resource budget of a sandbox host. */
module BudgetModule {
  import opened Prelude
  import opened BudgetSpec
  import opened BudgetSafety

  class CapacityBudget {
    const config: Config
    var cpu: real
    var ram: real
    var disk: real
    var headless: int
    var desktop: int

    function State(): Budget
      reads this
    {
      Budget(cpu, ram, disk, headless, desktop)
    }

    constructor (config: Config)
      ensures this.config == config && State() == Budget(0.0, 0.0, 0.0, 0, 0)
    {
      this.config := config;
      cpu, ram, disk, headless, desktop := 0.0, 0.0, 0.0, 0, 0;
    }

    method Reserve(k: Kind) returns (error: Option<Exhausted>)
      modifies this
      ensures error == ReserveError(config, old(State()), k)
      ensures State() == if error.None? then Charged(config, old(State()), k) else old(State())
      ensures SaneCosts(config) && Accurate(config, old(State())) ==> Accurate(config, State())
      ensures error.Some? ==> FirstExceeded(config, old(State()), k, error.value)
    {
      ReserveErrorIsFirst(config, State(), k);
      if SaneCosts(config) && Accurate(config, State()) {
        StepAccurate(config, State(), BudgetSafety.Reserve(k));
      }
      var cost := CostOf(config, k);
      var typeCount := if k.Headless? then headless else desktop;
      var typeLimit := if k.Headless? then config.maxHeadless else config.maxDesktop;
      if typeCount >= typeLimit {
        return Some(Exhausted(KindName(k) + "_count", typeCount as real, typeLimit as real, 1.0));
      }
      var total := headless + desktop;
      if total >= config.maxTotal {
        return Some(Exhausted("total_units", total as real, config.maxTotal as real, 1.0));
      }
      if cpu + cost.cpu > config.cpu + TOLERANCE {
        return Some(Exhausted("cpu", cpu, config.cpu, cost.cpu));
      }
      if ram + cost.ram > config.ram + TOLERANCE {
        return Some(Exhausted("ram", ram, config.ram, cost.ram));
      }
      if disk + cost.disk > config.disk + TOLERANCE {
        return Some(Exhausted("disk", disk, config.disk, cost.disk));
      }
      cpu, ram, disk := cpu + cost.cpu, ram + cost.ram, disk + cost.disk;
      if k.Headless? { headless := headless + 1; } else { desktop := desktop + 1; }
      return None;
    }

    method Release(k: Kind)
      modifies this
      ensures State() == Released(config, old(State()), k)
      ensures cpu >= 0.0 && ram >= 0.0 && disk >= 0.0 && CountOf(State(), k) >= 0
      ensures SaneCosts(config) && Accurate(config, old(State())) && CountOf(old(State()), k) >= 1 ==>
        Accurate(config, State()) && Charged(config, State(), k) == old(State())
        && (WithinCounts(config, old(State())) ==> WithinCounts(config, State()))
        && (WithinCompute(config, old(State())) ==> WithinCompute(config, State()))
        && (WithinDisk(config, old(State())) ==> WithinDisk(config, State()))
    {
      if SaneCosts(config) && Accurate(config, State()) && CountOf(State(), k) >= 1 {
        ReleaseKeeps(config, State(), k);
      }
      var cost := CostOf(config, k);
      cpu, ram, disk := Max0(cpu - cost.cpu), Max0(ram - cost.ram), Max0(disk - cost.disk);
      if k.Headless? {
        headless := if headless - 1 < 0 then 0 else headless - 1;
      } else {
        desktop := if desktop - 1 < 0 then 0 else desktop - 1;
      }
    }

    method CanPromote() returns (ok: bool)
      ensures ok == MayPromote(config, State())
      ensures ok <==> PromoteError(config, State()).None? && WithinDisk(config, Converted(config, State(), 1))
    {
      var net := Net(config);
      return desktop < config.maxDesktop && cpu + net.cpu <= config.cpu + TOLERANCE
             && ram + net.ram <= config.ram + TOLERANCE && disk + net.disk <= config.disk + TOLERANCE;
    }

    method Promote() returns (error: Option<Exhausted>)
      modifies this
      ensures error == PromoteError(config, old(State()))
      ensures State() == if error.None? then Converted(config, old(State()), 1) else old(State())
    {
      var net := Net(config);
      if desktop >= config.maxDesktop {
        return Some(Exhausted("desktop_count", desktop as real, config.maxDesktop as real, 1.0));
      }
      if cpu + net.cpu > config.cpu + TOLERANCE { return Some(Exhausted("cpu", cpu, config.cpu, net.cpu)); }
      if ram + net.ram > config.ram + TOLERANCE { return Some(Exhausted("ram", ram, config.ram, net.ram)); }
      cpu, ram, disk := cpu + net.cpu, ram + net.ram, disk + net.disk;
      headless, desktop := headless - 1, desktop + 1;
      return None;
    }

    method Demote()
      modifies this
      ensures State() == Converted(config, old(State()), -1)
      ensures Converted(config, State(), 1) == old(State())
      ensures SaneCosts(config) && Accurate(config, old(State())) && old(desktop) >= 1 ==> Accurate(config, State())
      ensures WithinCounts(config, old(State())) && WithinCompute(config, old(State())) ==> PromoteError(config, State()).None?
      ensures WithinHeadless(config, State()) <==> old(headless) < config.maxHeadless
    {
      if SaneCosts(config) && Accurate(config, State()) && desktop >= 1 {
        StepAccurate(config, State(), BudgetSafety.Demote);
      }
      var net := Net(config);
      cpu, ram, disk := cpu - net.cpu, ram - net.ram, disk - net.disk;
      desktop, headless := desktop - 1, headless + 1;
    }

    method TakeSnapshot() returns (s: Snapshot)
      ensures s == Snapshot(State(), config, headless + desktop)
      ensures forall k :: CanAdd(s, k) <==> ReserveError(config, State(), k).None?
    {
      return Snapshot(Budget(cpu, ram, disk, headless, desktop), config, headless + desktop);
    }

    method RebuildFromUnits(h: nat, d: nat)
      modifies this
      ensures State() == Rebuilt(config, h, d) && Accurate(config, State())
      ensures forall b: Budget :: Accurate(config, b) && b.headless == h && b.desktop == d ==> b == State()
    {
      headless, desktop := h, d;
      cpu := h as real * config.headless.cpu + d as real * config.desktop.cpu;
      ram := h as real * config.headless.ram + d as real * config.desktop.ram;
      disk := h as real * config.headless.disk + d as real * config.desktop.disk;
    }
  }
}
