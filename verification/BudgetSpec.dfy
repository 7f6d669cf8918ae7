/** The resource budget of a sandbox host as a value: limits, costs, and what each operation makes of it. */
module BudgetSpec {
  import opened Prelude

  datatype Kind = Headless | Desktop

  datatype Cost = Cost(cpu: real, ram: real, disk: real)

  datatype Config = Config(headless: Cost, desktop: Cost, maxHeadless: nat, maxDesktop: nat, maxTotal: nat,
                           cpu: real, ram: real, disk: real)

  const TOLERANCE: real := 0.001

  datatype Budget = Budget(cpu: real, ram: real, disk: real, headless: int, desktop: int)

  datatype Exhausted = Exhausted(resource: string, used: real, budget: real, requested: real)

  function CostOf(c: Config, k: Kind): Cost {
    if k.Headless? then c.headless else c.desktop
  }

  function CountOf(b: Budget, k: Kind): int {
    if k.Headless? then b.headless else b.desktop
  }

  function MaxOf(c: Config, k: Kind): nat {
    if k.Headless? then c.maxHeadless else c.maxDesktop
  }

  function KindName(k: Kind): string {
    if k.Headless? then "headless" else "desktop"
  }

  function Max0(x: real): real {
    if x < 0.0 then 0.0 else x
  }

  // ----- The operations on a budget value -----

  /** The first limit, in checking order, that one more unit would exceed. */
  function ReserveError(c: Config, b: Budget, k: Kind): Option<Exhausted> {
    var cost := CostOf(c, k);
    if CountOf(b, k) >= MaxOf(c, k) then
      Some(Exhausted(KindName(k) + "_count", CountOf(b, k) as real, MaxOf(c, k) as real, 1.0))
    else if b.headless + b.desktop >= c.maxTotal then
      Some(Exhausted("total_units", (b.headless + b.desktop) as real, c.maxTotal as real, 1.0))
    else if b.cpu + cost.cpu > c.cpu + TOLERANCE then Some(Exhausted("cpu", b.cpu, c.cpu, cost.cpu))
    else if b.ram + cost.ram > c.ram + TOLERANCE then Some(Exhausted("ram", b.ram, c.ram, cost.ram))
    else if b.disk + cost.disk > c.disk + TOLERANCE then Some(Exhausted("disk", b.disk, c.disk, cost.disk))
    else None
  }

  function Charged(c: Config, b: Budget, k: Kind): Budget {
    var cost := CostOf(c, k);
    Budget(b.cpu + cost.cpu, b.ram + cost.ram, b.disk + cost.disk,
           if k.Headless? then b.headless + 1 else b.headless, if k.Desktop? then b.desktop + 1 else b.desktop)
  }

  function Released(c: Config, b: Budget, k: Kind): Budget {
    var cost := CostOf(c, k);
    Budget(Max0(b.cpu - cost.cpu), Max0(b.ram - cost.ram), Max0(b.disk - cost.disk),
           if k.Desktop? then b.headless else if b.headless < 1 then 0 else b.headless - 1,
           if k.Headless? then b.desktop else if b.desktop < 1 then 0 else b.desktop - 1)
  }

  /** What turning a headless unit into a desktop adds. */
  function Net(c: Config): Cost {
    Cost(c.desktop.cpu - c.headless.cpu, c.desktop.ram - c.headless.ram, c.desktop.disk - c.headless.disk)
  }

  predicate MayPromote(c: Config, b: Budget) {
    b.desktop < c.maxDesktop
    && b.cpu + Net(c).cpu <= c.cpu + TOLERANCE
    && b.ram + Net(c).ram <= c.ram + TOLERANCE
    && b.disk + Net(c).disk <= c.disk + TOLERANCE
  }

  /** promote checks the desktop count, CPU and RAM, but not the disk. */
  function PromoteError(c: Config, b: Budget): Option<Exhausted> {
    if b.desktop >= c.maxDesktop then Some(Exhausted("desktop_count", b.desktop as real, c.maxDesktop as real, 1.0))
    else if b.cpu + Net(c).cpu > c.cpu + TOLERANCE then Some(Exhausted("cpu", b.cpu, c.cpu, Net(c).cpu))
    else if b.ram + Net(c).ram > c.ram + TOLERANCE then Some(Exhausted("ram", b.ram, c.ram, Net(c).ram))
    else None
  }

  function Converted(c: Config, b: Budget, desktops: int): Budget {
    var n := desktops as real;
    Budget(b.cpu + n * Net(c).cpu, b.ram + n * Net(c).ram, b.disk + n * Net(c).disk, b.headless - desktops, b.desktop + desktops)
  }

  /** The state for a known number of running units. */
  function Rebuilt(c: Config, headless: int, desktop: int): (r: Budget)
    ensures r.headless == headless && r.desktop == desktop
  {
    var h, d := headless as real, desktop as real;
    Budget(h * c.headless.cpu + d * c.desktop.cpu, h * c.headless.ram + d * c.desktop.ram,
           h * c.headless.disk + d * c.desktop.disk, headless, desktop)
  }

  datatype Snapshot = Snapshot(b: Budget, c: Config, total: int)

  predicate CanAdd(s: Snapshot, k: Kind) {
    CountOf(s.b, k) < MaxOf(s.c, k)
    && s.total < s.c.maxTotal
    && s.b.cpu + CostOf(s.c, k).cpu <= s.c.cpu + TOLERANCE
    && s.b.ram + CostOf(s.c, k).ram <= s.c.ram + TOLERANCE
    && s.b.disk + CostOf(s.c, k).disk <= s.c.disk + TOLERANCE
  }
}
