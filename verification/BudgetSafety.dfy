/** What every run of budget operations keeps. */
module BudgetSafety {
  import opened Prelude
  import opened BudgetSpec

  datatype Op = Reserve(kind: Kind) | Release(kind: Kind) | Promote | Demote

  /** A failed reserve or promote leaves the budget as it was. */
  function Step(c: Config, b: Budget, op: Op): Budget {
    match op
    case Reserve(k) => if ReserveError(c, b, k).None? then Charged(c, b, k) else b
    case Release(k) => Released(c, b, k)
    case Promote => if PromoteError(c, b).None? then Converted(c, b, 1) else b
    case Demote => Converted(c, b, -1)
  }

  function After(c: Config, ops: seq<Op>): Budget {
    if ops == [] then Budget(0.0, 0.0, 0.0, 0, 0) else Step(c, After(c, ops[..|ops| - 1]), ops[|ops| - 1])
  }

  /** The operation is about a unit that exists: nothing is released or converted that was not reserved. */
  predicate Matched(b: Budget, op: Op) {
    match op
    case Reserve(_) => true
    case Release(k) => CountOf(b, k) >= 1
    case Promote => b.headless >= 1
    case Demote => b.desktop >= 1
  }

  predicate MatchedRun(c: Config, ops: seq<Op>) {
    ops == [] || (MatchedRun(c, ops[..|ops| - 1]) && Matched(After(c, ops[..|ops| - 1]), ops[|ops| - 1]))
  }

  predicate SaneCosts(c: Config) {
    var h, d := c.headless, c.desktop;
    0.0 <= h.cpu <= d.cpu && 0.0 <= h.ram <= d.ram && 0.0 <= h.disk <= d.disk
    && 0.0 <= c.cpu && 0.0 <= c.ram && 0.0 <= c.disk
  }

  /** The running totals are the counts times the unit costs. */
  predicate Accurate(c: Config, b: Budget) {
    b.headless >= 0 && b.desktop >= 0 && b == Rebuilt(c, b.headless, b.desktop)
  }

  lemma MoreUnits(x: real, y: real, h: int, d: int, i: int, j: int)
    ensures (h + i) as real * x + (d + j) as real * y == h as real * x + d as real * y + i as real * x + j as real * y
  {
    assert (h + i) as real * x == h as real * x + i as real * x;
    assert (d + j) as real * y == d as real * y + j as real * y;
  }

  lemma RebuiltShift(c: Config, h: int, d: int, i: int, j: int)
    ensures var a, b := Rebuilt(c, h, d), Rebuilt(c, h + i, d + j);
      b.cpu == a.cpu + i as real * c.headless.cpu + j as real * c.desktop.cpu
      && b.ram == a.ram + i as real * c.headless.ram + j as real * c.desktop.ram
      && b.disk == a.disk + i as real * c.headless.disk + j as real * c.desktop.disk
  {
    MoreUnits(c.headless.cpu, c.desktop.cpu, h, d, i, j);
    MoreUnits(c.headless.ram, c.desktop.ram, h, d, i, j);
    MoreUnits(c.headless.disk, c.desktop.disk, h, d, i, j);
  }

  lemma NoNegativeUse(c: Config, h: nat, d: nat)
    requires SaneCosts(c)
    ensures var b := Rebuilt(c, h, d); b.cpu >= 0.0 && b.ram >= 0.0 && b.disk >= 0.0
  {
  }

  lemma StepAccurate(c: Config, b: Budget, op: Op)
    requires SaneCosts(c) && Accurate(c, b) && Matched(b, op)
    ensures Accurate(c, Step(c, b, op))
  {
    var h, d := b.headless, b.desktop;
    hide Rebuilt;
    match op
    case Reserve(k) => RebuiltShift(c, h, d, if k.Headless? then 1 else 0, if k.Headless? then 0 else 1);
    case Release(k) =>
      if k.Headless? {
        RebuiltShift(c, h, d, -1, 0);
        NoNegativeUse(c, h - 1, d);
      } else {
        RebuiltShift(c, h, d, 0, -1);
        NoNegativeUse(c, h, d - 1);
      }
    case Promote => RebuiltShift(c, h, d, -1, 1);
    case Demote => RebuiltShift(c, h, d, 1, -1);
  }

  /** Over every matched run the totals stay exact, so the state is the one rebuilt from the unit counts. */
  lemma {:induction false} RunAccurate(c: Config, ops: seq<Op>)
    requires SaneCosts(c) && MatchedRun(c, ops)
    ensures Accurate(c, After(c, ops))
  {
    if ops != [] {
      hide Accurate, Step, Matched;
      RunAccurate(c, ops[..|ops| - 1]);
      StepAccurate(c, After(c, ops[..|ops| - 1]), ops[|ops| - 1]);
    }
  }

  /** The lower bound that release applies changes nothing when a unit is there to release. */
  lemma ReleaseUndoesReserve(c: Config, b: Budget, k: Kind)
    requires SaneCosts(c) && Accurate(c, b)
    ensures Released(c, Charged(c, b, k), k) == b
  {
    NoNegativeUse(c, b.headless, b.desktop);
  }

  /** Releasing a unit that is there undoes a reservation, and lowers what is used. */
  lemma ReleaseKeeps(c: Config, b: Budget, k: Kind)
    requires SaneCosts(c) && Accurate(c, b) && CountOf(b, k) >= 1
    ensures Accurate(c, Released(c, b, k)) && Charged(c, Released(c, b, k), k) == b
    ensures WithinCounts(c, b) ==> WithinCounts(c, Released(c, b, k))
    ensures WithinCompute(c, b) ==> WithinCompute(c, Released(c, b, k))
    ensures WithinDisk(c, b) ==> WithinDisk(c, Released(c, b, k))
  {
    hide Rebuilt;
    StepAccurate(c, b, Release(k));
    var i, j := if k.Headless? then -1 else 0, if k.Headless? then 0 else -1;
    RebuiltShift(c, b.headless, b.desktop, i, j);
    NoNegativeUse(c, b.headless + i, b.desktop + j);
  }

  lemma DemoteUndoesPromote(c: Config, b: Budget)
    ensures Converted(c, Converted(c, b, 1), -1) == b
  {
  }

  // ----- Limits -----

  predicate WithinCounts(c: Config, b: Budget) {
    b.headless + b.desktop <= c.maxTotal && b.desktop <= c.maxDesktop
  }

  predicate WithinCompute(c: Config, b: Budget) {
    b.cpu <= c.cpu + TOLERANCE && b.ram <= c.ram + TOLERANCE
  }

  predicate WithinDisk(c: Config, b: Budget) {
    b.disk <= c.disk + TOLERANCE
  }

  predicate WithinHeadless(c: Config, b: Budget) {
    b.headless <= c.maxHeadless
  }

  /** reserve succeeds exactly when the budget with one more unit is still within every limit. */
  lemma ReserveExact(c: Config, b: Budget, k: Kind)
    requires WithinCounts(c, b) && WithinHeadless(c, b)
    ensures var more := Charged(c, b, k);
      ReserveError(c, b, k).None? <==>
      WithinCounts(c, more) && WithinHeadless(c, more) && WithinCompute(c, more) && WithinDisk(c, more)
  {
  }

  /** error names the first limit, in the order count, total, CPU, RAM and disk, that one more unit would exceed, with its figures. */
  predicate FirstExceeded(c: Config, b: Budget, k: Kind, error: Exhausted) {
    var count, max := if k == Headless then b.headless else b.desktop, if k == Headless then c.maxHeadless else c.maxDesktop;
    var cost := if k == Headless then c.headless else c.desktop;
    if count >= max then
      error == Exhausted(if k == Headless then "headless_count" else "desktop_count", count as real, max as real, 1.0)
    else if b.headless + b.desktop >= c.maxTotal then error == Exhausted("total_units", (b.headless + b.desktop) as real, c.maxTotal as real, 1.0)
    else if b.cpu + cost.cpu > c.cpu + 0.001 then error == Exhausted("cpu", b.cpu, c.cpu, cost.cpu)
    else if b.ram + cost.ram > c.ram + 0.001 then error == Exhausted("ram", b.ram, c.ram, cost.ram)
    else b.disk + cost.disk > c.disk + 0.001 && error == Exhausted("disk", b.disk, c.disk, cost.disk)
  }

  lemma ReserveErrorIsFirst(c: Config, b: Budget, k: Kind)
    ensures ReserveError(c, b, k).Some? ==> FirstExceeded(c, b, k, ReserveError(c, b, k).value)
  {
    assert "headless" + "_count" == "headless_count" && "desktop" + "_count" == "desktop_count";
  }

  /** promote succeeds exactly when the converted budget is within every limit it checks; can_promote checks the disk too. */
  lemma PromoteExact(c: Config, b: Budget)
    requires WithinCounts(c, b)
    ensures PromoteError(c, b).None? <==> WithinCounts(c, Converted(c, b, 1)) && WithinCompute(c, Converted(c, b, 1))
    ensures MayPromote(c, b) <==> PromoteError(c, b).None? && WithinDisk(c, Converted(c, b, 1))
  {
  }

  /** The two checks the code leaves out: the disk in promote, and the headless count in demote. */
  predicate GuardedDisk(c: Config, b: Budget, op: Op) {
    op.Promote? && PromoteError(c, b).None? ==> MayPromote(c, b)
  }

  predicate GuardedHeadless(c: Config, b: Budget, op: Op) {
    op.Demote? ==> b.headless < c.maxHeadless
  }

  lemma StepKeepsLimits(c: Config, b: Budget, op: Op)
    requires SaneCosts(c) && Accurate(c, b) && Matched(b, op) && WithinCounts(c, b) && WithinCompute(c, b)
    ensures WithinCounts(c, Step(c, b, op)) && WithinCompute(c, Step(c, b, op))
    ensures WithinDisk(c, b) ==> (WithinDisk(c, Step(c, b, op)) <==> GuardedDisk(c, b, op))
    ensures WithinHeadless(c, b) ==> (WithinHeadless(c, Step(c, b, op)) <==> GuardedHeadless(c, b, op))
  {
    hide Rebuilt;
    if op.Release? {
      StepAccurate(c, b, op);
      NoNegativeUse(c, b.headless, b.desktop);
    }
  }

  /** Every unguarded disk promotion and headless demotion in a run. */
  predicate DiskGuardedRun(c: Config, ops: seq<Op>) {
    ops == [] || (DiskGuardedRun(c, ops[..|ops| - 1]) && GuardedDisk(c, After(c, ops[..|ops| - 1]), ops[|ops| - 1]))
  }

  predicate HeadlessGuardedRun(c: Config, ops: seq<Op>) {
    ops == [] || (HeadlessGuardedRun(c, ops[..|ops| - 1]) && GuardedHeadless(c, After(c, ops[..|ops| - 1]), ops[|ops| - 1]))
  }

  /** The disk limit, or the headless limit, at every moment of a run. */
  predicate AlwaysWithinDisk(c: Config, ops: seq<Op>) {
    WithinDisk(c, After(c, ops)) && (ops != [] ==> AlwaysWithinDisk(c, ops[..|ops| - 1]))
  }

  predicate AlwaysWithinHeadless(c: Config, ops: seq<Op>) {
    WithinHeadless(c, After(c, ops)) && (ops != [] ==> AlwaysWithinHeadless(c, ops[..|ops| - 1]))
  }

  /**
   * Over every matched run the total, desktop, CPU and RAM limits hold. The disk limit holds throughout exactly when
   * can_promote held before every promotion that succeeded, the headless limit exactly when no demotion was at it.
   */
  lemma {:induction false} RunWithinLimits(c: Config, ops: seq<Op>)
    requires SaneCosts(c) && MatchedRun(c, ops)
    ensures WithinCounts(c, After(c, ops)) && WithinCompute(c, After(c, ops))
    ensures AlwaysWithinDisk(c, ops) <==> DiskGuardedRun(c, ops)
    ensures AlwaysWithinHeadless(c, ops) <==> HeadlessGuardedRun(c, ops)
  {
    if ops != [] {
      hide Accurate, Step, Matched, SaneCosts, WithinCounts, WithinCompute, WithinDisk, WithinHeadless, GuardedDisk, GuardedHeadless;
      var init := ops[..|ops| - 1];
      RunWithinLimits(c, init);
      RunAccurate(c, init);
      StepKeepsLimits(c, After(c, init), ops[|ops| - 1]);
    }
  }

  /** With disk for one headless unit but not for one desktop, reserving the one and promoting it exceeds the disk limit. */
  lemma PromoteCanExceedDisk(c: Config)
    requires SaneCosts(c) && c.maxHeadless >= 1 && c.maxDesktop >= 1 && c.maxTotal >= 1
    requires c.desktop.cpu <= c.cpu + TOLERANCE && c.desktop.ram <= c.ram + TOLERANCE
    requires c.headless.disk <= c.disk + TOLERANCE < c.desktop.disk
    ensures MatchedRun(c, [Reserve(Headless), Promote])
    ensures !WithinDisk(c, After(c, [Reserve(Headless), Promote])) && !AlwaysWithinDisk(c, [Reserve(Headless), Promote])
  {
    var ops := [Reserve(Headless), Promote];
    assert ops[..1] == [Reserve(Headless)] && ops[..1][..0] == [];
    var zero := Budget(0.0, 0.0, 0.0, 0, 0);
    assert After(c, ops[..1]) == Step(c, zero, Reserve(Headless)) by { assert After(c, ops[..1][..0]) == zero; }
    assert ReserveError(c, zero, Headless).None?;
    var one := After(c, ops[..1]);
    assert MatchedRun(c, ops[..1]);
    assert one == Budget(c.headless.cpu, c.headless.ram, c.headless.disk, 1, 0);
    assert PromoteError(c, one).None? && Converted(c, one, 1).disk == c.desktop.disk;
  }

  /** With room for one headless unit and one desktop, reserving both and demoting the desktop passes the headless limit. */
  lemma DemoteCanExceedHeadless(c: Config)
    requires SaneCosts(c) && c.maxHeadless == 1 && c.maxDesktop >= 1 && c.maxTotal >= 2
    requires c.headless.cpu + c.desktop.cpu <= c.cpu && c.headless.ram + c.desktop.ram <= c.ram
    requires c.headless.disk + c.desktop.disk <= c.disk
    ensures MatchedRun(c, [Reserve(Headless), Reserve(Desktop), Demote])
    ensures !WithinHeadless(c, After(c, [Reserve(Headless), Reserve(Desktop), Demote]))
  {
    var ops := [Reserve(Headless), Reserve(Desktop), Demote];
    var zero := Budget(0.0, 0.0, 0.0, 0, 0);
    assert ops[..2] == [Reserve(Headless), Reserve(Desktop)] && ops[..2][..1] == [Reserve(Headless)] && ops[..2][..1][..0] == [];
    assert After(c, ops[..2][..1]) == Step(c, zero, Reserve(Headless)) by { assert After(c, ops[..2][..1][..0]) == zero; }
    assert ReserveError(c, zero, Headless).None?;
    var one := Charged(c, zero, Headless);
    assert After(c, ops[..2][..1]) == one && MatchedRun(c, ops[..2][..1]);
    assert ReserveError(c, one, Desktop).None?;
    assert After(c, ops[..2]) == Charged(c, one, Desktop) && MatchedRun(c, ops[..2]);
    assert After(c, ops).headless == 2;
  }
}
