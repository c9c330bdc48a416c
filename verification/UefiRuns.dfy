/** Whole runs of the driver on UEFI: what the firmware's page table and processor do. */
module UefiRuns {
  import opened Common
  import opened CommonModel
  import opened Invariant
  import opened Machine
  import opened Safety
  import opened UefiLedger
  import P = Platform
  import U = Uefi

  // ---- The pages in the firmware's table -----------------------------------------------------

  ghost function TableSum(pages: map<nat, nat>): nat
    decreases pages.Keys
  {
    if pages == map[] then 0
    else
      var a :| a in pages;
      assert (pages - {a}).Keys == pages.Keys - {a};
      pages[a] + TableSum(pages - {a})
  }

  lemma {:induction false} TableSumRemove(pages: map<nat, nat>, a: nat)
    requires a in pages
    ensures TableSum(pages) == pages[a] + TableSum(pages - {a})
    decreases pages.Keys
  {
    var c :| c in pages && TableSum(pages) == pages[c] + TableSum(pages - {c});
    hide TableSum;
    if c != a {
      assert (pages - {a}).Keys == pages.Keys - {a} && (pages - {c}).Keys == pages.Keys - {c};
      TableSumRemove(pages - {c}, a);
      TableSumRemove(pages - {a}, c);
      assert pages - {c} - {a} == pages - {a} - {c};
    }
  }

  lemma {:induction false} TableIsLedger(live: multiset<Block>, pages: map<nat, nat>)
    requires MemoryOk(live) && U.Tracks(live, pages)
    ensures TableSum(pages) == PageSum(live)
    decreases |live|
  {
    hide TableSum, PageSum;
    if live == multiset{} {
      assert pages == map[];
      NoPages();
    } else {
      var b :| b in live;
      U.FreeAgrees(live, pages, b);
      FewerIsOk(live, b);
      TableIsLedger(live - multiset{b}, pages - {b.addr});
      TableSumRemove(pages, b.addr);
      PageSumRemove(live, b);
    }
  }

  lemma NoPages()
    ensures TableSum(map[]) == 0 && PageSum(multiset{}) == 0
  {
  }

  lemma FewerIsOk(live: multiset<Block>, b: Block)
    requires MemoryOk(live)
    ensures MemoryOk(live - multiset{b})
  {
  }

  // ---- Runs ----------------------------------------------------------------------------------

  lemma {:induction false} RunSnoc(e: Env, s: State, ops: seq<Op>, op: Op)
    ensures Run(e, s, ops + [op]) == Step(e, Run(e, s, ops), op).s
    decreases ops
  {
    hide Step;
    if ops == [] {
      assert [] + [op] == [op];
      assert Run(e, Step(e, s, op).s, []) == Step(e, s, op).s;
    } else {
      assert (ops + [op])[1..] == ops[1..] + [op];
      RunSnoc(e, Step(e, s, ops[0]).s, ops[1..], op);
    }
  }

  /** A table that tracks all live blocks tracks those the driver holds exactly when these are all. */
  lemma TracksHeld(e: Env, s: State, pages: map<nat, nat>)
    requires Inv(e, s) && U.Tracks(s.m.mem.live, pages)
    ensures U.Tracks(Held(s.g.a), pages) <==> Unheld(s) == multiset{}
  {
    hide Held;
    HeldIsLive(e, s);
    if U.Tracks(Held(s.g.a), pages) && Unheld(s) != multiset{} {
      var b :| b in Unheld(s);
      var c :| c in Held(s.g.a) && c.addr == b.addr;
      U.SameAddressSameBlock(s.m.mem.live, b, c);
      assert false;
    }
  }

  /** At the end of any run a firmware table that tracks the live blocks holds the pages handed out and
      not given back; its ranges are the blocks the driver holds exactly when no load was a retry. */
  lemma UefiPages(e: Env, cpu: nat, ops: seq<Op>, pages: map<nat, nat>)
    requires U.Tracks(Run(e, Boot(cpu), ops).m.mem.live, pages)
    ensures
      var s := Run(e, Boot(cpu), ops);
      && s.m.mem.pagesOut == s.m.mem.pagesBack + TableSum(pages)
      && (TableSum(pages) == PageSum(Held(s.g.a)) <==> NoRetry(e, Boot(cpu), ops))
      && (U.Tracks(Held(s.g.a), pages) <==> NoRetry(e, Boot(cpu), ops))
  {
    hide Run, NoRetry, Held, Unheld, PageSum, TableSum, Boot, U.Tracks;
    PagesAreConserved(e, cpu, ops);
    BootIsSafe(e, cpu);
    EveryRunIsSafe(e, Boot(cpu), ops);
    BootBalanced(cpu);
    RunBalanced(e, Boot(cpu), ops);
    TableIsLedger(Run(e, Boot(cpu), ops).m.mem.live, pages);
    TracksHeld(e, Run(e, Boot(cpu), ops), pages);
    LossAlongRun(e, Boot(cpu), ops);
  }

  /** Any sequence of calls computes the run of the model. */
  method PerformAll(driver: Driver, ops: seq<Op>)
    requires driver.Valid() && Inv(driver.platform.env, driver.View())
    modifies driver, driver.modules, driver.platform, driver.platform.uefi.fw
    ensures driver.Valid() && driver.View() == Run(driver.platform.env, old(driver.View()), ops)
  {
    hide Inv, Step, P.Platform.Valid;
    ghost var e, s0 := driver.platform.env, driver.View();
    assert ops[..0] == [];
    for i := 0 to |ops|
      invariant driver.Valid() && driver.View() == Run(e, s0, ops[..i])
      invariant Inv(e, driver.View())
    {
      hide Run;
      RunSnoc(e, s0, ops[..i], ops[i]);
      assert ops[..i + 1] == ops[..i] + [ops[i]];
      var _ := driver.Perform(ops[i]);
    }
    assert ops[..|ops|] == ops;
  }

  /** The program, from its constructor on, over a firmware with nothing allocated. Whatever the
      calls and whatever the firmware answers: the driver computes the run of the model, the firmware
      is on the processor of the machine, its table holds the pages handed out and not given back,
      and its ranges are the blocks the driver still holds exactly when no load was a retry. */
  method RunOnUefi(env: Env, cpu: nat, ops: seq<Op>) returns (driver: Driver)
    requires env.os.Uefi?
    ensures driver.Valid() && driver.View() == Run(env, Boot(cpu), ops)
    ensures driver.platform.uefi.fw.processor == Run(env, Boot(cpu), ops).m.cpu
    ensures Run(env, Boot(cpu), ops).m.mem.pagesOut
         == Run(env, Boot(cpu), ops).m.mem.pagesBack + TableSum(driver.platform.uefi.fw.pages)
    ensures TableSum(driver.platform.uefi.fw.pages) == PageSum(Held(driver.View().g.a))
       <==> NoRetry(env, Boot(cpu), ops)
    ensures U.Tracks(Held(driver.View().g.a), driver.platform.uefi.fw.pages) <==> NoRetry(env, Boot(cpu), ops)
  {
    hide Inv, Unheld, Run, TableSum, PageSum, NoRetry, Held;
    BootIsSafe(env, cpu);
    var fw := new U.Firmware(cpu);
    var uefi := new U.Layer(fw);
    var platform := new P.Platform(env, Boot(cpu).m, uefi);
    driver := new Driver(platform);
    PerformAll(driver, ops);
    UefiPages(env, cpu, ops, fw.pages);
  }

  /** When processor switches succeed, a start or stop that succeeds leaves the firmware on the
      processor it was on. */
  method StartOrStop(driver: Driver, op: Op) returns (ret: Ret)
    requires driver.Valid() && Inv(driver.platform.env, driver.View())
    requires Switches(driver.platform.env) && (op == StartOp || op == StopOp)
    modifies driver, driver.modules, driver.platform, driver.platform.uefi.fw
    ensures driver.Valid() && Out(driver.View(), ret) == Step(driver.platform.env, old(driver.View()), op)
    ensures ret == Success ==> driver.platform.uefi.fw.processor == old(driver.platform.uefi.fw.processor)
  {
    hide Inv, Start, Stop, Switches, U.Tracks;
    CallerKeepsProcessor(driver.platform.env, driver.View());
    assert driver.platform.env.os.Uefi? by {
      SwitchesOnUefi(driver.platform.env);
    }
    ret := driver.Perform(op);
  }

  lemma SwitchesOnUefi(e: Env)
    requires Switches(e)
    ensures e.os.Uefi?
  {
  }
}
