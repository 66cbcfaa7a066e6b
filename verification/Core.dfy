/** The orchestration of plan, apply and validate (server_setup/core.py). */
module Core {

  import opened Text
  import opened Wrappers
  import opened Plans
  import opened Host
  import opened Progress
  import opened Modules
  import opened Dispatch

  function ModuleNames(mods: seq<Module>): (r: seq<string>)
    ensures |r| == |mods|
    ensures forall i | 0 <= i < |mods| :: r[i] == Name(mods[i])
  {
    seq(|mods|, i requires 0 <= i < |mods| => Name(mods[i]))
  }

  predicate ValidModules(mods: seq<Module>) {
    && (forall i | 0 <= i < |mods| :: Strip(Name(mods[i])) != "")
    && (forall i, j | 0 <= i < j < |mods| :: Name(mods[i]) != Name(mods[j]))
  }

  /** The plans of all modules, in module order. */
  function PlanOf(mods: seq<Module>, env: Environment, m: Machine, cfg: Config): Plan {
    if mods == [] then []
    else PlanOf(mods[..|mods| - 1], env, m, cfg) + ModulePlan(mods[|mods| - 1], env, m, cfg)
  }

  function ReportOf(mods: seq<Module>, env: Environment, m: Machine, cfg: Config): Report {
    if mods == [] then []
    else ReportOf(mods[..|mods| - 1], env, m, cfg) + ModuleReport(mods[|mods| - 1], env, m, cfg)
  }

  predicate HasUnknown(mods: seq<Module>, p: Plan) {
    exists c | c in p :: c.owner !in ModuleNames(mods)
  }

  /**
   One meaning of drift: for any selection of the modules, any host and any configuration, the plan holds a change
   exactly when validation fails.
   */
  lemma {:induction false} DriftAgrees(mods: seq<Module>, env: Environment, m: Machine, cfg: Config)
    ensures HasChanges(PlanOf(mods, env, m, cfg)) <==> !Healthy(ReportOf(mods, env, m, cfg))
    ensures HasChanges(PlanOf(mods, env, m, cfg)) <==> PlanOf(mods, env, m, cfg) != []
  {
    hide ModulePlan, ModuleReport;
    if mods != [] {
      var init, last := mods[..|mods| - 1], mods[|mods| - 1];
      DriftAgrees(init, env, m, cfg);
      ModuleDrift(last, env, m, cfg);
      var p, q := PlanOf(init, env, m, cfg), ModulePlan(last, env, m, cfg);
      SomeChange(q);
      assert HasChanges(p + q) <==> HasChanges(p) || HasChanges(q);
      HealthyConcat(ReportOf(init, env, m, cfg), ModuleReport(last, env, m, cfg));
    }
  }

  lemma HealthyConcat(a: Report, b: Report)
    ensures Healthy(a + b) <==> Healthy(a) && Healthy(b)
  {
    if Healthy(a + b) {
      forall i | 0 <= i < |a| ensures a[i].status != Fail { assert (a + b)[i] == a[i]; }
      forall i | 0 <= i < |b| ensures b[i].status != Fail { assert (a + b)[|a| + i] == b[i]; }
    }
  }

  lemma {:induction false} PlanOfConforms(mods: seq<Module>, env: Environment, m: Machine, cfg: Config)
    ensures forall c | c in PlanOf(mods, env, m, cfg) ::
              Conforms(cfg, c) && c.owner in ModuleNames(mods) && c.kind != Noop
  {
    hide ModulePlan, Conforms;
    if mods != [] {
      var init, last := mods[..|mods| - 1], mods[|mods| - 1];
      PlanOfConforms(init, env, m, cfg);
      PlanConforms(last, env, m, cfg);
      assert ModuleNames(mods)[|mods| - 1] == Name(last);
      forall name | name in ModuleNames(init) ensures name in ModuleNames(mods) {
        var i :| 0 <= i < |init| && ModuleNames(init)[i] == name;
        assert ModuleNames(mods)[i] == name;
      }
    }
  }

  class ServerSetupCore {
    const config: Config
    const modules: seq<Module>
    const sys: System
    /** The batches handed to the modules so far, with the name of the module. */
    ghost var handed: seq<(string, Plan)>

    constructor (config: Config, modules: seq<Module>, sys: System)
      requires ValidModules(modules)
      ensures this.config == config && this.modules == modules && this.sys == sys && handed == []
    {
      this.config := config;
      this.modules := modules;
      this.sys := sys;
      handed := [];
    }

    /** `plan()`: asks each module in turn and refuses changes owned by another module. */
    method MakePlan() returns (r: Result<Plan>)
      ensures r == Ok(PlanOf(modules, sys.env, sys.host, config))
    {
      hide ModulePlan;
      var changes: Plan := [];
      for i := 0 to |modules|
        invariant changes == PlanOf(modules[..i], sys.env, sys.host, config)
      {
        assert modules[..i + 1][..i] == modules[..i];
        var own := ModulePlan(modules[i], sys.env, sys.host, config);
        for j := 0 to |own| {
          if own[j].owner != Name(modules[i]) {
            return Raised(CoreError);
          }
        }
        changes := changes + own;
      }
      assert modules[..|modules|] == modules;
      return Ok(changes);
    }

    /** `validate()`. */
    method Validate() returns (r: Result<Report>)
      ensures r == Ok(ReportOf(modules, sys.env, sys.host, config))
    {
      hide ModuleReport;
      var results: Report := [];
      for i := 0 to |modules|
        invariant results == ReportOf(modules[..i], sys.env, sys.host, config)
      {
        assert modules[..i + 1][..i] == modules[..i];
        var own := ModuleReport(modules[i], sys.env, sys.host, config);
        for j := 0 to |own| {
          if own[j].owner != Name(modules[i]) {
            return Raised(CoreError);
          }
        }
        results := results + own;
      }
      assert modules[..|modules|] == modules;
      return Ok(results);
    }

    /**
     `apply(plan)`: refuses a plan with unknown owners or terminal changes before anything happens; otherwise hands
     every module its batch, in module order, until one of them raises.
     */
    method Apply(selected: Option<Plan>) returns (r: Result<Plan>)
      modifies this, sys
      ensures old(sys.trace) <= sys.trace
      ensures Journal(sys.env, old(sys.host), sys.trace, |old(sys.trace)|, sys.host)
      ensures Told(AsOutcome(r), sys.trace, |old(sys.trace)|)
      ensures Retryable(sys.env, old(sys.host), sys.trace, |old(sys.trace)|, sys.host)
      ensures var plan := if selected.Some? then selected.value else PlanOf(modules, sys.env, old(sys.host), config);
              && (r.Ok? ==> r.value == plan && !HasUnknown(modules, plan) && !HasTerminal(plan))
              && (r.Raised? && r.error != CommandError ==>
                    HasUnknown(modules, plan) || HasTerminal(plan) || Refusable(modules, plan))
              && (HasUnknown(modules, plan) ==> r == Raised(CoreError))
              && (!HasUnknown(modules, plan) && HasTerminal(plan) ==> r == Raised(ModuleApplyError))
              && (HasUnknown(modules, plan) || HasTerminal(plan) || OpensUnsupported(modules, plan) ==>
                    r.Raised? && sys.host == old(sys.host) && sys.trace == old(sys.trace))
              && (r.Ok? ==> handed == old(handed) + Batches(ModuleNames(modules), plan))
              && (Batches(ModuleNames(modules), plan) == [] ==>
                    sys.host == old(sys.host) && sys.trace == old(sys.trace))
              && (r.Ok? ==>
                    Progressed(sys.env, config, Flat(Batches(ModuleNames(modules), plan)), old(sys.host), sys.host))
              && (Batch(plan, MonitoringModule.NAME) == [] ==> sys.host.running == old(sys.host).running)
              && (Batch(plan, DokployModule.NAME) == [] ==> sys.host.docker == old(sys.host).docker)
    {
      var plan: Plan;
      if selected.Some? {
        plan := selected.value;
      } else {
        var planned := MakePlan();
        plan := planned.value;
      }
      QuietStart(sys.host.ufw, sys.trace);
      QuietJournal(sys.env, sys.host, sys.trace, |sys.trace|, sys.host);
      ToldNothing(Failed(CoreError), sys.trace);
      ToldNothing(Failed(ModuleApplyError), sys.trace);
      RetryableBySameParts(sys.env, sys.host, sys.trace, |sys.trace|, sys.host);
      if HasUnknown(modules, plan) {
        return Raised(CoreError);
      }
      if HasTerminal(plan) {
        return Raised(ModuleApplyError);
      }
      r := Distribute(plan);
    }

    /** Hands module `i` its batch, if it has one. */
    method HandOver(i: nat, plan: Plan) returns (r: Outcome)
      requires i < |modules|
      modifies this, sys
      ensures old(sys.trace) <= sys.trace
      ensures Journal(sys.env, old(sys.host), sys.trace, |old(sys.trace)|, sys.host)
      ensures r.Done? ==> Carried(sys.env, old(sys.host), sys.host)
      ensures Told(r, sys.trace, |old(sys.trace)|)
      ensures Retryable(sys.env, old(sys.host), sys.trace, |old(sys.trace)|, sys.host)
      ensures r.Failed? && r.error != CommandError ==> Refusable(modules, plan)
      ensures r.Done? ==> Progressed(sys.env, config, Batch(plan, Name(modules[i])), old(sys.host), sys.host)
      ensures var batch := Batch(plan, Name(modules[i]));
              && handed == old(handed) + (if batch != [] then [(Name(modules[i]), batch)] else [])
              && (batch == [] ==> r.Done? && sys.host == old(sys.host) && sys.trace == old(sys.trace))
              && (i == 0 && OpensUnsupported(modules, plan) ==>
                    r.Failed? && sys.host == old(sys.host) && sys.trace == old(sys.trace))
      ensures Batch(plan, MonitoringModule.NAME) == [] ==> sys.host.running == old(sys.host).running
      ensures Batch(plan, DokployModule.NAME) == [] ==> sys.host.docker == old(sys.host).docker
    {
      hide Progressed, Journal, Carried, Quiet, Told, Retryable;
      var batch := Batch(plan, Name(modules[i]));
      if batch == [] {
        NothingProgressed(sys.env, config, sys.host);
        QuietStart(sys.host.ufw, sys.trace);
        QuietJournal(sys.env, sys.host, sys.trace, |sys.trace|, sys.host);
        CarriedBySameFiles(sys.env, sys.host, sys.host);
        ToldNothing(Done, sys.trace);
        RetryableBySameParts(sys.env, sys.host, sys.trace, |sys.trace|, sys.host);
        return Done;
      }
      handed := handed + [(Name(modules[i]), batch)];
      r := ApplyModule(modules[i], sys, batch, config);
    }

    method Distribute(plan: Plan) returns (r: Result<Plan>)
      modifies this, sys
      ensures old(sys.trace) <= sys.trace
      ensures Journal(sys.env, old(sys.host), sys.trace, |old(sys.trace)|, sys.host)
      ensures Told(AsOutcome(r), sys.trace, |old(sys.trace)|)
      ensures Retryable(sys.env, old(sys.host), sys.trace, |old(sys.trace)|, sys.host)
      ensures r.Raised? && r.error != CommandError ==> Refusable(modules, plan)
      ensures r.Ok? ==> r.value == plan
      ensures r.Ok? ==> handed == old(handed) + Batches(ModuleNames(modules), plan)
      ensures r.Ok? ==> Progressed(sys.env, config, Flat(Batches(ModuleNames(modules), plan)), old(sys.host), sys.host)
      ensures Batches(ModuleNames(modules), plan) == [] ==> sys.host == old(sys.host) && sys.trace == old(sys.trace)
      ensures OpensUnsupported(modules, plan) ==> r.Raised? && sys.host == old(sys.host) && sys.trace == old(sys.trace)
      ensures Batch(plan, MonitoringModule.NAME) == [] ==> sys.host.running == old(sys.host).running
      ensures Batch(plan, DokployModule.NAME) == [] ==> sys.host.docker == old(sys.host).docker
    {
      hide Progressed, Journal, Carried, Quiet, Told, Retryable, Refusable, Batch, Batches, Flat, ModuleNames, Name;
      ghost var start, n := sys.host, |sys.trace|;
      NothingProgressed(sys.env, config, start);
      QuietStart(start.ufw, sys.trace);
      QuietJournal(sys.env, start, sys.trace, n, sys.host);
      CarriedBySameFiles(sys.env, start, start);
      ghost var names := ModuleNames(modules);
      NoBatches(plan);
      ToldNothing(Done, sys.trace);
      RetryableBySameParts(sys.env, start, sys.trace, n, start);
      for i := 0 to |modules|
        invariant old(sys.trace) <= sys.trace
        invariant handed == old(handed) + Batches(names[..i], plan)
        invariant Journal(sys.env, start, sys.trace, n, sys.host)
        invariant Told(Done, sys.trace, n)
        invariant Retryable(sys.env, start, sys.trace, n, sys.host)
        invariant Carried(sys.env, start, sys.host)
        invariant Progressed(sys.env, config, Flat(Batches(names[..i], plan)), start, sys.host)
        invariant Batches(names, plan) == [] ==> sys.host == start && sys.trace == old(sys.trace)
        invariant i == 0 ==> sys.host == start && sys.trace == old(sys.trace)
        invariant Batch(plan, MonitoringModule.NAME) == [] ==> sys.host.running == start.running
        invariant Batch(plan, DokployModule.NAME) == [] ==> sys.host.docker == start.docker
        invariant i > 0 ==> !OpensUnsupported(modules, plan)
      {
        ghost var before, steps := sys.host, sys.trace;
        ghost var batch := Batch(plan, names[i]);
        var outcome := HandOver(i, plan);
        JournalJoin(sys.env, start, steps, n, before, sys.trace, sys.host);
        ToldJoin(outcome, steps, sys.trace, n);
        RetryableJoin(sys.env, start, steps, n, before, sys.trace, sys.host);
        if batch != [] { BatchesNonempty(names, i, plan); }
        if outcome.Failed? {
          return Raised(outcome.error);
        }
        CarriedTransitive(sys.env, start, before, sys.host);
        ProgressAdds(sys.env, config, Flat(Batches(names[..i], plan)), batch, start, before, sys.host);
        BatchesStep(names, i, plan);
        FlatOfBatches(names[..i + 1], plan);
        assert names[..i + 1][..i] == names[..i];
      }
      assert names[..|modules|] == names;
      return Ok(plan);
    }
  }

  /** `ServerSetupCore(...)`: module names must be non-empty and distinct. */
  method Assemble(config: Config, modules: seq<Module>, sys: System) returns (r: Result<ServerSetupCore>)
    ensures r.Ok? <==> ValidModules(modules)
    ensures r.Raised? ==> r.error == CoreError
    ensures r.Ok? ==> fresh(r.value) && r.value.config == config && r.value.modules == modules && r.value.sys == sys
  {
    if !ValidModules(modules) {
      return Raised(CoreError);
    }
    var core := new ServerSetupCore(config, modules, sys);
    return Ok(core);
  }

  /** Some change of the plan may be refused by its own module although no command fails. */
  ghost predicate Refusable(mods: seq<Module>, p: Plan) {
    exists mod, c :: mod in mods && c in p && c.owner == Name(mod) && MayRefuse(mod, c)
  }

  /** How a run ended, without what it returned. */
  function AsOutcome(r: Result<Plan>): Outcome {
    if r.Ok? then Done else Failed(r.error)
  }

  /** The first module is the base module and the first change it is handed refuses the host. */
  predicate OpensUnsupported(mods: seq<Module>, p: Plan) {
    mods != [] && mods[0].HostBase? &&
    var batch := Batch(p, HostModule.NAME); batch != [] && batch[0].action.UnsupportedHost?
  }
}
