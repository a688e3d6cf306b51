/** Which scripts of an engine have a say, and in which order. */
module EngineLaws {
  import opened Wrappers
  import opened SieveEngine
  import opened Policy
  import opened PolicyLaws
  import opened ScriptLaws

  ghost predicate AllApprove(scripts: seq<Compiled>, ctx: Context, sets: MembershipSets) {
    forall i :: 0 <= i < |scripts| ==> Approves(Tier(scripts[i], ctx, sets))
  }

  ghost predicate AnyStops(scripts: seq<Compiled>, ctx: Context, sets: MembershipSets) {
    exists i :: 0 <= i < |scripts| && Stops(Tier(scripts[i], ctx, sets))
  }

  lemma TiersApprove(scripts: seq<Compiled>, ctx: Context, sets: MembershipSets)
    ensures (forall o :: o in Tiers(scripts, ctx, sets) ==> Approves(o)) <==> AllApprove(scripts, ctx, sets)
  {
    forall i | 0 <= i < |scripts| ensures Tiers(scripts, ctx, sets)[i] == Tier(scripts[i], ctx, sets) {}
    forall i | 0 <= i < |scripts| ensures Tier(scripts[i], ctx, sets) in Tiers(scripts, ctx, sets) {
      assert Tiers(scripts, ctx, sets)[i] == Tier(scripts[i], ctx, sets);
    }
  }

  lemma AllApproveConcat(a: seq<Compiled>, b: seq<Compiled>, ctx: Context, sets: MembershipSets)
    ensures AllApprove(a + b, ctx, sets) <==> AllApprove(a, ctx, sets) && AllApprove(b, ctx, sets)
  {
    forall i | 0 <= i < |b| ensures (a + b)[|a| + i] == b[i] {}
    if AllApprove(a + b, ctx, sets) {
      forall i | 0 <= i < |a| ensures Approves(Tier(a[i], ctx, sets)) { assert (a + b)[i] == a[i]; }
    }
  }

  /**
   * Approval at intake, on the engine's own tables: the gate, every global drop-in, every drop-in of the
   * list's domain, and the list's policy, which must exist.
   */
  lemma BeforeApproval(engine: PolicyEngine, name: string, domain: string, ctx: Context, sets: MembershipSets)
    ensures Approves(Before(engine, name, domain, ctx, sets)) <==>
      && Approves(Tier(DmarcBefore, ctx, sets))
      && AllApprove(engine.globalBefore, ctx, sets)
      && (domain in engine.domains ==> AllApprove(engine.domains[domain].before, ctx, sets))
      && name in engine.policies && Approves(Tier(engine.policies[name], ctx, sets))
  {
    var local := if domain in engine.domains then engine.domains[domain].before else [];
    BeforeApprovesIff(Tiers(BeforeScripts(engine, domain), ctx, sets), ListPolicy(engine, name, ctx, sets));
    TiersApprove(BeforeScripts(engine, domain), ctx, sets);
    AllApproveConcat([DmarcBefore] + engine.globalBefore, local, ctx, sets);
    AllApproveConcat([DmarcBefore], engine.globalBefore, ctx, sets);
    assert AllApprove([DmarcBefore], ctx, sets) <==> Approves(Tier(DmarcBefore, ctx, sets)) by {
      assert [DmarcBefore][0] == DmarcBefore;
    }
  }

  /** Approval at distribution time: the gate, every drop-in of the list's domain, every global drop-in. */
  lemma AfterApproval(engine: PolicyEngine, domain: string, ctx: Context, sets: MembershipSets)
    ensures Approves(After(engine, domain, ctx, sets)) <==>
      && Approves(Tier(DmarcAfter, ctx, sets))
      && (domain in engine.domains ==> AllApprove(engine.domains[domain].after, ctx, sets))
      && AllApprove(engine.globalAfter, ctx, sets)
  {
    var local := if domain in engine.domains then engine.domains[domain].after else [];
    FoldApproves(NEUTRAL, Tiers(AfterScripts(engine, domain), ctx, sets));
    TiersApprove(AfterScripts(engine, domain), ctx, sets);
    AllApproveConcat([DmarcAfter] + local, engine.globalAfter, ctx, sets);
    AllApproveConcat([DmarcAfter], local, ctx, sets);
    assert AllApprove([DmarcAfter], ctx, sets) <==> Approves(Tier(DmarcAfter, ctx, sets)) by {
      assert [DmarcAfter][0] == DmarcAfter;
    }
  }

  /** Once the scripts ahead have stopped the chain, what follows them does not matter. */
  lemma StoppedBy(a: seq<Compiled>, b: seq<Compiled>, ctx: Context, sets: MembershipSets)
    requires AnyStops(a, ctx, sets)
    ensures Fold(NEUTRAL, Tiers(a + b, ctx, sets)) == Fold(NEUTRAL, Tiers(a, ctx, sets))
    ensures Stops(Fold(NEUTRAL, Tiers(a, ctx, sets)))
  {
    var outs := Tiers(a, ctx, sets);
    var i :| 0 <= i < |a| && Stops(Tier(a[i], ctx, sets));
    assert outs[i] in outs;
    RunsThrough(NEUTRAL, outs);
    FoldTiers(NEUTRAL, a, b, ctx, sets);
  }

  /** At intake, global drop-ins come before those of the domain, and both before the list policy. */
  lemma GlobalBeforeFirst(
      e: PolicyEngine, f: PolicyEngine, name: string, domain: string, ctx: Context, sets: MembershipSets)
    requires e.globalBefore == f.globalBefore && AnyStops(e.globalBefore, ctx, sets)
    ensures Before(e, name, domain, ctx, sets) == Before(f, name, domain, ctx, sets)
  {
    var first := [DmarcBefore] + e.globalBefore;
    var i :| 0 <= i < |e.globalBefore| && Stops(Tier(e.globalBefore[i], ctx, sets));
    assert first[i + 1] == e.globalBefore[i];
    StoppedBy(first, DomainBefore(e, domain), ctx, sets);
    StoppedBy(first, DomainBefore(f, domain), ctx, sets);
  }

  /** At distribution time it is the other way round: the domain's drop-ins come before the global ones. */
  lemma DomainAfterFirst(e: PolicyEngine, f: PolicyEngine, domain: string, ctx: Context, sets: MembershipSets)
    requires domain in e.domains && domain in f.domains && e.domains[domain].after == f.domains[domain].after
    requires AnyStops(e.domains[domain].after, ctx, sets)
    ensures After(e, domain, ctx, sets) == After(f, domain, ctx, sets)
  {
    var local := e.domains[domain].after;
    var first := [DmarcAfter] + local;
    var i :| 0 <= i < |local| && Stops(Tier(local[i], ctx, sets));
    assert first[i + 1] == local[i];
    StoppedBy(first, e.globalAfter, ctx, sets);
    StoppedBy(first, f.globalAfter, ctx, sets);
  }

  // ---- Failures ----

  predicate ScriptFailure(r: Result<Outcome>) {
    r.Err? ==> r.error == Auth || r.error == Error.Config
  }

  lemma {:induction false} FoldFailure(acc: Outcome, outs: seq<Result<Outcome>>)
    requires forall o :: o in outs ==> ScriptFailure(o)
    ensures ScriptFailure(Fold(acc, outs))
    decreases |outs|
  {
    if outs != [] && !Terminal(acc.decision) {
      assert outs[0] in outs;
      if outs[0].Ok? {
        assert forall o :: o in outs[1..] ==> o in outs;
        FoldFailure(Merge(acc, outs[0].value), outs[1..]);
      }
    }
  }

  lemma TiersFail(scripts: seq<Compiled>, ctx: Context, sets: MembershipSets)
    ensures forall o :: o in Tiers(scripts, ctx, sets) ==> ScriptFailure(o)
  {
    forall i | 0 <= i < |scripts| ensures ScriptFailure(Tiers(scripts, ctx, sets)[i]) {
      ScriptErrors(scripts[i](ctx), sets, Inert);
    }
  }

  /** A chain fails only with a script's runtime error, a refused include, or an unknown policy. */
  lemma ChainFailure(engine: PolicyEngine, name: string, domain: string, ctx: Context, sets: MembershipSets)
    ensures ScriptFailure(Before(engine, name, domain, ctx, sets)) && ScriptFailure(After(engine, domain, ctx, sets))
  {
    TiersFail(BeforeScripts(engine, domain), ctx, sets);
    TiersFail(AfterScripts(engine, domain), ctx, sets);
    FoldFailure(NEUTRAL, Tiers(BeforeScripts(engine, domain), ctx, sets));
    FoldFailure(NEUTRAL, Tiers(AfterScripts(engine, domain), ctx, sets));
    if name in engine.policies {
      ScriptErrors(engine.policies[name](ctx), sets, Inert);
    }
  }

  // ---- Flags of a completed chain ----

  /** Some script of the sequence files into the folder. */
  ghost predicate SomeFiles(scripts: seq<Compiled>, ctx: Context, sets: MembershipSets, folder: string) {
    exists i :: 0 <= i < |scripts| && Files(Path(scripts[i](ctx), sets, Inert).events, folder)
  }

  /**
   * In a chain that approves, every script has run to its end, so each flag is set exactly when some
   * script filed into the folder that stands for it.
   */
  lemma AfterFlags(engine: PolicyEngine, domain: string, ctx: Context, sets: MembershipSets)
    requires Approves(After(engine, domain, ctx, sets))
    ensures var (out, scripts) := (After(engine, domain, ctx, sets).value, AfterScripts(engine, domain));
      && (out.archive <==> SomeFiles(scripts, ctx, sets, "archive"))
      && (out.noOwnDkim <==> SomeFiles(scripts, ctx, sets, "no-dkim"))
      && (out.mungeFrom <==> SomeFiles(scripts, ctx, sets, "munge-from"))
  {
    var scripts := AfterScripts(engine, domain);
    var outs := Tiers(scripts, ctx, sets);
    FoldApproves(NEUTRAL, outs);
    FoldIsClosedForm(NEUTRAL, outs);
    AllRan(outs);
    assert outs[..|outs|] == outs;
    forall i | 0 <= i < |scripts|
      ensures outs[i].Ok? && ReadsAs(Path(scripts[i](ctx), sets, Inert).events, outs[i].value)
    {
      assert outs[i] in outs;
      ContributionIs(scripts[i], ctx, sets);
    }
    FlagsOf(outs, scripts, ctx, sets);
  }

  lemma FlagsOf(outs: seq<Result<Outcome>>, scripts: seq<Compiled>, ctx: Context, sets: MembershipSets)
    requires |outs| == |scripts|
    requires forall i :: 0 <= i < |scripts| ==>
      outs[i].Ok? && ReadsAs(Path(scripts[i](ctx), sets, Inert).events, outs[i].value)
    ensures AnyArchives(outs) <==> SomeFiles(scripts, ctx, sets, "archive")
    ensures AnyWithholdsDkim(outs) <==> SomeFiles(scripts, ctx, sets, "no-dkim")
    ensures AnyMunges(outs) <==> SomeFiles(scripts, ctx, sets, "munge-from")
  {
    forall i | 0 <= i < |scripts|
      ensures (outs[i].value.archive <==> Files(Path(scripts[i](ctx), sets, Inert).events, "archive"))
      ensures (outs[i].value.noOwnDkim <==> Files(Path(scripts[i](ctx), sets, Inert).events, "no-dkim"))
      ensures (outs[i].value.mungeFrom <==> Files(Path(scripts[i](ctx), sets, Inert).events, "munge-from"))
      ensures outs[i] in outs
    {
    }
  }
}
