/** What the policy chain guarantees for any scripts whatever. */
module PolicyLaws {
  import opened Wrappers
  import opened SieveEngine
  import opened Policy

  // ---- The fold in closed form ----

  predicate Stops(out: Result<Outcome>) {
    out.Err? || Terminal(out.value.decision)
  }

  /** How many of the scripts run: up to and including the first that stops the chain. */
  function Ran(outs: seq<Result<Outcome>>): (n: nat)
    ensures n <= |outs|
    ensures forall i :: 0 <= i < n - 1 ==> !Stops(outs[i])
    ensures n < |outs| ==> n > 0 && Stops(outs[n - 1])
  {
    if outs == [] then 0
    else if Stops(outs[0]) then 1
    else 1 + Ran(outs[1..])
  }

  ghost predicate AnyModerates(outs: seq<Result<Outcome>>) {
    exists o :: o in outs && o.Ok? && o.value.decision.Moderate?
  }

  ghost predicate AnyArchives(outs: seq<Result<Outcome>>) {
    exists o :: o in outs && o.Ok? && o.value.archive
  }

  ghost predicate AnyWithholdsDkim(outs: seq<Result<Outcome>>) {
    exists o :: o in outs && o.Ok? && o.value.noOwnDkim
  }

  ghost predicate AnyMunges(outs: seq<Result<Outcome>>) {
    exists o :: o in outs && o.Ok? && o.value.mungeFrom
  }

  /** The first decision that stops the chain; else a hold if any script asked for one; else approval. */
  ghost function ClosedForm(outs: seq<Result<Outcome>>): Result<Outcome> {
    var n := Ran(outs);
    if n > 0 && outs[n - 1].Err? then Err(outs[n - 1].error)
    else
      var ran := outs[..n];
      Ok(Outcome(
        if n > 0 && Terminal(outs[n - 1].value.decision) then outs[n - 1].value.decision
        else if AnyModerates(ran) then Moderate
        else Approve,
        AnyArchives(ran), AnyWithholdsDkim(ran), AnyMunges(ran)))
  }

  ghost function WithPrior(acc: Outcome, r: Result<Outcome>): Result<Outcome> {
    match r case Err(e) => Err(e) case Ok(out) => Ok(Merge(acc, out))
  }

  lemma ClosedFormCons(outs: seq<Result<Outcome>>)
    requires outs != [] && !Stops(outs[0])
    ensures ClosedForm(outs) == WithPrior(outs[0].value, ClosedForm(outs[1..]))
  {
    var n := Ran(outs);
    assert n == 1 + Ran(outs[1..]);
    assert n > 1 ==> outs[n - 1] == outs[1..][n - 2];
    AnyOfCons(outs, n);
  }

  /** The mutable accumulator computes the closed form, whatever it held before. */
  lemma {:induction false} FoldIsClosedForm(acc: Outcome, outs: seq<Result<Outcome>>)
    requires !Terminal(acc.decision)
    ensures Fold(acc, outs) == WithPrior(acc, ClosedForm(outs))
    decreases |outs|
  {
    if outs == [] || outs[0].Err? {
    } else if Stops(outs[0]) {
      assert outs[..1] == [outs[0]];
      assert Fold(Merge(acc, outs[0].value), outs[1..]) == Ok(Merge(acc, outs[0].value));
    } else {
      FoldIsClosedForm(Merge(acc, outs[0].value), outs[1..]);
      ClosedFormCons(outs);
    }
  }

  lemma AnyOfCons(outs: seq<Result<Outcome>>, n: nat)
    requires 0 < n <= |outs| && outs[0].Ok?
    ensures var out, tail := outs[0].value, outs[1..][..n - 1];
      && (AnyModerates(outs[..n]) <==> out.decision.Moderate? || AnyModerates(tail))
      && (AnyArchives(outs[..n]) <==> out.archive || AnyArchives(tail))
      && (AnyWithholdsDkim(outs[..n]) <==> out.noOwnDkim || AnyWithholdsDkim(tail))
      && (AnyMunges(outs[..n]) <==> out.mungeFrom || AnyMunges(tail))
  {
  }

  /** The whole before half: drop-ins in closed form, then the list's policy if they leave it open. */
  lemma BeforeIsClosedForm(outs: seq<Result<Outcome>>, policy: Result<Outcome>)
    ensures DecideBefore(outs, policy) ==
      match ClosedForm(outs)
      case Err(e) => Err(e)
      case Ok(acc) => if acc.decision.Approve? then WithPrior(acc, policy) else Ok(acc)
  {
    FoldIsClosedForm(NEUTRAL, outs);
  }

  // ---- Approval needs unanimity ----

  predicate Approves(out: Result<Outcome>) {
    out.Ok? && out.value.decision.Approve?
  }

  /** A chain approves exactly when every one of its scripts does. */
  lemma {:induction false} FoldApproves(acc: Outcome, outs: seq<Result<Outcome>>)
    ensures Approves(Fold(acc, outs)) <==> acc.decision.Approve? && forall o :: o in outs ==> Approves(o)
    decreases |outs|
  {
    if outs != [] {
      if outs[0].Ok? {
        FoldApproves(Merge(acc, outs[0].value), outs[1..]);
      }
      assert outs == [outs[0]] + outs[1..];
      assert outs[0] in outs;
    }
  }

  /** A post is approved at intake exactly when every drop-in and the list's own policy approve. */
  lemma BeforeApprovesIff(outs: seq<Result<Outcome>>, policy: Result<Outcome>)
    ensures Approves(DecideBefore(outs, policy)) <==> Approves(policy) && forall o :: o in outs ==> Approves(o)
  {
    FoldApproves(NEUTRAL, outs);
  }

  /** Adding a before drop-in anywhere never turns a non-approval into an approval. */
  lemma InsertNeverApproves(
      engine: PolicyEngine, extended: PolicyEngine, name: string, domain: string, ctx: Context, sets: MembershipSets,
      a: seq<Compiled>, x: Compiled, b: seq<Compiled>)
    requires extended.policies == engine.policies
    requires BeforeScripts(engine, domain) == a + b && BeforeScripts(extended, domain) == a + [x] + b
    requires Approves(Before(extended, name, domain, ctx, sets))
    ensures Approves(Before(engine, name, domain, ctx, sets))
  {
    var outs, outs' := Tiers(a + b, ctx, sets), Tiers(a + [x] + b, ctx, sets);
    BeforeApprovesIff(outs, ListPolicy(engine, name, ctx, sets));
    BeforeApprovesIff(outs', ListPolicy(extended, name, ctx, sets));
    forall o | o in outs ensures Approves(o) {
      var i :| 0 <= i < |outs| && outs[i] == o;
      var j := if i < |a| then i else i + 1;
      assert (a + [x] + b)[j] == (a + b)[i];
      assert outs'[j] == o;
    }
  }

  // ---- Severity ----

  /** Approval, then a hold, then anything that keeps the post from going out. */
  function Rank(r: Result<Outcome>): nat {
    match r
    case Err(_) => 2
    case Ok(out) => if Terminal(out.decision) then 2 else if out.decision.Moderate? then 1 else 0
  }

  lemma {:induction false} FoldRankMonotone(lo: Outcome, hi: Outcome, outs: seq<Result<Outcome>>)
    requires Rank(Ok(lo)) <= Rank(Ok(hi))
    ensures Rank(Fold(lo, outs)) <= Rank(Fold(hi, outs))
    decreases |outs|
  {
    if outs != [] && outs[0].Ok? && !Terminal(lo.decision) && !Terminal(hi.decision) {
      FoldRankMonotone(Merge(lo, outs[0].value), Merge(hi, outs[0].value), outs[1..]);
    }
  }

  /** One more contribution never lowers the severity of those ahead of it, nor of the chain. */
  lemma FoldInsert(acc: Outcome, a: seq<Result<Outcome>>, x: Result<Outcome>, b: seq<Result<Outcome>>)
    ensures Rank(Fold(acc, a + b)) <= Rank(Fold(acc, a + [x] + b))
  {
    FoldConcat(acc, a, b);
    FoldConcat(acc, a + [x], b);
    FoldConcat(acc, a, [x]);
    var first := Fold(acc, a);
    if first.Ok? && !Terminal(first.value.decision) && x.Ok? {
      FoldOne(first.value, x);
      FoldRankMonotone(first.value, Merge(first.value, x.value), b);
    }
  }

  lemma FoldOne(acc: Outcome, x: Result<Outcome>)
    requires !Terminal(acc.decision)
    ensures Fold(acc, [x]) == WithPrior(acc, x)
  {
    if x.Ok? {
      assert Fold(acc, [x]) == Fold(Merge(acc, x.value), [x][1..]);
    }
  }

  /** Adding an after drop-in anywhere never lowers the severity of the result. */
  lemma InsertNeverLowersRank(
      engine: PolicyEngine, extended: PolicyEngine, domain: string, ctx: Context, sets: MembershipSets,
      a: seq<Compiled>, x: Compiled, b: seq<Compiled>)
    requires AfterScripts(engine, domain) == a + b && AfterScripts(extended, domain) == a + [x] + b
    ensures Rank(After(engine, domain, ctx, sets)) <= Rank(After(extended, domain, ctx, sets))
  {
    TiersInsert(a, x, b, ctx, sets);
    FoldInsert(NEUTRAL, Tiers(a, ctx, sets), Tier(x, ctx, sets), Tiers(b, ctx, sets));
  }

  lemma TiersInsert(a: seq<Compiled>, x: Compiled, b: seq<Compiled>, ctx: Context, sets: MembershipSets)
    ensures Tiers(a + b, ctx, sets) == Tiers(a, ctx, sets) + Tiers(b, ctx, sets)
    ensures Tiers(a + [x] + b, ctx, sets) == Tiers(a, ctx, sets) + [Tier(x, ctx, sets)] + Tiers(b, ctx, sets)
  {
  }

  // ---- When a before drop-in softens ----

  /** The list policy decides when every drop-in approves, and the drop-ins decide otherwise. */
  lemma DecideRank(outs: seq<Result<Outcome>>, policy: Result<Outcome>)
    ensures Rank(DecideBefore(outs, policy)) ==
      if forall o :: o in outs ==> Approves(o) then Rank(policy) else Rank(Fold(NEUTRAL, outs))
  {
    FoldApproves(NEUTRAL, outs);
  }

  lemma {:induction false} ApprovalsKeepRank(acc: Outcome, outs: seq<Result<Outcome>>)
    requires forall o :: o in outs ==> Approves(o)
    ensures Rank(Fold(acc, outs)) == Rank(Ok(acc))
    decreases |outs|
  {
    if outs != [] && !Terminal(acc.decision) {
      assert outs[0] in outs;
      assert forall o :: o in outs[1..] ==> o in outs;
      ApprovalsKeepRank(Merge(acc, outs[0].value), outs[1..]);
    }
  }

  /** Among approving drop-ins, the one that does not approve sets the severity. */
  lemma OnlyDissent(a: seq<Result<Outcome>>, x: Result<Outcome>, b: seq<Result<Outcome>>)
    requires forall o :: o in a + b ==> Approves(o)
    ensures Rank(Fold(NEUTRAL, a + [x] + b)) == Rank(x)
  {
    assert forall o :: o in a ==> o in a + b;
    assert forall o :: o in b ==> o in a + b;
    FoldConcat(NEUTRAL, a + [x], b);
    FoldConcat(NEUTRAL, a, [x]);
    FoldApproves(NEUTRAL, a);
    var first := Fold(NEUTRAL, a).value;
    FoldOne(first, x);
    if x.Ok? {
      ApprovalsKeepRank(Merge(first, x.value), b);
    }
  }

  /**
   * Adding a before drop-in lowers the severity of the outcome exactly when everything else ahead of
   * the list policy approves, the addition asks for a hold, and the list policy would have refused,
   * dropped or failed: the hold keeps it from being heard.
   */
  lemma InsertSoftensIff(a: seq<Result<Outcome>>, x: Result<Outcome>, b: seq<Result<Outcome>>, policy: Result<Outcome>)
    ensures Rank(DecideBefore(a + [x] + b, policy)) < Rank(DecideBefore(a + b, policy)) <==>
      && (forall o :: o in a + b ==> Approves(o))
      && x.Ok? && x.value.decision.Moderate?
      && Rank(policy) == 2
  {
    DecideRank(a + b, policy);
    DecideRank(a + [x] + b, policy);
    FoldInsert(NEUTRAL, a, x, b);
    assert forall o :: o in a + [x] + b <==> o in a + b || o == x;
    if forall o :: o in a + b ==> Approves(o) {
      OnlyDissent(a, x, b);
    }
  }

  /** The same for scripts inserted at any place among the before drop-ins of an engine. */
  lemma InsertMaySoftenReject(
      engine: PolicyEngine, extended: PolicyEngine, name: string, domain: string, ctx: Context, sets: MembershipSets,
      a: seq<Compiled>, x: Compiled, b: seq<Compiled>)
    requires extended.policies == engine.policies
    requires BeforeScripts(engine, domain) == a + b && BeforeScripts(extended, domain) == a + [x] + b
    ensures Rank(Before(extended, name, domain, ctx, sets)) < Rank(Before(engine, name, domain, ctx, sets)) <==>
      && (forall o :: o in Tiers(a + b, ctx, sets) ==> Approves(o))
      && Tier(x, ctx, sets).Ok? && Tier(x, ctx, sets).value.decision.Moderate?
      && Rank(ListPolicy(engine, name, ctx, sets)) == 2
  {
    TiersInsert(a, x, b, ctx, sets);
    InsertSoftensIff(Tiers(a, ctx, sets), Tier(x, ctx, sets), Tiers(b, ctx, sets), ListPolicy(engine, name, ctx, sets));
  }

  // ---- What a hold among the before drop-ins settles ----

  /** A chain runs to its end without a terminal decision or a failure exactly when none of its scripts stops it. */
  lemma {:induction false} RunsThrough(acc: Outcome, outs: seq<Result<Outcome>>)
    requires !Terminal(acc.decision)
    ensures !Stops(Fold(acc, outs)) <==> forall o :: o in outs ==> !Stops(o)
    decreases |outs|
  {
    if outs != [] {
      assert outs == [outs[0]] + outs[1..] && outs[0] in outs;
      if !Stops(outs[0]) {
        RunsThrough(Merge(acc, outs[0].value), outs[1..]);
      }
    }
  }

  /** Once a hold has been asked for, the decision is never approval again. */
  lemma {:induction false} NeverApprovedAgain(acc: Outcome, outs: seq<Result<Outcome>>)
    requires !acc.decision.Approve?
    ensures Fold(acc, outs).Ok? ==> !Fold(acc, outs).value.decision.Approve?
    decreases |outs|
  {
    if outs != [] && !Terminal(acc.decision) && outs[0].Ok? {
      NeverApprovedAgain(Merge(acc, outs[0].value), outs[1..]);
    }
  }

  predicate Holds(r: Result<Outcome>) {
    r.Ok? && r.value.decision.Moderate?
  }

  /**
   * A hold does not stop the chain, it silences the list policy only: from a hold that the chain
   * reaches, at any place, the outcome is that hold merged with what all the drop-ins after it amount to.
   */
  lemma HoldDoesNotStop(a: seq<Result<Outcome>>, hold: Outcome, b: seq<Result<Outcome>>, policy: Result<Outcome>)
    requires !Stops(Fold(NEUTRAL, a)) && hold.decision.Moderate?
    ensures DecideBefore(a + [Ok(hold)] + b, policy)
         == WithPrior(Merge(Fold(NEUTRAL, a).value, hold), ClosedForm(b))
  {
    var first := Fold(NEUTRAL, a).value;
    FoldConcat(NEUTRAL, a + [Ok(hold)], b);
    FoldConcat(NEUTRAL, a, [Ok(hold)]);
    FoldOne(first, Ok(hold));
    FoldIsClosedForm(Merge(first, hold), b);
    NeverApprovedAgain(Merge(first, hold), b);
  }

  /**
   * When a hold does settle the matter: a post is held for it, wherever it is asked for, exactly when no
   * other drop-in refuses, drops or fails.
   */
  lemma HoldStandsIff(a: seq<Result<Outcome>>, hold: Outcome, b: seq<Result<Outcome>>, policy: Result<Outcome>)
    requires hold.decision.Moderate?
    ensures Holds(DecideBefore(a + [Ok(hold)] + b, policy)) <==> forall o :: o in a + b ==> !Stops(o)
  {
    var whole := a + [Ok(hold)] + b;
    RunsThrough(NEUTRAL, whole);
    FoldApproves(NEUTRAL, whole);
    var x: Result<Outcome> := Ok(hold);
    assert whole[|a|] == x && !Approves(x) && !Stops(x);
    assert forall o :: o in whole <==> o in a + b || o == x;
    assert !Approves(Fold(NEUTRAL, whole));
    DecideHolds(whole, policy);
  }

  /** Where the drop-ins do not approve, the outcome is theirs. */
  lemma DecideHolds(outs: seq<Result<Outcome>>, policy: Result<Outcome>)
    requires !Approves(Fold(NEUTRAL, outs))
    ensures DecideBefore(outs, policy) == Fold(NEUTRAL, outs)
  {
  }

  /** The flags of `o` are among those of `out`. */
  predicate FlagsWithin(o: Outcome, out: Outcome) {
    (o.archive ==> out.archive) && (o.noOwnDkim ==> out.noOwnDkim) && (o.mungeFrom ==> out.mungeFrom)
  }

  /** If nothing stops the chain, every script has run. */
  lemma AllRan(outs: seq<Result<Outcome>>)
    requires forall o :: o in outs ==> !Stops(o)
    ensures Ran(outs) == |outs|
  {
  }

  /**
   * When skipping the later drop-ins would make no difference at all, flags included: exactly when none
   * of them stops the chain or asks for a side effect that was not asked for already.
   */
  lemma HoldSkipsIff(a: seq<Result<Outcome>>, hold: Outcome, b: seq<Result<Outcome>>, policy: Result<Outcome>)
    requires !Stops(Fold(NEUTRAL, a)) && hold.decision.Moderate?
    ensures DecideBefore(a + [Ok(hold)] + b, policy) == DecideBefore(a + [Ok(hold)], policy) <==>
      forall o :: o in b ==> !Stops(o) && FlagsWithin(o.value, Merge(Fold(NEUTRAL, a).value, hold))
  {
    HoldDoesNotStop(a, hold, b, policy);
    HoldDoesNotStop(a, hold, [], policy);
    assert a + [Ok(hold)] + [] == a + [Ok(hold)];
    WithoutEffectIff(Merge(Fold(NEUTRAL, a).value, hold), b);
    WithoutEffectIff(Merge(Fold(NEUTRAL, a).value, hold), []);
  }

  lemma WithoutEffectIff(acc: Outcome, b: seq<Result<Outcome>>)
    requires acc.decision.Moderate?
    ensures WithPrior(acc, ClosedForm(b)) == Ok(acc) <==>
      forall o :: o in b ==> !Stops(o) && FlagsWithin(o.value, acc)
  {
    FoldIsClosedForm(acc, b);
    RunsThrough(acc, b);
    if forall o :: o in b ==> !Stops(o) {
      AllRan(b);
      assert b[..|b|] == b;
    }
  }

  /** The same for scripts, at any place among the before drop-ins of an engine that the chain reaches. */
  lemma EngineHoldStandsIff(
      engine: PolicyEngine, name: string, domain: string, ctx: Context, sets: MembershipSets,
      a: seq<Compiled>, x: Compiled, b: seq<Compiled>)
    requires BeforeScripts(engine, domain) == a + [x] + b
    requires !Stops(Fold(NEUTRAL, Tiers(a, ctx, sets))) && Holds(Tier(x, ctx, sets))
    ensures var soFar := Merge(Fold(NEUTRAL, Tiers(a, ctx, sets)).value, Tier(x, ctx, sets).value);
      Before(engine, name, domain, ctx, sets) == WithPrior(soFar, ClosedForm(Tiers(b, ctx, sets)))
    ensures Holds(Before(engine, name, domain, ctx, sets)) <==> forall o :: o in Tiers(b, ctx, sets) ==> !Stops(o)
  {
    var outs, hold, rest := Tiers(a, ctx, sets), Tier(x, ctx, sets).value, Tiers(b, ctx, sets);
    TiersInsert(a, x, b, ctx, sets);
    HoldDoesNotStop(outs, hold, rest, ListPolicy(engine, name, ctx, sets));
    HoldStandsIff(outs, hold, rest, ListPolicy(engine, name, ctx, sets));
    RunsThrough(NEUTRAL, outs);
    assert forall o :: o in outs + rest <==> o in outs || o in rest;
  }

  // ---- The DMARC gate ----

  predicate FailsDmarc(ctx: Context) {
    Says(ctx, DMARC_PASS, "no")
  }

  predicate RequestsEnforcement(ctx: Context) {
    !Says(ctx, DMARC_POLICY, "none")
  }

  /** A script that raises one action and stops. */
  lemma SingleAction(e: Event, sets: MembershipSets)
    requires Answer(e, sets, Inert) == Some(true)
    ensures Conclude(Path(Emit(e, Halt, Halt), sets, Inert)) == Ok(SieveRun(
      if Decisive(e) then Verdict(e) else Keep,
      if e.CreatedMessage? then Some(e.message) else None,
      if e.FileInto? then [e.folder] else []))
  {
    var t := Path(Emit(e, Halt, Halt), sets, Inert);
    assert t == Path(Halt, sets, Inert).(events := [e] + Path(Halt, sets, Inert).events);
    assert t == Trace([e], Ended, Inert);
    FirstDecisiveSnoc([], e);
    LastMessageSnoc([], e);
    DestinationsSnoc([], e);
    var none: seq<Event> := [];
    assert none + [e] == [e];
    assert FirstDecisive([e]) == if Decisive(e) then Verdict(e) else Keep;
    assert LastMessage([e]) == if e.CreatedMessage? then Some(e.message) else None;
    assert Destinations([e]) == if e.FileInto? then [e.folder] else [];
  }

  /** No configured script can run, let alone speak, once the gate has refused. */
  lemma GateStopsChain(outs: seq<Result<Outcome>>, rest: seq<Result<Outcome>>)
    requires |outs| == 1 && outs[0].Ok? && Terminal(outs[0].value.decision)
    ensures Fold(NEUTRAL, outs + rest) == Ok(Merge(NEUTRAL, outs[0].value))
  {
  }

  const DMARC_REFUSAL := Outcome(Reject(DMARC_REASON), false, false, false)

  /** An enforced DMARC failure is refused at intake, whatever the other scripts and the list say. */
  lemma BeforeGateHolds(engine: PolicyEngine, name: string, domain: string, ctx: Context, sets: MembershipSets)
    requires FailsDmarc(ctx) && RequestsEnforcement(ctx)
    ensures Before(engine, name, domain, ctx, sets) == Ok(DMARC_REFUSAL)
  {
    var rest := engine.globalBefore + DomainBefore(engine, domain);
    assert BeforeScripts(engine, domain) == [DmarcBefore] + rest;
    TiersConcat([DmarcBefore], rest, ctx, sets);
    SingleAction(RejectMessage(DMARC_REASON), sets);
    GateStopsChain(Tiers([DmarcBefore], ctx, sets), Tiers(rest, ctx, sets));
  }

  lemma {:induction false} FoldKeepsFlag(acc: Outcome, outs: seq<Result<Outcome>>)
    requires acc.noOwnDkim && Fold(acc, outs).Ok?
    ensures Fold(acc, outs).value.noOwnDkim
    decreases |outs|
  {
    if outs != [] && !Terminal(acc.decision) {
      FoldKeepsFlag(Merge(acc, outs[0].value), outs[1..]);
    }
  }

  /**
   * The last word at distribution time: an enforced failure is refused, and an unenforced one can
   * only go out with the list's own signature withheld. No configured script can undo either.
   */
  lemma AfterGateHolds(engine: PolicyEngine, domain: string, ctx: Context, sets: MembershipSets)
    requires FailsDmarc(ctx)
    ensures var r := After(engine, domain, ctx, sets);
      if RequestsEnforcement(ctx) then r == Ok(DMARC_REFUSAL) else r.Ok? ==> r.value.noOwnDkim
  {
    var rest := DomainAfter(engine, domain) + engine.globalAfter;
    assert AfterScripts(engine, domain) == [DmarcAfter] + rest;
    TiersConcat([DmarcAfter], rest, ctx, sets);
    if RequestsEnforcement(ctx) {
      SingleAction(RejectMessage(DMARC_REASON), sets);
      GateStopsChain(Tiers([DmarcAfter], ctx, sets), Tiers(rest, ctx, sets));
    } else {
      SingleAction(FileInto(NO_DKIM_FOLDER), sets);
      var gate := Tier(DmarcAfter, ctx, sets).value;
      assert gate.noOwnDkim by {
        var run := SieveRun(Keep, None, [NO_DKIM_FOLDER]);
        assert NO_DKIM_FOLDER in run.filedInto;
      }
      var outs := Tiers([DmarcAfter], ctx, sets);
      FoldConcat(NEUTRAL, outs, Tiers(rest, ctx, sets));
      assert Fold(NEUTRAL, outs) == Fold(Merge(NEUTRAL, gate), outs[1..]);
      if After(engine, domain, ctx, sets).Ok? {
        FoldKeepsFlag(Merge(NEUTRAL, gate), Tiers(rest, ctx, sets));
      }
    }
  }

  /** The gate says nothing about a message that passes. */
  lemma GateSilentOnPass(ctx: Context, sets: MembershipSets)
    requires !FailsDmarc(ctx)
    ensures Tier(DmarcBefore, ctx, sets) == Ok(NEUTRAL) && Tier(DmarcAfter, ctx, sets) == Ok(NEUTRAL)
  {
  }

  // ---- An instance of softening ----

  const HOLD_SCRIPT := Emit(FileInto("moderate"), Halt, Halt)

  function RefusalScript(reason: string): Script {
    Emit(RejectMessage(reason), Halt, Halt)
  }

  lemma HoldScriptHolds(sets: MembershipSets)
    ensures var run := Conclude(Path(HOLD_SCRIPT, sets, Inert));
      run == Ok(SieveRun(Keep, None, ["moderate"])) && OutcomeFromRun(run.value).decision == Moderate
  {
    SingleAction(FileInto("moderate"), sets);
    assert MODERATE_FOLDERS[0] in MODERATE_FOLDERS && MODERATE_FOLDERS[0] == "moderate";
    assert IsModerateFolder("moderate");
    assert "moderate" in SieveRun(Keep, None, ["moderate"]).filedInto;
  }

  lemma RefusalScriptRefuses(reason: string, sets: MembershipSets)
    ensures Conclude(Path(RefusalScript(reason), sets, Inert)) == Ok(SieveRun(Refused(reason), None, []))
  {
    SingleAction(RejectMessage(reason), sets);
  }

  /** An engine whose one list policy refuses every message, behind the given drop-ins. */
  function RefusingEngine(dropIns: seq<Compiled>, name: string, reason: string): PolicyEngine {
    PolicyEngine(dropIns, [], map[], map[name := (ctx: Context) => RefusalScript(reason)])
  }

  const HOLD_ALL: Compiled := (ctx: Context) => HOLD_SCRIPT

  lemma GateAlone(ctx: Context, sets: MembershipSets)
    requires !FailsDmarc(ctx)
    ensures Tiers([DmarcBefore], ctx, sets) == [Ok(NEUTRAL)] && Fold(NEUTRAL, [Ok(NEUTRAL)]) == Ok(NEUTRAL)
  {
    GateSilentOnPass(ctx, sets);
    FoldOne(NEUTRAL, Ok(NEUTRAL));
  }

  lemma RefusedWithout(name: string, domain: string, reason: string, ctx: Context, sets: MembershipSets)
    requires !FailsDmarc(ctx)
    ensures var r := Before(RefusingEngine([], name, reason), name, domain, ctx, sets);
      r.Ok? && r.value.decision == Reject(reason)
  {
    assert BeforeScripts(RefusingEngine([], name, reason), domain) == [DmarcBefore];
    GateAlone(ctx, sets);
    RefusalScriptRefuses(reason, sets);
  }

  lemma HeldWith(name: string, domain: string, reason: string, ctx: Context, sets: MembershipSets)
    requires !FailsDmarc(ctx)
    ensures Holds(Before(RefusingEngine([HOLD_ALL], name, reason), name, domain, ctx, sets))
  {
    var engine := RefusingEngine([HOLD_ALL], name, reason);
    assert BeforeScripts(engine, domain) == [DmarcBefore] + [HOLD_ALL] + [];
    GateAlone(ctx, sets);
    HoldScriptHolds(sets);
    EngineHoldStandsIff(engine, name, domain, ctx, sets, [DmarcBefore], HOLD_ALL, []);
  }

  /**
   * On an engine: a global before drop-in that holds every message turns the refusal of every message
   * that passes DMARC, by a list policy that refuses them all, into a hold.
   */
  lemma HoldSoftensRefusal(name: string, domain: string, reason: string, ctx: Context, sets: MembershipSets)
    requires !FailsDmarc(ctx)
    ensures var without := Before(RefusingEngine([], name, reason), name, domain, ctx, sets);
      var with := Before(RefusingEngine([HOLD_ALL], name, reason), name, domain, ctx, sets);
      && without.Ok? && without.value.decision == Reject(reason)
      && Holds(with)
      && Rank(with) < Rank(without)
  {
    RefusedWithout(name, domain, reason, ctx, sets);
    HeldWith(name, domain, reason, ctx, sets);
  }
}
