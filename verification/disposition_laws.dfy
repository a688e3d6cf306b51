/** How a post or an approval ends, in terms of what the scripts of the chain do. */
module DispositionLaws {
  import opened Wrappers
  import opened Text
  import opened Messages
  import opened Storage
  import opened SieveEngine
  import opened Policy
  import opened PolicyLaws
  import opened ScriptLaws
  import opened EngineLaws
  import opened Lists
  import opened Sign
  import opened Pipeline
  import opened Lifecycle
  import opened DeliveryLaws

  // ---- What scripts get to see ----

  const NAMES := [
    "vnd.carriers.dmarc_pass", "vnd.carriers.dmarc_policy", "vnd.carriers.dkim_result",
    "vnd.carriers.spf_result", "vnd.carriers.dkim1_result", "vnd.carriers.dkim2_result",
    "vnd.carriers.list", "vnd.carriers.list_id"]

  lemma DifferAt(a: string, b: string, k: nat)
    requires |a| != |b| || (k < |a| && k < |b| && a[k] != b[k])
    ensures a != b
  {
  }

  lemma NamesDiffer()
    ensures forall i, j :: 0 <= i < j < 8 ==> NAMES[i] != NAMES[j]
  {
    DifferAt(NAMES[0], NAMES[3], 13);
    DifferAt(NAMES[1], NAMES[4], 14);
    DifferAt(NAMES[1], NAMES[5], 14);
    DifferAt(NAMES[4], NAMES[5], 17);
    assert |NAMES[0]| == |NAMES[3]| == 23 && |NAMES[2]| == 24 && |NAMES[6]| == 17 && |NAMES[7]| == 20;
    assert |NAMES[1]| == |NAMES[4]| == |NAMES[5]| == 25;
  }

  lemma EnvShows(names: seq<string>, v: AuthVerdict)
    requires names == NAMES && forall i, j :: 0 <= i < j < 8 ==> names[i] != names[j]
    ensures var env := EnvPairs(v);
      && env.Keys == {names[0], names[1], names[2], names[3], names[4], names[5]}
      && env[names[0]] == (if v.dmarcPass then "yes" else "no")
      && env[names[1]] == EnforcementName(v.dmarcPolicy)
      && env[names[2]] == v.dkimResult && env[names[3]] == v.spfResult
      && env[names[4]] == v.dkim1Result && env[names[5]] == v.dkim2Result
  {
    var env := EnvPairs(v);
    assert env == map[
      names[0] := if v.dmarcPass then "yes" else "no", names[1] := EnforcementName(v.dmarcPolicy),
      names[2] := v.dkimResult, names[3] := v.spfResult, names[4] := v.dkim1Result, names[5] := v.dkim2Result];
  }

  /** The list, its id and the whole verdict as environment variables; the envelope sender; the message itself. */
  lemma ContextShows(cfg: Config, list: List, ingress: Ingress, raw: seq<byte>, v: AuthVerdict)
    ensures var ctx := ContextFor(cfg, list, ingress, raw, EnvPairs(v));
      && EnvVar(ctx, NAMES[0]) == (if v.dmarcPass then "yes" else "no")
      && EnvVar(ctx, NAMES[1]) == EnforcementName(v.dmarcPolicy)
      && EnvVar(ctx, NAMES[2]) == v.dkimResult && EnvVar(ctx, NAMES[3]) == v.spfResult
      && EnvVar(ctx, NAMES[4]) == v.dkim1Result && EnvVar(ctx, NAMES[5]) == v.dkim2Result
      && EnvVar(ctx, NAMES[6]) == list.name && EnvVar(ctx, NAMES[7]) == ListId(list)
      && ctx.mailFrom == ingress.mailFrom && ctx.message == cfg.view(raw)
  {
    NamesDiffer();
    EnvShows(NAMES, v);
    OwnVariables(NAMES, list.name, ListId(list), EnvPairs(v), ContextFor(cfg, list, ingress, raw, EnvPairs(v)));
  }

  lemma OwnVariables(names: seq<string>, name: string, id: string, pairs: map<string, string>, ctx: Context)
    requires |names| == 8 && forall i, j :: 0 <= i < j < 8 ==> names[i] != names[j]
    requires pairs.Keys == {names[0], names[1], names[2], names[3], names[4], names[5]}
    requires ctx.env == map[names[6] := name, names[7] := id] + pairs
    ensures EnvVar(ctx, names[6]) == name && EnvVar(ctx, names[7]) == id
    ensures forall k :: 0 <= k < 6 ==> EnvVar(ctx, names[k]) == pairs[names[k]]
  {
  }

  // ---- The built-in checks ----

  /** A message is dropped as a loop exactly when one of its List-Id fields contains the list's id, in any case. */
  lemma LoopIff(cfg: Config, t: Tables, list: List, raw: seq<byte>)
    ensures Screened(cfg, t, list, raw) == Some("message already carries this List-Id (loop)") <==>
      exists f, i: nat :: f in cfg.view(raw).fields && SameName(f.name, "List-Id")
        && OccursAt(ToLower(f.value), ToLower(ListId(list)), i)
  {
    assert LOOP_REASON[0] == 'm' && DUPLICATE_REASON[0] == 'd';
    assert LOOP_REASON == "message already carries this List-Id (loop)";
    forall f | f in cfg.view(raw).fields
      ensures Find(ToLower(f.value), ToLower(ListId(list))) >= 0
         <==> exists i: nat :: OccursAt(ToLower(f.value), ToLower(ListId(list)), i)
    {
      FoundIffOccurs(ToLower(f.value), ToLower(ListId(list)));
    }
  }

  lemma FoundIffOccurs(s: string, pat: string)
    ensures Find(s, pat) >= 0 <==> exists i: nat :: OccursAt(s, pat, i)
  {
    if Find(s, pat) >= 0 { assert OccursAt(s, pat, Find(s, pat)); }
  }

  // ---- Intake ----

  /** Held, discarded or rejected as the decision says, and nothing sent. */
  ghost predicate EndsAs(d: Decision, reason: string, lastId: int, copies: seq<Copy>, r: Result<PostOutcome>) {
    copies == [] && match d
      case Moderate => r == Ok(Held(lastId + 1))
      case Discard => r == Ok(Discarded(reason))
      case Reject(why) => r == Ok(Rejected(why))
      case Approve => false
  }

  ghost function BeforeOf(cfg: Config, s: State, step: Step): Result<Outcome>
    requires step.Post? && step.io.intake.Ok?
  {
    Before(cfg.engine, step.list.cfg.policy, step.list.domain,
           ContextFor(cfg, step.list, step.ingress, step.raw, EnvPairs(step.io.intake.value)),
           SetsOf(s.tables, step.list.name))
  }

  lemma RecordedKeepsMembers(cfg: Config, t: Tables, list: List, raw: seq<byte>)
    ensures Recorded(cfg, t, list, raw).members == t.members && Recorded(cfg, t, list, raw).lastId == t.lastId
    ensures forall name :: SetsOf(Recorded(cfg, t, list, raw), name) == SetsOf(t, name)
  {
  }

  lemma PostIsActed(cfg: Config, s: State, step: Step)
    requires step.Post? && Enters(cfg, s.tables, step.list, step.raw) && step.io.intake.Ok?
    ensures var t := Recorded(cfg, s.tables, step.list, step.raw);
      Judged(cfg, t, step.list, step.ingress, step.raw, step.io) ==
        match BeforeOf(cfg, s, step)
        case Err(e) => Err(e)
        case Ok(out) => Acted(cfg, t, step.list, step.ingress, step.raw, out.decision, step.io.finalize)
  {
    RecordedKeepsMembers(cfg, s.tables, step.list, step.raw);
  }

  lemma PostIsJudged(cfg: Config, s: State, step: Step)
    requires step.Post? && Enters(cfg, s.tables, step.list, step.raw)
    requires Judged(cfg, Recorded(cfg, s.tables, step.list, step.raw), step.list, step.ingress, step.raw, step.io)
      != Err(Unparseable)
    ensures DispositionOf(cfg, s, step)
         == Judged(cfg, Recorded(cfg, s.tables, step.list, step.raw), step.list, step.ingress, step.raw, step.io)
  {
  }

  /** A post that the before half does not approve: how it ends, and that nothing goes out. */
  lemma PostEnds(cfg: Config, s: State, step: Step)
    requires step.Post? && Enters(cfg, s.tables, step.list, step.raw) && step.io.intake.Ok?
    requires !Approves(BeforeOf(cfg, s, step))
    ensures match BeforeOf(cfg, s, step)
      case Err(e) => StepCopies(cfg, s, step) == [] && StepResult(cfg, s, step) == Err(e)
      case Ok(out) => EndsAs(out.decision, "discarded by policy", s.tables.lastId,
                             StepCopies(cfg, s, step), StepResult(cfg, s, step))
  {
    ChainFailure(cfg.engine, step.list.cfg.policy, step.list.domain,
                 ContextFor(cfg, step.list, step.ingress, step.raw, EnvPairs(step.io.intake.value)),
                 SetsOf(s.tables, step.list.name));
    PostIsActed(cfg, s, step);
    PostIsJudged(cfg, s, step);
    CarriedOut(cfg, s, step, DispositionOf(cfg, s, step));
    if BeforeOf(cfg, s, step).Ok? {
      var t := Recorded(cfg, s.tables, step.list, step.raw);
      RecordedKeepsMembers(cfg, s.tables, step.list, step.raw);
      ActedEnds(cfg, t, step.list, step.ingress, step.raw, BeforeOf(cfg, s, step).value.decision, step.io);
    }
  }

  lemma ActedEnds(cfg: Config, t: Tables, list: List, ingress: Ingress, raw: seq<byte>, decision: Decision, io: PostIO)
    requires !decision.Approve?
    ensures var d := Acted(cfg, t, list, ingress, raw, decision, io.finalize);
      && d.Ok?
      && EndsAs(decision, "discarded by policy", t.lastId, CopiesOf(cfg, list, d, io.deliver),
                ResultOf(cfg, list, d, io.deliver))
  {
  }

  /** A queue row appears for a post exactly when it ends held. */
  lemma PostQueue(cfg: Config, s: State, step: Step)
    requires step.Post?
    ensures Next(cfg, s, step).tables.queue ==
      if IsHeld(StepResult(cfg, s, step)) then s.tables.queue[s.tables.lastId + 1 := RowOf(cfg, s, step)]
      else s.tables.queue
  {
    QueueAfter(cfg, s, step, Next(cfg, s, step).tables, IsHeld(StepResult(cfg, s, step)), RowOf(cfg, s, step)) by {
      PostTables(cfg, s, step);
    }
  }

  lemma QueueAfter(cfg: Config, s: State, step: Step, later: Tables, held: bool, row: HeldRow)
    requires step.Post?
    requires var t := Entered(cfg, s.tables, step.list, step.raw); later == if held then t.Enqueue(row) else t
    ensures later.queue == if held then s.tables.queue[s.tables.lastId + 1 := row] else s.tables.queue
  {
    EnteredKeepsQueue(cfg, s.tables, step.list, step.raw);
  }

  lemma EnteredKeepsQueue(cfg: Config, t: Tables, list: List, raw: seq<byte>)
    ensures Entered(cfg, t, list, raw).queue == t.queue && Entered(cfg, t, list, raw).lastId == t.lastId
  {
  }

  /** Without a verdict there is no policy: nothing goes out and nothing is held. */
  lemma NoVerdictNoPost(cfg: Config, s: State, step: Step)
    requires step.Post? && Enters(cfg, s.tables, step.list, step.raw) && step.io.intake.Err?
    ensures StepCopies(cfg, s, step) == [] && !IsHeld(StepResult(cfg, s, step))
    ensures step.io.intake.error != Unparseable ==> StepResult(cfg, s, step) == Err(step.io.intake.error)
  {
  }

  /**
   * The first before drop-in that stops the chain decides, read off its own run: its discard drops the
   * post, its reject refuses it with that reason, its failure fails it. Nothing goes out and nothing is held.
   */
  lemma FirstStopDecides(cfg: Config, s: State, step: Step, a: seq<Compiled>, x: Compiled, b: seq<Compiled>)
    requires step.Post? && Enters(cfg, s.tables, step.list, step.raw) && step.io.intake.Ok?
    requires BeforeScripts(cfg.engine, step.list.domain) == a + [x] + b
    requires var ctx := ContextFor(cfg, step.list, step.ingress, step.raw, EnvPairs(step.io.intake.value));
      !AnyStops(a, ctx, SetsOf(s.tables, step.list.name))
    ensures var ctx := ContextFor(cfg, step.list, step.ingress, step.raw, EnvPairs(step.io.intake.value));
      var (t, r) := (Path(x(ctx), SetsOf(s.tables, step.list.name), Inert), StepResult(cfg, s, step));
      && (t.ending.Ended? && FirstSettled(t.events, DiscardMessage) ==> r == Ok(Discarded("discarded by policy")))
      && (forall reason ::
            t.ending.Ended? && FirstSettled(t.events, RejectMessage(reason)) ==> r == Ok(Rejected(reason)))
      && (t.ending.Failed? ==> r == Err(t.ending.error))
      && (t.ending.Failed? || !Silent(t.events) ==>
            StepCopies(cfg, s, step) == [] && Next(cfg, s, step).tables.queue == s.tables.queue)
  {
    var ctx := ContextFor(cfg, step.list, step.ingress, step.raw, EnvPairs(step.io.intake.value));
    var sets := SetsOf(s.tables, step.list.name);
    var t := Path(x(ctx), sets, Inert);
    ContributionIs(x, ctx, sets);
    if t.ending.Failed? || !Silent(t.events) {
      if t.ending.Ended? { SettledIsTerminal(t.events, Tier(x, ctx, sets).value); }
      StopSetsBefore(cfg.engine, step.list.cfg.policy, step.list.domain, ctx, sets, a, x, b);
      PostEnds(cfg, s, step);
      PostQueue(cfg, s, step);
    } else {
      SilentSettlesNothing(t.events);
    }
  }

  /** No event of the run is a discard or a reject. */
  ghost predicate Silent(events: seq<Event>) {
    forall e :: e in events ==> !Settles(e)
  }

  lemma SilentSettlesNothing(events: seq<Event>)
    requires Silent(events)
    ensures forall e :: !FirstSettled(events, e)
  {
  }

  lemma SettledIsTerminal(events: seq<Event>, out: Outcome)
    requires ReadsAs(events, out) && !Silent(events)
    ensures Terminal(out.decision)
    ensures FirstSettled(events, DiscardMessage) <==> out.decision.Discard?
  {
    FirstDecisiveIs(events, DiscardMessage);
    var e := if FirstDecisive(events) == Dropped then DiscardMessage else RejectMessage(FirstDecisive(events).reason);
    FirstDecisiveIs(events, e);
  }

  /** The chain's outcome is that of the script that stopped it. */
  lemma StopSetsBefore(
      engine: PolicyEngine, name: string, domain: string, ctx: Context, sets: MembershipSets,
      a: seq<Compiled>, x: Compiled, b: seq<Compiled>)
    requires BeforeScripts(engine, domain) == a + [x] + b
    requires !AnyStops(a, ctx, sets) && Stops(Tier(x, ctx, sets))
    ensures var r := Before(engine, name, domain, ctx, sets);
      match Tier(x, ctx, sets)
      case Err(e) => r == Err(e)
      case Ok(out) => r.Ok? && r.value.decision == out.decision
  {
    TiersInsert(a, x, b, ctx, sets);
    NoStopsRun(a, ctx, sets);
    var outs := Tiers(a, ctx, sets);
    FoldConcat(NEUTRAL, outs + [Tier(x, ctx, sets)], Tiers(b, ctx, sets));
    FoldConcat(NEUTRAL, outs, [Tier(x, ctx, sets)]);
    FoldOne(Fold(NEUTRAL, outs).value, Tier(x, ctx, sets));
  }

  lemma NoStopsRun(a: seq<Compiled>, ctx: Context, sets: MembershipSets)
    requires !AnyStops(a, ctx, sets)
    ensures !Stops(Fold(NEUTRAL, Tiers(a, ctx, sets)))
  {
    RunsThrough(NEUTRAL, Tiers(a, ctx, sets));
  }

  // ---- Finalization ----

  /** The step gets as far as the after half. */
  ghost predicate Finalizes(cfg: Config, s: State, step: Step) {
    && Acts(s, step)
    && (step.Post? ==>
          && Enters(cfg, s.tables, step.list, step.raw)
          && step.io.intake.Ok? && Approves(BeforeOf(cfg, s, step)))
  }

  ghost function IngressOfStep(cfg: Config, s: State, step: Step): Ingress
    requires Acts(s, step)
  {
    if step.Post? then step.ingress else IngressOf(cfg, s.tables.queue[step.id])
  }

  ghost function AfterContext(cfg: Config, s: State, step: Step): Context
    requires Acts(s, step) && FinalizeOf(step).verdict.Ok?
  {
    ContextFor(cfg, ListOf(step), IngressOfStep(cfg, s, step), RawOf(s, step), EnvPairs(FinalizeOf(step).verdict.value))
  }

  ghost function AfterOf(cfg: Config, s: State, step: Step): Result<Outcome>
    requires Acts(s, step) && FinalizeOf(step).verdict.Ok?
  {
    After(cfg.engine, ListOf(step).domain, AfterContext(cfg, s, step), SetsOf(s.tables, ListOf(step).name))
  }

  /** Finalization reads the members and the id counter, nothing else of the tables. */
  lemma FinalizedReads(
      cfg: Config, t: Tables, u: Tables, list: List, ingress: Ingress, raw: seq<byte>, io: FinalizeIO)
    requires t.members == u.members && t.lastId == u.lastId
    ensures Finalized(cfg, t, list, ingress, raw, io) == Finalized(cfg, u, list, ingress, raw, io)
  {
    assert SetsOf(t, list.name) == SetsOf(u, list.name);
    if io.verdict.Ok? {
      var ctx := ContextFor(cfg, list, ingress, raw, EnvPairs(io.verdict.value));
      var r := After(cfg.engine, list.domain, ctx, SetsOf(t, list.name));
      if r.Ok? { ConcludedReads(cfg, t, u, list, raw, io.verdict.value, r.value, io.sign); }
    }
  }

  lemma ConcludedReads(
      cfg: Config, t: Tables, u: Tables, list: List, raw: seq<byte>, v: AuthVerdict, out: Outcome, io: SignIO)
    requires t.members == u.members && t.lastId == u.lastId
    ensures Concluded(cfg, t, list, raw, v, out, io) == Concluded(cfg, u, list, raw, v, out, io)
  {
    assert t.Deliverable(list.name) == u.Deliverable(list.name);
  }

  lemma StepIsFinalized(cfg: Config, s: State, step: Step)
    requires Finalizes(cfg, s, step)
    requires Finalized(cfg, s.tables, ListOf(step), IngressOfStep(cfg, s, step), RawOf(s, step), FinalizeOf(step))
      != Err(Unparseable)
    ensures DispositionOf(cfg, s, step)
         == Finalized(cfg, s.tables, ListOf(step), IngressOfStep(cfg, s, step), RawOf(s, step), FinalizeOf(step))
  {
    if step.Post? {
      var t := Recorded(cfg, s.tables, step.list, step.raw);
      RecordedKeepsMembers(cfg, s.tables, step.list, step.raw);
      FinalizedReads(cfg, t, s.tables, step.list, step.ingress, step.raw, step.io.finalize);
      PostIsActed(cfg, s, step);
      PostIsJudged(cfg, s, step);
    }
  }

  /** Finalization with a verdict, in terms of the after half's outcome. */
  lemma FinalizedConcludes(cfg: Config, s: State, step: Step)
    requires Acts(s, step) && FinalizeOf(step).verdict.Ok?
    ensures Finalized(cfg, s.tables, ListOf(step), IngressOfStep(cfg, s, step), RawOf(s, step), FinalizeOf(step)) ==
      match AfterOf(cfg, s, step)
      case Err(e) => Err(e)
      case Ok(out) =>
        var v := FinalizeOf(step).verdict.value;
        Concluded(cfg, s.tables, ListOf(step), RawOf(s, step), v, out, FinalizeOf(step).sign)
  {
  }

  lemma ConcludedEnds(
      cfg: Config, t: Tables, list: List, raw: seq<byte>, v: AuthVerdict, out: Outcome, io: SignIO, deliver: DeliverIO)
    requires !out.decision.Approve?
    ensures var d := Concluded(cfg, t, list, raw, v, out, io);
      && d.Ok?
      && EndsAs(out.decision, "discarded by after-policy", t.lastId, CopiesOf(cfg, list, d, deliver),
                ResultOf(cfg, list, d, deliver))
  {
  }

  lemma CarriedOut(cfg: Config, s: State, step: Step, d: Result<Disposition>)
    requires Acts(s, step) && DispositionOf(cfg, s, step) == d
    ensures StepCopies(cfg, s, step) == CopiesOf(cfg, ListOf(step), d, DeliverOf(step))
    ensures StepResult(cfg, s, step) == ResultOf(cfg, ListOf(step), d, DeliverOf(step))
  {
  }

  /** A step that reaches the after half is concluded as its outcome says. */
  lemma StepIsConcluded(cfg: Config, s: State, step: Step)
    requires Finalizes(cfg, s, step) && FinalizeOf(step).verdict.Ok?
    ensures match AfterOf(cfg, s, step)
      case Err(e) => DispositionOf(cfg, s, step) == Err(e)
      case Ok(out) =>
        var d := Concluded(
          cfg, s.tables, ListOf(step), RawOf(s, step), FinalizeOf(step).verdict.value, out, FinalizeOf(step).sign);
        d != Err(Unparseable) ==> DispositionOf(cfg, s, step) == d
  {
    ChainFailure(cfg.engine, "", ListOf(step).domain, AfterContext(cfg, s, step), SetsOf(s.tables, ListOf(step).name));
    FinalizedConcludes(cfg, s, step);
    var d := Finalized(cfg, s.tables, ListOf(step), IngressOfStep(cfg, s, step), RawOf(s, step), FinalizeOf(step));
    if d != Err(Unparseable) {
      StepIsFinalized(cfg, s, step);
    }
  }

  /** What the after half does not approve: how it ends, and that nothing goes out. */
  lemma FinalizationEnds(cfg: Config, s: State, step: Step)
    requires Finalizes(cfg, s, step) && FinalizeOf(step).verdict.Ok? && !Approves(AfterOf(cfg, s, step))
    ensures match AfterOf(cfg, s, step)
      case Err(e) => StepCopies(cfg, s, step) == [] && StepResult(cfg, s, step) == Err(e)
      case Ok(out) => EndsAs(out.decision, "discarded by after-policy", s.tables.lastId,
                             StepCopies(cfg, s, step), StepResult(cfg, s, step))
  {
    StepIsConcluded(cfg, s, step);
    match AfterOf(cfg, s, step) {
      case Err(e) => CarriedOut(cfg, s, step, Err(e));
      case Ok(out) => FinalizationSettles(cfg, s, step, out);
    }
  }

  lemma FinalizationSettles(cfg: Config, s: State, step: Step, out: Outcome)
    requires Acts(s, step) && FinalizeOf(step).verdict.Ok? && !out.decision.Approve?
    requires var d := Concluded(
        cfg, s.tables, ListOf(step), RawOf(s, step), FinalizeOf(step).verdict.value, out, FinalizeOf(step).sign);
      d != Err(Unparseable) ==> DispositionOf(cfg, s, step) == d
    ensures EndsAs(out.decision, "discarded by after-policy", s.tables.lastId,
                   StepCopies(cfg, s, step), StepResult(cfg, s, step))
  {
    ConcludedEnds(cfg, s.tables, ListOf(step), RawOf(s, step), FinalizeOf(step).verdict.value, out,
                  FinalizeOf(step).sign, DeliverOf(step));
    CarriedOut(cfg, s, step, Concluded(
      cfg, s.tables, ListOf(step), RawOf(s, step), FinalizeOf(step).verdict.value, out, FinalizeOf(step).sign));
  }

  lemma CopiesHaveVerdict(cfg: Config, s: State, step: Step)
    requires StepCopies(cfg, s, step) != []
    ensures Acts(s, step) && FinalizeOf(step).verdict.Ok?
  {
    StepCopiesSafe(cfg, s, step);
    var c := StepCopies(cfg, s, step)[0];
    assert c in StepCopies(cfg, s, step);
    assert Accountable(cfg, s, step, c);
  }

  lemma PostedCopiesFinalize(cfg: Config, s: State, step: Step)
    requires step.Post? && StepCopies(cfg, s, step) != []
    ensures Finalizes(cfg, s, step)
  {
    if !Enters(cfg, s.tables, step.list, step.raw) {
      PostScreened(cfg, s, step);
    } else if step.io.intake.Err? {
      NoVerdictNoPost(cfg, s, step);
    } else if !Approves(BeforeOf(cfg, s, step)) {
      PostEnds(cfg, s, step);
    }
  }

  /** Copies are sent only by a step that both halves approve. */
  lemma CopiesMeanApproval(cfg: Config, s: State, step: Step)
    requires StepCopies(cfg, s, step) != []
    ensures Finalizes(cfg, s, step) && FinalizeOf(step).verdict.Ok? && Approves(AfterOf(cfg, s, step))
  {
    if step.Post? {
      PostedCopiesFinalize(cfg, s, step);
    }
    CopiesHaveVerdict(cfg, s, step);
    if !Approves(AfterOf(cfg, s, step)) {
      FinalizationEnds(cfg, s, step);
    }
  }

  /** Should a library report a message as unparseable this late, it is dropped or left in the queue, not sent. */
  lemma UnparseableSendsNothing(cfg: Config, s: State, step: Step)
    requires Finalizes(cfg, s, step)
    requires Finalized(cfg, s.tables, ListOf(step), IngressOfStep(cfg, s, step), RawOf(s, step), FinalizeOf(step))
      == Err(Unparseable)
    ensures StepCopies(cfg, s, step) == []
  {
    if step.Post? {
      var t := Recorded(cfg, s.tables, step.list, step.raw);
      RecordedKeepsMembers(cfg, s.tables, step.list, step.raw);
      FinalizedReads(cfg, t, s.tables, step.list, step.ingress, step.raw, step.io.finalize);
      PostIsActed(cfg, s, step);
      LateUnparseable(cfg, s, step);
    } else {
      CarriedOut(cfg, s, step, Err(Unparseable));
    }
  }

  lemma LateUnparseable(cfg: Config, s: State, step: Step)
    requires step.Post? && Enters(cfg, s.tables, step.list, step.raw)
    requires Judged(cfg, Recorded(cfg, s.tables, step.list, step.raw), step.list, step.ingress, step.raw, step.io)
      == Err(Unparseable)
    ensures StepCopies(cfg, s, step) == []
  {
    assert DispositionOf(cfg, s, step) == Ok(UNPARSEABLE);
    CarriedOut(cfg, s, step, Ok(UNPARSEABLE));
  }

  /** Approving an id that is not in the queue, or whose list is not loaded, changes nothing and sends nothing. */
  lemma UnknownApproval(cfg: Config, s: State, step: Step)
    requires step.Approval? && !Approvable(s, step)
    ensures Next(cfg, s, step) == s && StepCopies(cfg, s, step) == []
    ensures ApprovedById(cfg, s, step.id, step.found, step.finalize, step.deliver).1 == Err(NotFound)
  {
  }
}
