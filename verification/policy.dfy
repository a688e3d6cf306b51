/**
 * The moderation policy chain: how the decisions of many Sieve scripts fold into one, and the
 * built-in DMARC gate that runs ahead of every configured script.
 */
module Policy {
  import opened Wrappers
  import opened Text
  import opened Messages
  import opened SieveEngine

  datatype Decision = Approve | Moderate | Discard | Reject(reason: string)

  /** What one or more scripts decided, and the side effects they asked for. */
  datatype Outcome = Outcome(decision: Decision, archive: bool, noOwnDkim: bool, mungeFrom: bool)

  const NEUTRAL := Outcome(Approve, false, false, false)

  predicate Terminal(d: Decision) {
    d.Discard? || d.Reject?
  }

  // ---- Pseudo-mailboxes ----

  const MODERATE_FOLDERS := ["moderate", "moderation", "hold"]
  const ARCHIVE_FOLDER := "archive"
  const NO_DKIM_FOLDER := "no-dkim"
  const MUNGE_FROM_FOLDER := "munge-from"

  predicate IsModerateFolder(folder: string) {
    exists m | m in MODERATE_FOLDERS :: SameName(folder, m)
  }

  predicate FiledInto(run: SieveRun, folder: string) {
    exists f | f in run.filedInto :: SameName(f, folder)
  }

  function OutcomeFromRun(run: SieveRun): Outcome {
    var decision := match run.outcome
      case Dropped => Discard
      case Refused(reason) => Reject(reason)
      case Keep => if exists f | f in run.filedInto :: IsModerateFolder(f) then Moderate else Approve;
    Outcome(decision,
            FiledInto(run, ARCHIVE_FOLDER),
            FiledInto(run, NO_DKIM_FOLDER),
            FiledInto(run, MUNGE_FROM_FOLDER))
  }

  // ---- Scripts in context ----

  /** What a script can see: the environment variables, the envelope sender and the message. */
  datatype Context = Context(env: map<string, string>, mailFrom: string, message: Message)

  /** A compiled script, applied to its context; custom scripts are arbitrary. */
  type Compiled = Context -> Script

  datatype DomainScripts = DomainScripts(before: seq<Compiled>, after: seq<Compiled>)

  datatype PolicyEngine = PolicyEngine(
    globalBefore: seq<Compiled>,
    globalAfter: seq<Compiled>,
    domains: map<string, DomainScripts>,
    policies: map<string, Compiled>)

  /** `${env.name}`, empty when the variable is not set. */
  function EnvVar(ctx: Context, name: string): string {
    if name in ctx.env then ctx.env[name] else ""
  }

  /** `string :is` against a variable, under the default ASCII-casemap comparator. */
  predicate Says(ctx: Context, name: string, value: string) {
    SameName(EnvVar(ctx, name), value)
  }

  const ENV_LIST := "vnd.carriers.list"
  const ENV_LIST_ID := "vnd.carriers.list_id"
  const DMARC_PASS := "vnd.carriers.dmarc_pass"
  const DMARC_POLICY := "vnd.carriers.dmarc_policy"
  const DMARC_REASON := "This message failed DMARC and its domain requests enforcement on failure."

  const REJECT_DMARC := Emit(RejectMessage(DMARC_REASON), Halt, Halt)

  /** `dmarc-before.sieve` */
  function DmarcBefore(ctx: Context): Script {
    if Says(ctx, DMARC_PASS, "no") then
      if !Says(ctx, DMARC_POLICY, "none") then REJECT_DMARC else Halt
    else Halt
  }

  /** `dmarc-after.sieve` */
  function DmarcAfter(ctx: Context): Script {
    if Says(ctx, DMARC_PASS, "no") then
      if !Says(ctx, DMARC_POLICY, "none") then REJECT_DMARC else Emit(FileInto(NO_DKIM_FOLDER), Halt, Halt)
    else Halt
  }

  /** One policy script's contribution; a policy script never tracks duplicates. */
  function Tier(script: Compiled, ctx: Context, sets: MembershipSets): Result<Outcome> {
    match Conclude(Path(script(ctx), sets, Inert))
    case Err(e) => Err(e)
    case Ok(run) => Ok(OutcomeFromRun(run))
  }

  function Tiers(scripts: seq<Compiled>, ctx: Context, sets: MembershipSets): seq<Result<Outcome>> {
    seq(|scripts|, i requires 0 <= i < |scripts| => Tier(scripts[i], ctx, sets))
  }

  // ---- Folding ----

  function MergeDecision(soFar: Decision, tier: Decision): Decision {
    if tier.Approve? then soFar else tier
  }

  function Merge(acc: Outcome, out: Outcome): Outcome {
    Outcome(MergeDecision(acc.decision, out.decision),
            acc.archive || out.archive,
            acc.noOwnDkim || out.noOwnDkim,
            acc.mungeFrom || out.mungeFrom)
  }

  /** Fold contributions from the left, stopping at a terminal decision or a failure. */
  function Fold(acc: Outcome, outs: seq<Result<Outcome>>): Result<Outcome>
    decreases |outs|
  {
    if outs == [] || Terminal(acc.decision) then Ok(acc)
    else match outs[0]
      case Err(e) => Err(e)
      case Ok(out) => Fold(Merge(acc, out), outs[1..])
  }

  lemma {:induction false} FoldConcat(acc: Outcome, a: seq<Result<Outcome>>, b: seq<Result<Outcome>>)
    ensures Fold(acc, a + b) == match Fold(acc, a) case Err(e) => Err(e) case Ok(out) => Fold(out, b)
    decreases |a|
  {
    if a == [] {
      assert a + b == b;
    } else if !Terminal(acc.decision) && a[0].Ok? {
      assert (a + b)[1..] == a[1..] + b;
      FoldConcat(Merge(acc, a[0].value), a[1..], b);
    }
  }

  class Accumulator {
    var decision: Decision
    var archive: bool
    var noOwnDkim: bool
    var mungeFrom: bool

    function Value(): Outcome
      reads this
    {
      Outcome(decision, archive, noOwnDkim, mungeFrom)
    }

    constructor ()
      ensures Value() == NEUTRAL
    {
      decision, archive, noOwnDkim, mungeFrom := Approve, false, false, false;
    }

    method Absorb(out: Outcome)
      modifies this
      ensures Value() == Merge(old(Value()), out)
    {
      archive := archive || out.archive;
      noOwnDkim := noOwnDkim || out.noOwnDkim;
      mungeFrom := mungeFrom || out.mungeFrom;
      if !out.decision.Approve? {
        decision := out.decision;
      }
    }
  }

  method RunTier(script: Compiled, ctx: Context, sets: MembershipSets) returns (r: Result<Outcome>)
    ensures r == Tier(script, ctx, sets)
  {
    var run := Run(script(ctx), sets, NoDuplicates);
    match run {
      case Err(e) => r := Err(e);
      case Ok(done) => r := Ok(OutcomeFromRun(done));
    }
  }

  /** Run scripts in order into `acc`, until one is terminal or fails. */
  method RunScripts(scripts: seq<Compiled>, ctx: Context, sets: MembershipSets, acc: Accumulator)
      returns (r: Result<()>)
    modifies acc
    ensures match Fold(old(acc.Value()), Tiers(scripts, ctx, sets))
      case Err(e) => r == Err(e)
      case Ok(out) => r == Ok(()) && acc.Value() == out
  {
    ghost var outs := Tiers(scripts, ctx, sets);
    var i := 0;
    while i < |scripts|
      invariant 0 <= i <= |scripts|
      invariant Fold(old(acc.Value()), outs) == Fold(acc.Value(), outs[i..])
    {
      if Terminal(acc.decision) {
        break;
      }
      var out := RunTier(scripts[i], ctx, sets);
      if out.Err? {
        return Err(out.error);
      }
      acc.Absorb(out.value);
      i := i + 1;
    }
    r := Ok(());
  }

  // ---- The two halves of the chain ----

  function DomainBefore(engine: PolicyEngine, domain: string): seq<Compiled> {
    if domain in engine.domains then engine.domains[domain].before else []
  }

  function DomainAfter(engine: PolicyEngine, domain: string): seq<Compiled> {
    if domain in engine.domains then engine.domains[domain].after else []
  }

  /** Everything that runs ahead of the list's own policy, in order. */
  function BeforeScripts(engine: PolicyEngine, domain: string): seq<Compiled> {
    [DmarcBefore] + engine.globalBefore + DomainBefore(engine, domain)
  }

  function AfterScripts(engine: PolicyEngine, domain: string): seq<Compiled> {
    [DmarcAfter] + DomainAfter(engine, domain) + engine.globalAfter
  }

  function ListPolicy(engine: PolicyEngine, name: string, ctx: Context, sets: MembershipSets): Result<Outcome> {
    if name in engine.policies then Tier(engine.policies[name], ctx, sets) else Err(Error.Config)
  }

  /** The list's own policy has a say only while nothing ahead of it has decided. */
  function DecideBefore(outs: seq<Result<Outcome>>, policy: Result<Outcome>): Result<Outcome> {
    match Fold(NEUTRAL, outs)
    case Err(e) => Err(e)
    case Ok(acc) =>
      if !acc.decision.Approve? then Ok(acc)
      else match policy
        case Err(e) => Err(e)
        case Ok(out) => Ok(Merge(acc, out))
  }

  function Before(engine: PolicyEngine, name: string, domain: string, ctx: Context, sets: MembershipSets)
      : Result<Outcome>
  {
    DecideBefore(Tiers(BeforeScripts(engine, domain), ctx, sets), ListPolicy(engine, name, ctx, sets))
  }

  function After(engine: PolicyEngine, domain: string, ctx: Context, sets: MembershipSets): Result<Outcome> {
    Fold(NEUTRAL, Tiers(AfterScripts(engine, domain), ctx, sets))
  }

  lemma TiersConcat(a: seq<Compiled>, b: seq<Compiled>, ctx: Context, sets: MembershipSets)
    ensures Tiers(a + b, ctx, sets) == Tiers(a, ctx, sets) + Tiers(b, ctx, sets)
  {
  }

  lemma FoldTiers(acc: Outcome, a: seq<Compiled>, b: seq<Compiled>, ctx: Context, sets: MembershipSets)
    ensures Fold(acc, Tiers(a + b, ctx, sets)) ==
      match Fold(acc, Tiers(a, ctx, sets)) case Err(e) => Err(e) case Ok(out) => Fold(out, Tiers(b, ctx, sets))
  {
    TiersConcat(a, b, ctx, sets);
    FoldConcat(acc, Tiers(a, ctx, sets), Tiers(b, ctx, sets));
  }

  method EvaluateBefore(engine: PolicyEngine, name: string, domain: string, ctx: Context, sets: MembershipSets)
      returns (r: Result<Outcome>)
    ensures r == Before(engine, name, domain, ctx, sets)
  {
    ghost var gate, global, local := [DmarcBefore], engine.globalBefore, DomainBefore(engine, domain);
    FoldTiers(NEUTRAL, gate + global, local, ctx, sets);
    FoldTiers(NEUTRAL, gate, global, ctx, sets);
    var acc := new Accumulator();
    var step := RunScripts([DmarcBefore], ctx, sets, acc);
    if step.Err? { return Err(step.error); }
    step := RunScripts(engine.globalBefore, ctx, sets, acc);
    if step.Err? { return Err(step.error); }
    if domain in engine.domains {
      step := RunScripts(engine.domains[domain].before, ctx, sets, acc);
      if step.Err? { return Err(step.error); }
    }
    if acc.decision.Approve? {
      if name !in engine.policies { return Err(Error.Config); }
      var out := RunTier(engine.policies[name], ctx, sets);
      if out.Err? { return Err(out.error); }
      acc.Absorb(out.value);
    }
    r := Ok(acc.Value());
  }

  method EvaluateAfter(engine: PolicyEngine, domain: string, ctx: Context, sets: MembershipSets)
      returns (r: Result<Outcome>)
    ensures r == After(engine, domain, ctx, sets)
  {
    ghost var gate, local, global := [DmarcAfter], DomainAfter(engine, domain), engine.globalAfter;
    FoldTiers(NEUTRAL, gate + local, global, ctx, sets);
    FoldTiers(NEUTRAL, gate, local, ctx, sets);
    var acc := new Accumulator();
    var step := RunScripts([DmarcAfter], ctx, sets, acc);
    if step.Err? { return Err(step.error); }
    if domain in engine.domains {
      step := RunScripts(engine.domains[domain].after, ctx, sets, acc);
      if step.Err? { return Err(step.error); }
    }
    step := RunScripts(engine.globalAfter, ctx, sets, acc);
    if step.Err? { return Err(step.error); }
    r := Ok(acc.Value());
  }
}
