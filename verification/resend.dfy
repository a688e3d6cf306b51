/**
 * A run in which one subscriber gets the same message twice: a held post, an approval whose delivery
 * fails after the first copy, and the approval that follows it.
 */
module Resend {
  import opened Wrappers
  import opened Text
  import opened Messages
  import opened Storage
  import opened SieveEngine
  import opened Policy
  import opened PolicyLaws
  import opened Lists
  import opened Sign
  import opened Pipeline
  import opened Lifecycle
  import opened DeliveryLaws
  import opened OnceLaws

  // ---- The setting: one list that holds every post, and no drop-ins ----

  const POLICY_NAME := "moderated"
  const LIST := List("l", ListConfig("l@d", None, None, None, None, None, None, None, None, None, POLICY_NAME), "d")

  function Setting(): Config {
    Config.Config(
      map["l@d" := LIST],
      PolicyEngine([], [], map[], map[POLICY_NAME := (ctx: Context) => HOLD_SCRIPT]),
      BounceConfig(1.0, 1.0, 1.0),
      raw => true,
      raw => Message([Field("Message-ID", "1", raw)], []),
      raw => (None, None),
      raw => None,
      raw => "",
      ip => true,
      (name, value) => [])
  }

  const PASSED := AuthVerdict(true, NoEnforcement, "pass", "pass", "pass", "pass")
  const FINALIZED := FinalizeIO(Ok(PASSED), SignIO(Ok(ArcSet("", "", "")), Ok("")))
  const PEER := Ingress("127.0.0.1", "h", "f")
  const MESSAGE := Pair("l", "1")

  /** The smarthost takes everything; the DKIM2 signer answers for `only` alone. */
  function Delivery(only: string): DeliverIO {
    DeliverIO(true, r => if only == r then Ok("") else Err(Error.Auth), r => true)
  }

  function Held(): seq<Step> {
    [Add("l", "a", true, false, false), Add("l", "b", true, false, false),
     Post(LIST, PEER, [], PostIO(Ok(PASSED), FINALIZED, Delivery("")))]
  }

  function Approve(only: string): Step {
    Approval(1, Some(LIST), FINALIZED, Delivery(only))
  }

  // ---- Up to the hold ----

  lemma PassesGate(raw: seq<byte>)
    ensures !FailsDmarc(ContextFor(Setting(), LIST, PEER, raw, EnvPairs(PASSED)))
  {
    GateReadsVerdict(Setting(), LIST, PEER, raw, PASSED);
  }

  lemma BeforeHolds(sets: MembershipSets)
    ensures var ctx := ContextFor(Setting(), LIST, PEER, [], EnvPairs(PASSED));
      var r := Before(Setting().engine, POLICY_NAME, "d", ctx, sets);
      r.Ok? && r.value.decision == Moderate
  {
    var ctx, engine := ContextFor(Setting(), LIST, PEER, [], EnvPairs(PASSED)), Setting().engine;
    PassesGate([]);
    GateSilentOnPass(ctx, sets);
    HoldScriptHolds(sets);
    var outs := Tiers(BeforeScripts(engine, "d"), ctx, sets);
    assert BeforeScripts(engine, "d") == [DmarcBefore];
    assert outs == [Ok(NEUTRAL)];
    FoldOne(NEUTRAL, Ok(NEUTRAL));
  }

  lemma AfterApproves(sets: MembershipSets)
    ensures After(Setting().engine, "d", ContextFor(Setting(), LIST, PEER, [], EnvPairs(PASSED)), sets) == Ok(NEUTRAL)
  {
    var ctx, engine := ContextFor(Setting(), LIST, PEER, [], EnvPairs(PASSED)), Setting().engine;
    PassesGate([]);
    GateSilentOnPass(ctx, sets);
    assert AfterScripts(engine, "d") == [DmarcAfter];
    assert Tiers(AfterScripts(engine, "d"), ctx, sets) == [Ok(NEUTRAL)];
    FoldOne(NEUTRAL, Ok(NEUTRAL));
  }

  lemma NoId()
    ensures !Loops(Setting(), LIST, []) && MessageId(Setting().view([])) == Some("1")
  {
    var fields := Setting().view([]).fields;
    assert fields == [Field("Message-ID", "1", [])];
    assert |ToLower("Message-ID")| != |ToLower("List-Id")|;
  }

  lemma PostIsHeld(s: State, recipient: string)
    requires s.tables.seen == {} && s.tables.queue == map[] && s.tables.lastId == 0 && s.log == []
    ensures var s' := Next(Setting(), s, Held()[2]);
      && s'.tables.queue == map[1 := RowFor(Setting(), LIST, PEER, [])]
      && s'.tables.members == s.tables.members
      && CopiesTo(Setting(), s'.log, MESSAGE, recipient) == 0
  {
    var step := Held()[2];
    NoId();
    BeforeHolds(SetsOf(s.tables, "l"));
    PostTables(Setting(), s, step);
    CopiesStep(Setting(), s, step, MESSAGE, recipient);
  }

  lemma CanonicalLetter(address: string)
    requires address == "a" || address == "b"
    ensures Canonical(address) == address
  {
    TrimFacts(address);
  }

  ghost predicate HoldsMessage(s: State) {
    1 in s.tables.queue && s.tables.queue[1] == RowFor(Setting(), LIST, PEER, [])
  }

  lemma TwoMembers()
    ensures var s := Reached(Setting(), Held()[..2]);
      && s.tables.seen == {} && s.tables.queue == map[] && s.tables.lastId == 0 && s.log == []
      && {"a", "b"} <= s.tables.Deliverable("l")
  {
    var none: seq<Step> := [];
    assert none + [Held()[0]] == [Held()[0]] && [Held()[0]] + [Held()[1]] == Held()[..2];
    ReachedLast(Setting(), none, Held()[0]);
    ReachedLast(Setting(), [Held()[0]], Held()[1]);
    CanonicalLetter("a");
    CanonicalLetter("b");
    assert Reached(Setting(), none) == INIT;
    var members := Reached(Setting(), Held()[..2]).tables.members;
    assert ("l", "a") in members && ("l", "b") in members;
  }

  lemma HeldState(recipient: string)
    ensures var s := Reached(Setting(), Held());
      && HoldsMessage(s) && {"a", "b"} <= s.tables.Deliverable("l")
      && CopiesTo(Setting(), s.log, MESSAGE, recipient) == 0
  {
    TwoMembers();
    assert Held()[..2] + [Held()[2]] == Held();
    ReachedLast(Setting(), Held()[..2], Held()[2]);
    var s := Reached(Setting(), Held()[..2]);
    PostIsHeld(s, recipient);
    assert Next(Setting(), s, Held()[2]).tables.Deliverable("l") == s.tables.Deliverable("l");
  }

  // ---- The two approvals ----

  lemma HeldIsPrepared(t: Tables) returns (p: Prepared)
    ensures Finalized(Setting(), t, LIST, PEER, [], FINALIZED) == Ok(Distribute(p))
    ensures p.recipients == Listing(t.Deliverable("l")) && p.dkim2Original.Some?
  {
    AfterApproves(SetsOf(t, "l"));
    var d := Finalized(Setting(), t, LIST, PEER, [], FINALIZED);
    assert d == Concluded(Setting(), t, LIST, [], PASSED, NEUTRAL, FINALIZED.sign);
    p := d.value.prepared;
  }

  lemma HeldIsApprovable(s: State, only: string)
    requires HoldsMessage(s)
    ensures Approvable(s, Approve(only)) && StepConcerns(Setting(), s, Approve(only), MESSAGE)
    ensures IngressOf(Setting(), s.tables.queue[1]) == PEER
  {
    NoId();
  }

  /** An approval sets out to serve every deliverable subscriber, each copy with a DKIM2 link. */
  lemma ApprovalDistributes(s: State, only: string) returns (p: Prepared)
    requires HoldsMessage(s)
    ensures Approvable(s, Approve(only)) && DispositionOf(Setting(), s, Approve(only)) == Ok(Distribute(p))
    ensures p.recipients == Listing(s.tables.Deliverable("l")) && p.dkim2Original.Some?
  {
    HeldIsApprovable(s, only);
    p := HeldIsPrepared(s.tables);
  }

  /** Two different recipients, of which only the first can be signed for: one copy, then a failure. */
  lemma CutShort(p: Prepared)
    requires |p.recipients| >= 2 && p.recipients[1] != p.recipients[0] && p.dkim2Original.Some?
    ensures var (copies, r) := CopiesFor(Setting(), LIST, p, Delivery(p.recipients[0]), p.recipients);
      r.Err? && |copies| == 1 && copies[0].recipient == p.recipients[0]
  {
    var io, rest := Delivery(p.recipients[0]), p.recipients[1..];
    assert rest[0] == p.recipients[1];
    assert CopiesFor(Setting(), LIST, p, io, rest) == ([], Err(Error.Auth));
  }

  lemma TwoListed(deliverable: set<string>)
    requires {"a", "b"} <= deliverable
    ensures var listing := Listing(deliverable); |listing| >= 2 && listing[1] != listing[0]
  {
    ListingSorted(deliverable);
    assert "a" in Listing(deliverable) && "b" in Listing(deliverable) && "a" != "b";
  }

  lemma FirstIsInterrupted(s: State) returns (x: string)
    requires HoldsMessage(s) && {"a", "b"} <= s.tables.Deliverable("l")
    ensures Interrupted(Setting(), s, Approve(x), MESSAGE)
    ensures Serves(StepCopies(Setting(), s, Approve(x)), x)
  {
    TwoListed(s.tables.Deliverable("l"));
    x := Listing(s.tables.Deliverable("l"))[0];
    var p := ApprovalDistributes(s, x);
    CutShort(p);
    HeldIsApprovable(s, x);
    CutIsInterrupted(s, Approve(x), p, x);
  }

  lemma CutIsInterrupted(s: State, step: Step, p: Prepared, x: string)
    requires StepConcerns(Setting(), s, step, MESSAGE) && DispositionOf(Setting(), s, step) == Ok(Distribute(p))
    requires var (copies, r) := Delivered(Setting(), ListOf(step), p, DeliverOf(step));
      r.Err? && |copies| == 1 && copies[0].recipient == x
    ensures Interrupted(Setting(), s, step, MESSAGE) && Serves(StepCopies(Setting(), s, step), x)
  {
    var copies := Delivered(Setting(), ListOf(step), p, DeliverOf(step)).0;
    assert StepCopies(Setting(), s, step) == copies;
    assert copies[0] in copies;
  }

  function Resent(x: string): seq<Step> {
    Held() + [Approve(x)] + [Completing(Approve(x))]
  }

  /**
   * So the bound of one copy plus one per interrupted approval is met: in this run some subscriber
   * gets the message twice.
   */
  lemma SecondCopyGoesOut()
    ensures exists x :: CopiesTo(Setting(), Reached(Setting(), Resent(x)).log, MESSAGE, x) == 2
  {
    HeldState("");
    var s := Reached(Setting(), Held());
    var x := FirstIsInterrupted(s);
    HeldState(x);
    SecondCopyFollows(Setting(), s, Approve(x), MESSAGE, x);
    ReachedLast(Setting(), Held(), Approve(x));
    ReachedLast(Setting(), Held() + [Approve(x)], Completing(Approve(x)));
    assert CopiesTo(Setting(), Reached(Setting(), Resent(x)).log, MESSAGE, x) == 2;
  }
}
