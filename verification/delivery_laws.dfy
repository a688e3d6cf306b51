/** What every copy that ever leaves the daemon satisfies, in every run. */
module DeliveryLaws {
  import opened Wrappers
  import opened Seqs
  import opened Text
  import opened Messages
  import opened Storage
  import opened SieveEngine
  import opened Policy
  import opened PolicyLaws
  import opened Lists
  import opened Transform
  import opened TransformLaws
  import opened Sign
  import opened Verps
  import opened Pipeline
  import opened Lifecycle

  // ---- The gate, from verdict to signature ----

  predicate MayGoOut(v: AuthVerdict) {
    v.dmarcPass || v.dmarcPolicy.NoEnforcement?
  }

  lemma GateReadsVerdict(cfg: Config, list: List, ingress: Ingress, raw: seq<byte>, v: AuthVerdict)
    ensures var ctx := ContextFor(cfg, list, ingress, raw, EnvPairs(v));
      && (FailsDmarc(ctx) <==> !v.dmarcPass)
      && (RequestsEnforcement(ctx) <==> !v.dmarcPolicy.NoEnforcement?)
  {
  }

  /** What holds of a prepared message, however its parts came about. */
  ghost predicate SafelyPrepared(cfg: Config, list: List, p: Prepared) {
    var v := p.origin.verdict;
    && MayGoOut(v)
    && (!v.dmarcPass ==> p.layers.signature == [] && p.dkim2Original.None?)
    && p.message == Render(p.layers.Whole())
    && p.layers.augmented == Outgoing(cfg, list, p.origin.raw, p.origin.munged)
    && Unsigned(p.layers.arc + p.layers.signature)
    && p.returnPathLocal == LocalPart(list.cfg.postingAddress)
    && p.listDomain == list.domain
  }

  lemma PreparedIsSafe(cfg: Config, t: Tables, list: List, raw: seq<byte>, v: AuthVerdict, out: Outcome, io: SignIO)
    requires PreparedFor(cfg, t, list, raw, v, out, io).Ok?
    requires MayGoOut(v) && (!v.dmarcPass ==> out.noOwnDkim)
    ensures var p := PreparedFor(cfg, t, list, raw, v, out, io).value;
      && SafelyPrepared(cfg, list, p)
      && p.origin == Origin(raw, v, out.mungeFrom)
      && p.recipients == Listing(t.Deliverable(list.name))
  {
    var augmented := Outgoing(cfg, list, raw, out.mungeFrom);
    SharedUnsigned(cfg.emit, io, augmented, out.noOwnDkim);
  }

  /** What finalization goes on with has passed the gate for its verdict. */
  lemma GatePassed(cfg: Config, list: List, ingress: Ingress, raw: seq<byte>, v: AuthVerdict, sets: MembershipSets)
    requires Approves(After(cfg.engine, list.domain, ContextFor(cfg, list, ingress, raw, EnvPairs(v)), sets))
    ensures MayGoOut(v)
    ensures !v.dmarcPass ==>
      After(cfg.engine, list.domain, ContextFor(cfg, list, ingress, raw, EnvPairs(v)), sets).value.noOwnDkim
  {
    var ctx := ContextFor(cfg, list, ingress, raw, EnvPairs(v));
    GateReadsVerdict(cfg, list, ingress, raw, v);
    if FailsDmarc(ctx) {
      AfterGateHolds(cfg.engine, list.domain, ctx, sets);
    }
  }

  lemma FinalizedIsSafe(cfg: Config, t: Tables, list: List, ingress: Ingress, raw: seq<byte>, io: FinalizeIO)
    requires Finalized(cfg, t, list, ingress, raw, io).Ok?
    requires Finalized(cfg, t, list, ingress, raw, io).value.Distribute?
    ensures var p := Finalized(cfg, t, list, ingress, raw, io).value.prepared;
      && SafelyPrepared(cfg, list, p)
      && p.origin.raw == raw && io.verdict == Ok(p.origin.verdict)
      && p.recipients == Listing(t.Deliverable(list.name))
  {
    var v := io.verdict.value;
    var ctx, sets := ContextFor(cfg, list, ingress, raw, EnvPairs(v)), SetsOf(t, list.name);
    GatePassed(cfg, list, ingress, raw, v, sets);
    PreparedIsSafe(cfg, t, list, raw, v, After(cfg.engine, list.domain, ctx, sets).value, io.sign);
  }

  /** An enforced DMARC failure is refused at intake: it can neither go out nor be held. */
  lemma EnforcedFailureRefused(cfg: Config, s: State, step: Step)
    requires step.Post? && step.io.intake.Ok? && !MayGoOut(step.io.intake.value)
    requires Enters(cfg, s.tables, step.list, step.raw)
    ensures StepResult(cfg, s, step) == Ok(Rejected(DMARC_REASON))
    ensures StepCopies(cfg, s, step) == []
  {
    var v, t := step.io.intake.value, Recorded(cfg, s.tables, step.list, step.raw);
    var ctx := ContextFor(cfg, step.list, step.ingress, step.raw, EnvPairs(v));
    GateReadsVerdict(cfg, step.list, step.ingress, step.raw, v);
    BeforeGateHolds(cfg.engine, step.list.cfg.policy, step.list.domain, ctx, SetsOf(t, step.list.name));
  }

  // ---- Copies ----

  function Fields(c: Copy): seq<Field> {
    c.link + (c.layers.arc + (c.layers.signature + c.layers.augmented.fields))
  }

  ghost predicate SafeCopy(cfg: Config, c: Copy) {
    var v := c.origin.verdict;
    && MayGoOut(v)
    && (!v.dmarcPass ==> c.layers.signature == [] && c.link == [])
    && c.bytes == Render(Message(Fields(c), c.layers.augmented.body))
    && c.layers.augmented == Outgoing(cfg, c.list, c.origin.raw, c.origin.munged)
    && Unsigned(c.link + c.layers.arc + c.layers.signature)
    && c.returnPath == Verp(LocalPart(c.list.cfg.postingAddress), c.list.domain, c.recipient)
  }

  lemma CopyIsSafe(cfg: Config, list: List, p: Prepared, io: DeliverIO, recipient: string)
    requires SafelyPrepared(cfg, list, p) && LinkFor(cfg, p, io, recipient).Ok?
    ensures SafeCopy(cfg, CopyFor(list, p, recipient, LinkFor(cfg, p, io, recipient).value))
  {
    var link := LinkFor(cfg, p, io, recipient).value;
    PrependKeepsBytes(link, p.layers.Whole());
    assert p.layers.Whole().fields == p.layers.arc + (p.layers.signature + p.layers.augmented.fields);
    forall f | f in link + p.layers.arc + p.layers.signature
      ensures forall n | n in SIGNED_HEADERS :: !SameName(f.name, n)
    {
      if f in link { NotSigned(f.name); } else { assert f in p.layers.arc + p.layers.signature; }
    }
  }

  /** Delivery works through the recipients in order, one copy each, and stops early only on an error. */
  lemma {:induction false} CopiesFollowRecipients(cfg: Config, list: List, p: Prepared, io: DeliverIO, rs: seq<string>)
    ensures var (copies, r) := CopiesFor(cfg, list, p, io, rs);
      && |copies| <= |rs|
      && (r.Ok? ==> |copies| == |rs| && r.value <= |rs|)
      && forall i :: 0 <= i < |copies| ==>
           LinkFor(cfg, p, io, rs[i]).Ok? && copies[i] == CopyFor(list, p, rs[i], LinkFor(cfg, p, io, rs[i]).value)
  {
    if rs != [] && LinkFor(cfg, p, io, rs[0]).Ok? {
      CopiesFollowRecipients(cfg, list, p, io, rs[1..]);
    }
  }

  lemma ActedDistributes(
      cfg: Config, t: Tables, list: List, ingress: Ingress, raw: seq<byte>, d: Decision, io: FinalizeIO, p: Prepared)
    requires Acted(cfg, t, list, ingress, raw, d, io) == Ok(Distribute(p))
    ensures Finalized(cfg, t, list, ingress, raw, io) == Ok(Distribute(p))
  {
  }

  /** A post goes out only if the before half approves it, and then as finalization says. */
  lemma JudgedDistributes(cfg: Config, t: Tables, list: List, ingress: Ingress, raw: seq<byte>, io: PostIO, p: Prepared)
    requires Judged(cfg, t, list, ingress, raw, io) == Ok(Distribute(p))
    ensures Finalized(cfg, t, list, ingress, raw, io.finalize) == Ok(Distribute(p))
  {
    var ctx := ContextFor(cfg, list, ingress, raw, EnvPairs(io.intake.value));
    var out := Before(cfg.engine, list.cfg.policy, list.domain, ctx, SetsOf(t, list.name)).value;
    ActedDistributes(cfg, t, list, ingress, raw, out.decision, io.finalize, p);
  }

  lemma PostDistributes(cfg: Config, t: Tables, list: List, ingress: Ingress, raw: seq<byte>, io: PostIO, p: Prepared)
    requires PostDisposition(cfg, t, list, ingress, raw, io) == Ok(Distribute(p))
    ensures Judged(cfg, Recorded(cfg, t, list, raw), list, ingress, raw, io) == Ok(Distribute(p))
  {
  }

  /** The prepared message behind the copies of a step. */
  lemma StepPrepared(cfg: Config, s: State, step: Step)
    requires Acts(s, step) && DispositionOf(cfg, s, step).Ok? && DispositionOf(cfg, s, step).value.Distribute?
    ensures var p := DispositionOf(cfg, s, step).value.prepared;
      && SafelyPrepared(cfg, ListOf(step), p)
      && p.origin.raw == RawOf(s, step) && FinalizeOf(step).verdict == Ok(p.origin.verdict)
      && p.recipients == Listing(s.tables.Deliverable(ListOf(step).name))
  {
    if step.Post? {
      var t := Recorded(cfg, s.tables, step.list, step.raw);
      assert t.Deliverable(step.list.name) == s.tables.Deliverable(step.list.name);
      var p := DispositionOf(cfg, s, step).value.prepared;
      PostDistributes(cfg, s.tables, step.list, step.ingress, step.raw, step.io, p);
      JudgedDistributes(cfg, t, step.list, step.ingress, step.raw, step.io, p);
      FinalizedIsSafe(cfg, t, step.list, step.ingress, step.raw, step.io.finalize);
    } else {
      var row := s.tables.queue[step.id];
      FinalizedIsSafe(cfg, s.tables, step.found.value, IngressOf(cfg, row), row.raw, step.finalize);
    }
  }

  /** A copy of a step, as the step's own finalization and tables account for it. */
  ghost predicate Accountable(cfg: Config, s: State, step: Step, c: Copy)
    requires Acts(s, step)
  {
    && SafeCopy(cfg, c)
    && c.list == ListOf(step)
    && c.origin.raw == RawOf(s, step)
    && FinalizeOf(step).verdict == Ok(c.origin.verdict)
    && c.recipient in s.tables.Deliverable(ListOf(step).name)
  }

  /** Copies made from a safely prepared message for distinct recipients. */
  lemma CopiesOfPrepared(cfg: Config, list: List, p: Prepared, io: DeliverIO)
    requires SafelyPrepared(cfg, list, p)
    requires forall i, j :: 0 <= i < j < |p.recipients| ==> p.recipients[i] != p.recipients[j]
    ensures var copies := Delivered(cfg, list, p, io).0;
      && (forall c :: c in copies ==>
            SafeCopy(cfg, c) && c.list == list && c.origin == p.origin && c.recipient in p.recipients)
      && (forall i, j :: 0 <= i < j < |copies| ==> copies[i].recipient != copies[j].recipient)
  {
    var copies := Delivered(cfg, list, p, io).0;
    CopiesFollowRecipients(cfg, list, p, io, p.recipients);
    forall c | c in copies
      ensures SafeCopy(cfg, c) && c.list == list && c.origin == p.origin && c.recipient in p.recipients
    {
      var i :| 0 <= i < |copies| && copies[i] == c;
      CopyIsSafe(cfg, list, p, io, p.recipients[i]);
    }
  }

  /**
   * Every copy of a step is safe, is judged by the verdict of that very step's finalization, and goes
   * to a subscriber that is deliverable at that moment; no subscriber gets two.
   */
  lemma StepCopiesSafe(cfg: Config, s: State, step: Step)
    ensures var copies := StepCopies(cfg, s, step);
      && (copies != [] ==> Acts(s, step))
      && (forall c :: c in copies ==> Accountable(cfg, s, step, c))
      && (forall i, j :: 0 <= i < j < |copies| ==> copies[i].recipient != copies[j].recipient)
  {
    if StepCopies(cfg, s, step) != [] {
      StepPrepared(cfg, s, step);
      var p := DispositionOf(cfg, s, step).value.prepared;
      ListingSorted(s.tables.Deliverable(ListOf(step).name));
      CopiesOfPrepared(cfg, ListOf(step), p, DeliverOf(step));
    }
  }

  function Recipients(copies: seq<Copy>): seq<string> {
    seq(|copies|, i requires 0 <= i < |copies| => copies[i].recipient)
  }

  lemma CompleteDelivery(cfg: Config, list: List, d: Result<Disposition>, io: DeliverIO)
    requires ResultOf(cfg, list, d, io).Ok? && ResultOf(cfg, list, d, io).value.Distributed?
    ensures d.Ok? && d.value.Distribute?
    ensures Recipients(CopiesOf(cfg, list, d, io)) == d.value.prepared.recipients
  {
    CopiesFollowRecipients(cfg, list, d.value.prepared, io, d.value.prepared.recipients);
  }

  /** A complete delivery sends to exactly the subscribed, enabled members, once each, in address order. */
  lemma DistributedReachesAll(cfg: Config, s: State, step: Step)
    requires Acts(s, step) && StepResult(cfg, s, step).Ok? && StepResult(cfg, s, step).value.Distributed?
    ensures Recipients(StepCopies(cfg, s, step)) == Listing(s.tables.Deliverable(ListOf(step).name))
  {
    CompleteDelivery(cfg, ListOf(step), DispositionOf(cfg, s, step), DeliverOf(step));
    StepPrepared(cfg, s, step);
  }

  /** The step's finalization saw this verdict for this message, and the copy is one of its own. */
  ghost predicate JudgedAt(cfg: Config, s: State, step: Step, c: Copy) {
    && Acts(s, step)
    && FinalizeOf(step).verdict == Ok(c.origin.verdict)
    && RawOf(s, step) == c.origin.raw
    && c in StepCopies(cfg, s, step)
  }

  ghost predicate JudgedInRun(cfg: Config, steps: seq<Step>, c: Copy) {
    exists i | 0 <= i < |steps| :: JudgedAt(cfg, Reached(cfg, steps[..i]), steps[i], c)
  }

  /**
   * The DMARC guarantee over whole runs: whatever is posted, held, approved and re-held, whatever
   * the custom scripts do and however verdicts change in between, a copy goes out only if the
   * verdict at its own finalization passed or asked for no enforcement, and it carries the list's
   * DKIM signature or a DKIM2 link only if that verdict passed.
   */
  lemma {:induction false} NoUnauthenticatedSigning(cfg: Config, steps: seq<Step>)
    ensures forall e :: e in Reached(cfg, steps).log && e.Sent? ==>
      SafeCopy(cfg, e.copy) && JudgedInRun(cfg, steps, e.copy)
  {
    if steps != [] {
      var init, step := steps[..|steps| - 1], steps[|steps| - 1];
      NoUnauthenticatedSigning(cfg, init);
      assert init + [step] == steps;
      forall e | e in Reached(cfg, steps).log && e.Sent?
        ensures SafeCopy(cfg, e.copy) && JudgedInRun(cfg, steps, e.copy)
      {
        JudgedStep(cfg, init, step, e);
      }
    }
  }

  lemma JudgedStep(cfg: Config, init: seq<Step>, step: Step, e: Entry)
    requires e.Sent? && e in Next(cfg, Reached(cfg, init), step).log
    requires e in Reached(cfg, init).log ==> SafeCopy(cfg, e.copy) && JudgedInRun(cfg, init, e.copy)
    ensures SafeCopy(cfg, e.copy) && JudgedInRun(cfg, init + [step], e.copy)
  {
    SentBefore(cfg, Reached(cfg, init), step, e);
    if e in Reached(cfg, init).log {
      JudgedLonger(cfg, init, step, e.copy);
    } else {
      JudgedNow(cfg, init, step, e.copy);
    }
  }

  lemma SentBefore(cfg: Config, s: State, step: Step, e: Entry)
    requires e.Sent? && e in Next(cfg, s, step).log
    ensures e in s.log || e.copy in StepCopies(cfg, s, step)
  {
    LogGrows(cfg, s, step);
    AmongSent(s.log, StepCopies(cfg, s, step), StepDone(cfg, s, step), e);
  }

  lemma AmongSent(log: seq<Entry>, copies: seq<Copy>, done: seq<Entry>, e: Entry)
    requires e.Sent? && e in log + SentEntries(copies) + done && forall d :: d in done ==> d.Done?
    ensures e in log || e.copy in copies
  {
  }

  lemma JudgedNow(cfg: Config, init: seq<Step>, step: Step, c: Copy)
    requires c in StepCopies(cfg, Reached(cfg, init), step)
    ensures SafeCopy(cfg, c) && JudgedInRun(cfg, init + [step], c)
  {
    StepCopiesSafe(cfg, Reached(cfg, init), step);
    assert Accountable(cfg, Reached(cfg, init), step, c);
    assert JudgedAt(cfg, Reached(cfg, init), step, c);
    var steps := init + [step];
    assert steps[|init|] == step && steps[..|init|] == init;
  }

  lemma JudgedLonger(cfg: Config, init: seq<Step>, step: Step, c: Copy)
    requires JudgedInRun(cfg, init, c)
    ensures JudgedInRun(cfg, init + [step], c)
  {
    var i :| 0 <= i < |init| && JudgedAt(cfg, Reached(cfg, init[..i]), init[i], c);
    SamePast(init, step, i);
    assert JudgedAt(cfg, Reached(cfg, (init + [step])[..i]), (init + [step])[i], c);
  }

  lemma SamePast(init: seq<Step>, step: Step, i: nat)
    requires i < |init|
    ensures (init + [step])[i] == init[i] && (init + [step])[..i] == init[..i]
  {
  }

  // ---- What signatures cover in the delivered copy ----

  /** Everything the daemon put on top of the inbound fields. */
  function AddedFields(cfg: Config, c: Copy): seq<Field> {
    c.link + (c.layers.arc + (c.layers.signature + ListFields(cfg.emit, ListHeaderEnv(c.list))))
  }

  /**
   * The central promise: with munging and the Subject tag off, a copy ends in the exact inbound
   * bytes, and an author signature's `h=` list selects the same fields in the copy as in the
   * original exactly when it does not oversign one of the names the daemon adds.
   */
  lemma AuthorSignatureSurvives(cfg: Config, c: Copy, h: seq<string>)
    requires Faithful(cfg) && SafeCopy(cfg, c)
    requires !c.origin.munged && SubjectPrefixEnv(c.list).None?
    ensures IsSuffix(c.origin.raw, c.bytes)
    ensures c.layers.augmented.body == cfg.view(c.origin.raw).body
    ensures Select(h, Fields(c)) == Select(h, cfg.view(c.origin.raw).fields)
       <==> CoversAtMost(h, AddedFields(cfg, c), cfg.view(c.origin.raw).fields)
  {
    var original := cfg.view(c.origin.raw);
    var lists := ListFields(cfg.emit, ListHeaderEnv(c.list));
    UneditedIsSuffix(cfg.emit, c.list, original);
    assert c.layers.augmented == Prepend(lists, original);
    Assoc(c.layers.signature, lists, original.fields);
    Assoc(c.layers.arc, c.layers.signature + lists, original.fields);
    Assoc(c.link, c.layers.arc + (c.layers.signature + lists), original.fields);
    assert Fields(c) == AddedFields(cfg, c) + original.fields;
    PrependKeepsBytes(AddedFields(cfg, c), original);
    assert Message(Fields(c), original.body) == Prepend(AddedFields(cfg, c), original);
    assert Render(original) == c.origin.raw;
    SelectUnderPrepend(h, AddedFields(cfg, c), original.fields);
  }

  /**
   * Where the promise fails: an author who oversigns `List-Id` on a message that has none finds the
   * list's own field selected in every unedited copy.
   */
  lemma OversignedListId(cfg: Config, c: Copy)
    requires Faithful(cfg) && SafeCopy(cfg, c)
    requires !c.origin.munged && SubjectPrefixEnv(c.list).None?
    requires FirstValue(cfg.view(c.origin.raw).fields, "List-Id").None?
    ensures Select(["List-Id"], Fields(c)) != Select(["List-Id"], cfg.view(c.origin.raw).fields)
  {
    AuthorSignatureSurvives(cfg, c, ["List-Id"]);
    var f := NewField(cfg.emit, "List-Id", ListHeaderEnv(c.list).listId);
    assert f == ListFields(cfg.emit, ListHeaderEnv(c.list))[0];
    assert f in AddedFields(cfg, c) by {
      assert f in ListFields(cfg.emit, ListHeaderEnv(c.list));
    }
    CountFieldPositive(cfg.view(c.origin.raw).fields, "List-Id");
    assert CountName(["List-Id"], f.name) == 1 + CountName([], f.name);
  }

  /** The list's own signature and the ARC message signature cover the same fields in the delivered copy. */
  lemma OwnSignaturesIndependent(cfg: Config, c: Copy, h: seq<string>)
    requires SafeCopy(cfg, c) && OnlySigned(h)
    ensures Select(h, Fields(c)) == Select(h, c.layers.augmented.fields)
  {
    var top := c.link + c.layers.arc + c.layers.signature;
    SelectionSurvivesLayers(h, top, c.layers.augmented);
    Assoc(c.link, c.layers.arc, c.layers.signature + c.layers.augmented.fields);
    Assoc(c.link + c.layers.arc, c.layers.signature, c.layers.augmented.fields);
  }

  // ---- Loops ----

  lemma LowerOccurs(before: string, id: string, after: string)
    ensures Find(ToLower(before + id + after), ToLower(id)) >= 0
  {
    var whole := before + id + after;
    assert ToLower(whole)[|before|..|before| + |id|] == ToLower(id) by {
      assert whole[|before|..|before| + |id|] == id;
    }
    assert OccursAt(ToLower(whole), ToLower(id), |before|);
  }

  /** Every copy carries its own list's id, in a form that the loop check recognises. */
  lemma CopyCarriesListId(cfg: Config, c: Copy)
    requires SafeCopy(cfg, c)
    ensures CarriesListId(Fields(c), ListId(c.list))
  {
    var env := ListHeaderEnv(c.list);
    var f := NewField(cfg.emit, "List-Id", env.listId);
    LowerOccurs(GetOr(c.list.cfg.displayName, c.list.name) + " <", ListId(c.list), ">");
    assert f == ListFields(cfg.emit, env)[0];
    assert f in c.layers.augmented.fields;
    assert f in Fields(c);
  }

  /**
   * Mail loops are cut: a delivered copy that comes back to its list, and is read back as it was
   * written, is dropped without being recorded, held or sent on, whatever its verdict by then.
   */
  lemma ReturnedCopyDropped(cfg: Config, s: State, c: Copy, ingress: Ingress, io: PostIO)
    requires SafeCopy(cfg, c)
    requires cfg.parseable(c.bytes) && cfg.view(c.bytes).fields == Fields(c)
    ensures var step := Post(c.list, ingress, c.bytes, io);
      && StepResult(cfg, s, step) == Ok(Discarded(LOOP_REASON))
      && StepCopies(cfg, s, step) == []
      && Next(cfg, s, step).tables == s.tables
  {
    CopyCarriesListId(cfg, c);
    var step := Post(c.list, ingress, c.bytes, io);
    assert Screened(cfg, s.tables, c.list, c.bytes) == Some(LOOP_REASON);
    PostTables(cfg, s, step);
  }
}
