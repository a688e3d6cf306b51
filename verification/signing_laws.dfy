/** Which signatures a copy carries, and which edits it went through, in terms of what the scripts filed. */
module SigningLaws {
  import opened Wrappers
  import opened Messages
  import opened Storage
  import opened Policy
  import opened PolicyLaws
  import opened EngineLaws
  import opened Lists
  import opened Transform
  import opened TransformLaws
  import opened Sign
  import opened Pipeline
  import opened Lifecycle
  import opened DeliveryLaws
  import opened DispositionLaws
  import opened HeaderLaws

  // ---- One copy ----

  /** Some script of the step's after half, the gate included, filed into the folder. */
  ghost predicate AfterFiles(cfg: Config, s: State, step: Step, folder: string)
    requires Acts(s, step) && FinalizeOf(step).verdict.Ok?
  {
    SomeFiles(AfterScripts(cfg.engine, ListOf(step).domain), AfterContext(cfg, s, step),
              SetsOf(s.tables, ListOf(step).name), folder)
  }

  function HeaderLine(cfg: Config, name: string, value: string): Field {
    Field(name, value, cfg.emit(name, value))
  }

  /** The three fields of an ARC set, in their order on the wire. */
  function ArcLines(cfg: Config, arc: ArcSet): seq<Field> {
    [HeaderLine(cfg, "ARC-Seal", arc.seal),
     HeaderLine(cfg, "ARC-Message-Signature", arc.signature),
     HeaderLine(cfg, "ARC-Authentication-Results", arc.results)]
  }

  /** The signing layers of a message, from the top, and the message they stand on. */
  predicate SignedAs(cfg: Config, l: Layers, io: SignIO, withheld: bool) {
    && io.arc.Ok? && l.arc == ArcLines(cfg, io.arc.value)
    && if withheld then l.signature == []
       else io.dkim.Ok? && l.signature == [HeaderLine(cfg, "DKIM-Signature", io.dkim.value)]
  }

  /** Preparation succeeds exactly when the sealer answers and, unless withheld, the signer does. */
  lemma LayeringSucceedsIff(cfg: Config, io: SignIO, augmented: Message, withheld: bool)
    ensures var r := Layering(cfg.emit, io, augmented, withheld);
      && (r.Ok? <==> io.arc.Ok? && (withheld || io.dkim.Ok?))
      && (r.Ok? ==> r.value.augmented == augmented && SignedAs(cfg, r.value, io, withheld))
  {
  }

  /** Where a copy comes from. */
  lemma CopyFrom(cfg: Config, s: State, step: Step, c: Copy) returns (p: Prepared)
    requires c in StepCopies(cfg, s, step)
    ensures Finalizes(cfg, s, step) && FinalizeOf(step).verdict.Ok? && Approves(AfterOf(cfg, s, step))
    ensures PreparedFor(cfg, s.tables, ListOf(step), RawOf(s, step), FinalizeOf(step).verdict.value,
                        AfterOf(cfg, s, step).value, FinalizeOf(step).sign) == Ok(p)
    ensures LinkFor(cfg, p, DeliverOf(step), c.recipient).Ok?
    ensures c == CopyFor(ListOf(step), p, c.recipient, LinkFor(cfg, p, DeliverOf(step), c.recipient).value)
  {
    CopiesMeanApproval(cfg, s, step);
    FinalizedConcludes(cfg, s, step);
    var d := Finalized(cfg, s.tables, ListOf(step), IngressOfStep(cfg, s, step), RawOf(s, step), FinalizeOf(step));
    if d == Err(Unparseable) {
      UnparseableSendsNothing(cfg, s, step);
    }
    StepIsFinalized(cfg, s, step);
    CarriedOut(cfg, s, step, d);
    p := ConcludedCopies(cfg, s.tables, ListOf(step), RawOf(s, step), FinalizeOf(step).verdict.value,
                         AfterOf(cfg, s, step).value, FinalizeOf(step).sign, DeliverOf(step), c);
  }

  lemma ConcludedCopies(
      cfg: Config, t: Tables, list: List, raw: seq<byte>, v: AuthVerdict, out: Outcome, io: SignIO,
      deliver: DeliverIO, c: Copy)
      returns (p: Prepared)
    requires out.decision.Approve?
    requires c in CopiesOf(cfg, list, Concluded(cfg, t, list, raw, v, out, io), deliver)
    ensures PreparedFor(cfg, t, list, raw, v, out, io) == Ok(p)
    ensures LinkFor(cfg, p, deliver, c.recipient).Ok?
    ensures c == CopyFor(list, p, c.recipient, LinkFor(cfg, p, deliver, c.recipient).value)
  {
    p := PreparedFor(cfg, t, list, raw, v, out, io).value;
    CopyOfPrepared(cfg, list, p, deliver, c);
  }

  lemma CopyOfPrepared(cfg: Config, list: List, p: Prepared, io: DeliverIO, c: Copy)
    requires c in Delivered(cfg, list, p, io).0
    ensures LinkFor(cfg, p, io, c.recipient).Ok?
    ensures c == CopyFor(list, p, c.recipient, LinkFor(cfg, p, io, c.recipient).value)
  {
    CopiesFollowRecipients(cfg, list, p, io, p.recipients);
  }

  /** What the daemon wrote on top of the augmented message, in terms of verdict, signers and filings. */
  ghost predicate LayeredAs(cfg: Config, s: State, step: Step, c: Copy)
    requires Acts(s, step) && FinalizeOf(step).verdict.Ok?
  {
    var io, withheld := FinalizeOf(step).sign, AfterFiles(cfg, s, step, "no-dkim");
    var chained := FinalizeOf(step).verdict.value.dkim2Result != "none" && !withheld;
    && io.arc.Ok?
    && Fields(c) == c.link + (ArcLines(cfg, io.arc.value) + (c.layers.signature + c.layers.augmented.fields))
    && (withheld ==> c.layers.signature == [])
    && (!withheld ==> io.dkim.Ok? && c.layers.signature == [HeaderLine(cfg, "DKIM-Signature", io.dkim.value)])
    && (!chained ==> c.link == [])
    && (chained ==>
          && DeliverOf(step).link(c.recipient).Ok?
          && c.link == [HeaderLine(cfg, "DKIM2-Signature", DeliverOf(step).link(c.recipient).value)])
  }

  /**
   * From the top, a copy is: a DKIM2 link if the inbound message takes part in a chain and nothing asked
   * to withhold it; the ARC set, always; the list's signature, exactly if no script of the after half
   * filed into `no-dkim`; the augmented message.
   */
  lemma CopyIsLayered(cfg: Config, s: State, step: Step, c: Copy)
    requires c in StepCopies(cfg, s, step)
    ensures Acts(s, step) && FinalizeOf(step).verdict.Ok? && LayeredAs(cfg, s, step, c)
  {
    var p := CopyFrom(cfg, s, step, c);
    var out := AfterOf(cfg, s, step).value;
    var augmented := Outgoing(cfg, ListOf(step), RawOf(s, step), out.mungeFrom);
    AfterFlags(cfg.engine, ListOf(step).domain, AfterContext(cfg, s, step), SetsOf(s.tables, ListOf(step).name));
    LayeringSucceedsIff(cfg, FinalizeOf(step).sign, augmented, out.noOwnDkim);
  }

  /** The edits of a copy: munged exactly if some script of the after half asked for it. */
  lemma CopyIsEdited(cfg: Config, s: State, step: Step, c: Copy)
    requires c in StepCopies(cfg, s, step)
    ensures Acts(s, step) && FinalizeOf(step).verdict.Ok?
    ensures c.origin.munged <==> AfterFiles(cfg, s, step, "munge-from")
    ensures c.layers.augmented == Outgoing(cfg, ListOf(step), RawOf(s, step), c.origin.munged)
  {
    var p := CopyFrom(cfg, s, step, c);
    var out := AfterOf(cfg, s, step).value;
    AfterFlags(cfg.engine, ListOf(step).domain, AfterContext(cfg, s, step), SetsOf(s.tables, ListOf(step).name));
    LayeringSucceedsIff(
      cfg, FinalizeOf(step).sign, Outgoing(cfg, ListOf(step), RawOf(s, step), out.mungeFrom), out.noOwnDkim);
  }

  /** What an outgoing message shows for From, Reply-To and Subject, and what it leaves alone. */
  ghost predicate ShowsEdits(cfg: Config, list: List, raw: seq<byte>, munged: bool, m: Message) {
    var (original, tag) := (cfg.view(raw), SubjectPrefixEnv(list));
    var (from, replyTo) := MungeEnv(list, cfg.author(raw).0, cfg.author(raw).1);
    && m.body == original.body
    && (munged ==> Single(m.fields, "From", from) && Single(m.fields, "Reply-To", replyTo))
    && (tag.Some? && !AnySubjectTagged(original.fields, tag.value) ==>
          Single(m.fields, "Subject", match FirstValue(original.fields, "Subject")
            case Some(text) => "[" + tag.value + "] " + text
            case None => "[" + tag.value + "]"))
    && (tag.None? && !munged ==> m.fields == ListFields(cfg.emit, ListHeaderEnv(list)) + original.fields)
  }

  lemma OutgoingShowsEdits(cfg: Config, list: List, raw: seq<byte>, munged: bool)
    ensures ShowsEdits(cfg, list, raw, munged, Outgoing(cfg, list, raw, munged))
  {
    var munge := Munge(cfg, list, raw, munged);
    if munged { MungeIsApplied(cfg.emit, list, munge.value, cfg.view(raw)); }
    if SubjectPrefixEnv(list).Some? && !AnySubjectTagged(cfg.view(raw).fields, SubjectPrefixEnv(list).value) {
      TagIsApplied(cfg.emit, list, munge, cfg.view(raw));
    }
  }

  /** The edits in a copy: the munge if some script of its after half asked for it, the tag if one is configured. */
  lemma EditsShow(cfg: Config, s: State, step: Step, c: Copy)
    requires c in StepCopies(cfg, s, step)
    ensures Acts(s, step) && FinalizeOf(step).verdict.Ok?
    ensures ShowsEdits(cfg, ListOf(step), RawOf(s, step), AfterFiles(cfg, s, step, "munge-from"), c.layers.augmented)
  {
    CopyIsEdited(cfg, s, step, c);
    OutgoingShowsEdits(cfg, ListOf(step), RawOf(s, step), c.origin.munged);
  }

  // ---- Every copy of every run ----

  /** Some step of the run made the copy, and its signatures are as that step's after half and signers say. */
  ghost predicate SignedInRun(cfg: Config, steps: seq<Step>, c: Copy) {
    exists i | 0 <= i < |steps| :: SignedAt(cfg, Reached(cfg, steps[..i]), steps[i], c)
  }

  ghost predicate SignedAt(cfg: Config, s: State, step: Step, c: Copy) {
    c in StepCopies(cfg, s, step) && Acts(s, step) && FinalizeOf(step).verdict.Ok? && LayeredAs(cfg, s, step, c)
  }

  /**
   * In every run: each copy sent carries the ARC set, and carries the list's own signature if and only if
   * no script of the after half it went through, the gate included, filed into `no-dkim`.
   */
  lemma SentCopiesAreSigned(cfg: Config, steps: seq<Step>)
    ensures forall e :: e in Reached(cfg, steps).log && e.Sent? ==> SignedInRun(cfg, steps, e.copy)
  {
    NoUnauthenticatedSigning(cfg, steps);
    forall e | e in Reached(cfg, steps).log && e.Sent? ensures SignedInRun(cfg, steps, e.copy) {
      assert JudgedInRun(cfg, steps, e.copy);
      var i :| 0 <= i < |steps| && JudgedAt(cfg, Reached(cfg, steps[..i]), steps[i], e.copy);
      JudgedIsSigned(cfg, Reached(cfg, steps[..i]), steps[i], e.copy);
    }
  }

  lemma JudgedIsSigned(cfg: Config, s: State, step: Step, c: Copy)
    requires JudgedAt(cfg, s, step, c)
    ensures SignedAt(cfg, s, step, c)
  {
    CopyIsLayered(cfg, s, step, c);
  }
}
