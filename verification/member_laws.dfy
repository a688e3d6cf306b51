/** Who receives mail, read off the members table. */
module MemberLaws {
  import opened Wrappers
  import opened Text
  import opened Storage
  import opened Lists
  import opened Pipeline
  import opened Lifecycle
  import opened DeliveryLaws
  import opened OnceLaws
  import opened Ledger

  /** The member has a row, is subscribed, and is not disabled. */
  predicate Receives(members: map<MemberKey, MemberRow>, k: MemberKey) {
    k in members && members[k].subscribed && !members[k].disabled
  }

  lemma DeliverableReads(t: Tables, list: string, address: string)
    ensures address in t.Deliverable(list) <==> Receives(t.members, (list, address))
  {
  }

  /** The listing of a list's recipients: exactly the rows that are subscribed and not disabled. */
  lemma RecipientsRead(t: Tables, list: string, address: string)
    ensures address in Listing(t.Deliverable(list)) <==> Receives(t.members, (list, address))
  {
    ListingSorted(t.Deliverable(list));
    DeliverableReads(t, list, address);
  }

  /** Every copy of every step goes to a member who receives mail at that step. */
  lemma CopiesToReceivers(cfg: Config, s: State, step: Step, c: Copy)
    requires c in StepCopies(cfg, s, step)
    ensures Acts(s, step) && Receives(s.tables.members, (ListOf(step).name, c.recipient))
    ensures c.list == ListOf(step)
  {
    StepCopiesSafe(cfg, s, step);
    assert Accountable(cfg, s, step, c);
    DeliverableReads(s.tables, ListOf(step).name, c.recipient);
  }

  /** A complete delivery serves exactly the members who receive mail, and counts the accepted among them. */
  lemma CompleteDeliveryServes(cfg: Config, s: State, step: Step, address: string)
    requires Acts(s, step) && StepResult(cfg, s, step).Ok? && StepResult(cfg, s, step).value.Distributed?
    ensures Serves(StepCopies(cfg, s, step), address)
       <==> Receives(s.tables.members, (ListOf(step).name, address))
  {
    var copies := StepCopies(cfg, s, step);
    DistributedReachesAll(cfg, s, step);
    RecipientsRead(s.tables, ListOf(step).name, address);
    if Receives(s.tables.members, (ListOf(step).name, address)) {
      var i :| 0 <= i < |copies| && DeliveryLaws.Recipients(copies)[i] == address;
      assert copies[i] in copies && copies[i].recipient == address;
    }
    if Serves(copies, address) {
      var c :| c in copies && c.recipient == address;
      CopiesToReceivers(cfg, s, step, c);
    }
  }

  // ---- The count that is reported ----

  function Accepted(io: DeliverIO, recipients: seq<string>): set<string> {
    set a | a in recipients && io.accepts(a)
  }

  lemma {:induction false} CountIsAccepted(cfg: Config, list: List, p: Prepared, io: DeliverIO, recipients: seq<string>)
    requires forall i, j :: 0 <= i < j < |recipients| ==> recipients[i] != recipients[j]
    ensures var r := CopiesFor(cfg, list, p, io, recipients).1; r.Ok? ==> r.value == |Accepted(io, recipients)|
  {
    if recipients == [] {
      assert Accepted(io, recipients) == {};
    } else {
      CountIsAccepted(cfg, list, p, io, recipients[1..]);
      var head := recipients[0];
      assert forall a :: a in recipients <==> a == head || a in recipients[1..];
      assert head !in recipients[1..];
      if io.accepts(head) {
        assert Accepted(io, recipients) == Accepted(io, recipients[1..]) + {head};
      } else {
        assert Accepted(io, recipients) == Accepted(io, recipients[1..]);
      }
    }
  }

  /** What is reported is how many of the members who receive mail the smarthost accepted. */
  lemma ReportedCount(cfg: Config, s: State, step: Step)
    requires Acts(s, step) && StepResult(cfg, s, step).Ok? && StepResult(cfg, s, step).value.Distributed?
    ensures var receiving := set a | a in s.tables.Deliverable(ListOf(step).name) && DeliverOf(step).accepts(a);
      && StepResult(cfg, s, step).value.count == |receiving|
      && forall a :: a in receiving <==>
           Receives(s.tables.members, (ListOf(step).name, a)) && DeliverOf(step).accepts(a)
  {
    CompleteDelivery(cfg, ListOf(step), DispositionOf(cfg, s, step), DeliverOf(step));
    StepPrepared(cfg, s, step);
    ListingSorted(s.tables.Deliverable(ListOf(step).name));
    CountOf(cfg, s, step, DispositionOf(cfg, s, step).value.prepared);
    AcceptedReads(s.tables, ListOf(step).name, DeliverOf(step));
  }

  lemma AcceptedReads(t: Tables, list: string, io: DeliverIO)
    ensures var receiving := set a | a in t.Deliverable(list) && io.accepts(a);
      && Accepted(io, Listing(t.Deliverable(list))) == receiving
      && forall a :: a in receiving <==> Receives(t.members, (list, a)) && io.accepts(a)
  {
    ListingSorted(t.Deliverable(list));
    forall a ensures a in t.Deliverable(list) <==> Receives(t.members, (list, a)) {
      DeliverableReads(t, list, a);
    }
  }

  lemma CountOf(cfg: Config, s: State, step: Step, p: Prepared)
    requires Acts(s, step) && StepResult(cfg, s, step).Ok? && StepResult(cfg, s, step).value.Distributed?
    requires DispositionOf(cfg, s, step) == Ok(Distribute(p))
    requires forall i, j :: 0 <= i < j < |p.recipients| ==> p.recipients[i] != p.recipients[j]
    ensures StepResult(cfg, s, step).value.count == |Accepted(DeliverOf(step), p.recipients)|
  {
    CountIsAccepted(cfg, ListOf(step), p, DeliverOf(step), p.recipients);
    assert Accepted(DeliverOf(step), []) == {};
  }

  // ---- When delivery fails ----

  lemma {:induction false} LinksFailIff(cfg: Config, list: List, p: Prepared, io: DeliverIO, recipients: seq<string>)
    ensures CopiesFor(cfg, list, p, io, recipients).1.Err?
       <==> p.dkim2Original.Some? && exists r :: r in recipients && io.link(r).Err?
  {
    if recipients != [] {
      LinksFailIff(cfg, list, p, io, recipients[1..]);
      assert forall r :: r in recipients <==> r == recipients[0] || r in recipients[1..];
    }
  }

  /**
   * Delivery fails exactly when there is someone to deliver to and either the smarthost cannot be reached
   * or, for a message in a DKIM2 chain, some recipient's link cannot be signed. A copy that the
   * smarthost does not accept is not a failure.
   */
  lemma DeliveryFailsIff(cfg: Config, list: List, p: Prepared, io: DeliverIO)
    ensures Delivered(cfg, list, p, io).1.Err? <==>
      && p.recipients != []
      && (!io.connects || (p.dkim2Original.Some? && exists r :: r in p.recipients && io.link(r).Err?))
    ensures !io.connects ==> Delivered(cfg, list, p, io).0 == []
  {
    LinksFailIff(cfg, list, p, io, p.recipients);
  }

  // ---- Roles ----

  /** Adding a member sets the three roles as given, new row or not, and touches nothing else of any row. */
  lemma AddSetsRoles(
      cfg: Config, s: State, name: string, address: string, subscribed: bool, poster: bool, moderator: bool)
    ensures var s' := Next(cfg, s, Add(name, address, subscribed, poster, moderator));
      var (k, rows, rows') := ((name, Canonical(address)), s.tables.members, s'.tables.members);
      && k in rows' && rows'[k].subscribed == subscribed && rows'[k].poster == poster && rows'[k].moderator == moderator
      && rows'[k].score == (if k in rows then rows[k].score else 0.0)
      && rows'[k].disabled == (k in rows && rows[k].disabled)
      && (forall j :: j != k ==> (j in rows' <==> j in rows) && (j in rows ==> rows'[j] == rows[j]))
  {
  }

  // ---- Disabled members get nothing ----

  /** Copies ever sent to a member of a list. */
  function CopiesToMember(log: seq<Entry>, k: MemberKey): nat {
    if log == [] then 0
    else
      var e := log[|log| - 1];
      CopiesToMember(log[..|log| - 1], k)
      + if e.Sent? && (e.copy.list.name, e.copy.recipient) == k then 1 else 0
  }

  lemma {:induction false} NoneAmong(log: seq<Entry>, more: seq<Entry>, k: MemberKey)
    requires forall e :: e in more ==> !(e.Sent? && (e.copy.list.name, e.copy.recipient) == k)
    ensures CopiesToMember(log + more, k) == CopiesToMember(log, k)
  {
    if more == [] {
      assert log + more == log;
    } else {
      assert (log + more)[..|log + more| - 1] == log + more[..|more| - 1];
      assert more[|more| - 1] in more;
      NoneAmong(log, more[..|more| - 1], k);
    }
  }

  /** A step sends nothing to a member who does not receive mail when it starts. */
  lemma NothingForOthers(cfg: Config, s: State, step: Step, k: MemberKey)
    requires !Receives(s.tables.members, k)
    ensures CopiesToMember(Next(cfg, s, step).log, k) == CopiesToMember(s.log, k)
  {
    LogGrows(cfg, s, step);
    var copies, done := StepCopies(cfg, s, step), StepDone(cfg, s, step);
    forall c | c in copies ensures (c.list.name, c.recipient) != k {
      CopiesToReceivers(cfg, s, step, c);
    }
    NoneAmong(s.log, SentEntries(copies), k);
    NoneAmong(s.log + SentEntries(copies), done, k);
  }

  /** The step puts the member back to a clean state: it enables or removes it. */
  predicate Resets(step: Step, k: MemberKey) {
    || (step.Enable? && Key(step.name, step.address) == k)
    || (step.Remove? && Key(step.name, step.address) == k)
  }

  /** A disabled member stays so under every step but an enabling or a removal. */
  lemma DisabledStays(cfg: Config, s: State, step: Step, k: MemberKey)
    requires k in s.tables.members && s.tables.members[k].disabled && !Resets(step, k)
    ensures var rows := Next(cfg, s, step).tables.members; k in rows && rows[k].disabled
  {
    MembersStep(cfg, s, step);
  }

  lemma DisabledStep(cfg: Config, s: State, step: Step, k: MemberKey)
    requires IsDisabled(s, k) && !Resets(step, k)
    ensures var s' := Next(cfg, s, step); IsDisabled(s', k) && CopiesToMember(s'.log, k) == CopiesToMember(s.log, k)
  {
    DisabledStays(cfg, s, step, k);
    NothingForOthers(cfg, s, step, k);
  }

  ghost predicate IsDisabled(s: State, k: MemberKey) {
    k in s.tables.members && s.tables.members[k].disabled
  }

  /** The member is disabled after the longer run, and has got nothing since the shorter one. */
  ghost predicate QuietSince(cfg: Config, steps: seq<Step>, later: seq<Step>, k: MemberKey) {
    && IsDisabled(Reached(cfg, later), k)
    && CopiesToMember(Reached(cfg, later).log, k) == CopiesToMember(Reached(cfg, steps).log, k)
  }

  /** What holds after a run, and is kept by each further step of a kind, holds after any number of them. */
  lemma {:induction false} KeptByAll(holds: seq<Step> -> bool, kind: Step -> bool, steps: seq<Step>, more: seq<Step>)
    requires holds(steps) && forall i :: 0 <= i < |more| ==> kind(more[i])
    requires forall run: seq<Step>, step: Step {:trigger holds(run + [step])} ::
      holds(run) && kind(step) ==> holds(run + [step])
    ensures holds(steps + more)
    decreases |more|
  {
    if more == [] {
      assert steps + more == steps;
    } else {
      var init, step := more[..|more| - 1], more[|more| - 1];
      KeptByAll(holds, kind, steps, init);
      assert steps + more == (steps + init) + [step];
    }
  }

  /** From a run that ends with the member disabled on, nothing goes to it until it is enabled, or removed. */
  lemma DisabledGetsNothing(cfg: Config, steps: seq<Step>, more: seq<Step>, k: MemberKey)
    requires IsDisabled(Reached(cfg, steps), k)
    requires forall i :: 0 <= i < |more| ==> !Resets(more[i], k)
    ensures QuietSince(cfg, steps, steps + more, k)
  {
    var holds := run => QuietSince(cfg, steps, run, k);
    forall run: seq<Step>, step: Step | holds(run) && !Resets(step, k) ensures holds(run + [step]) {
      DisabledLast(cfg, run, step, k);
    }
    KeptByAll(holds, step => !Resets(step, k), steps, more);
  }

  lemma DisabledLast(cfg: Config, steps: seq<Step>, step: Step, k: MemberKey)
    requires IsDisabled(Reached(cfg, steps), k) && !Resets(step, k)
    ensures IsDisabled(Reached(cfg, steps + [step]), k)
    ensures CopiesToMember(Reached(cfg, steps + [step]).log, k) == CopiesToMember(Reached(cfg, steps).log, k)
  {
    ReachedLast(cfg, steps, step);
    DisabledStep(cfg, Reached(cfg, steps), step, k);
  }

  /**
   * From the ledger to the mail: once a member charged with permanent failures only has had
   * ceil(threshold / hard weight) of them, no further copy goes to it until it is enabled, or removed.
   */
  lemma HardBouncesStopMail(cfg: Config, steps: seq<Step>, more: seq<Step>, k: MemberKey)
    requires cfg.bounce.hardWeight > 0.0 && cfg.bounce.threshold > 0.0
    requires Charges(cfg, steps, k).Some?
    requires forall w :: w in Charges(cfg, steps, k).value ==> w == cfg.bounce.hardWeight
    requires |Charges(cfg, steps, k).value| >= ChargesNeeded(cfg.bounce.threshold, cfg.bounce.hardWeight)
    requires forall i :: 0 <= i < |more| ==> !Resets(more[i], k)
    ensures CopiesToMember(Reached(cfg, steps + more).log, k) == CopiesToMember(Reached(cfg, steps).log, k)
  {
    HardBouncesDisableAt(cfg, steps, k);
    DisabledGetsNothing(cfg, steps, more, k);
  }
}
