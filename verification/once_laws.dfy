/** At most one distribution per list and Message-ID, in every run. */
module OnceLaws {
  import opened Wrappers
  import opened Text
  import opened Messages
  import opened Storage
  import opened Lists
  import opened Pipeline
  import opened Lifecycle
  import opened DeliveryLaws

  /** A list name and a Message-ID. */
  datatype Pair = Pair(list: string, id: string)

  predicate Concerns(cfg: Config, name: string, raw: seq<byte>, p: Pair) {
    name == p.list && MessageId(cfg.view(raw)) == Some(p.id)
  }

  ghost function Live(cfg: Config, t: Tables, p: Pair): set<int> {
    set id | id in t.queue && Concerns(cfg, t.queue[id].list, t.queue[id].raw, p)
  }

  function Distributions(cfg: Config, log: seq<Entry>, p: Pair): nat {
    if log == [] then 0
    else
      var e := log[|log| - 1];
      Distributions(cfg, log[..|log| - 1], p)
      + if e.Done? && e.outcome.Distributed? && Concerns(cfg, e.list, e.raw, p) then 1 else 0
  }

  /** Copies of the message handed over for one subscriber. */
  function CopiesTo(cfg: Config, log: seq<Entry>, p: Pair, recipient: string): nat {
    if log == [] then 0
    else
      var e := log[|log| - 1];
      CopiesTo(cfg, log[..|log| - 1], p, recipient)
      + if e.Sent? && e.copy.recipient == recipient && Concerns(cfg, e.copy.list.name, e.copy.origin.raw, p)
        then 1 else 0
  }

  lemma {:induction false} DistributionsConcat(cfg: Config, a: seq<Entry>, b: seq<Entry>, p: Pair)
    ensures Distributions(cfg, a + b, p) == Distributions(cfg, a, p) + Distributions(cfg, b, p)
  {
    if b == [] {
      assert a + b == a;
    } else {
      assert (a + b)[..|a + b| - 1] == a + b[..|b| - 1];
      DistributionsConcat(cfg, a, b[..|b| - 1], p);
    }
  }

  lemma {:induction false} CopiesToConcat(cfg: Config, a: seq<Entry>, b: seq<Entry>, p: Pair, recipient: string)
    ensures CopiesTo(cfg, a + b, p, recipient) == CopiesTo(cfg, a, p, recipient) + CopiesTo(cfg, b, p, recipient)
  {
    if b == [] {
      assert a + b == a;
    } else {
      assert (a + b)[..|a + b| - 1] == a + b[..|b| - 1];
      CopiesToConcat(cfg, a, b[..|b| - 1], p, recipient);
    }
  }

  lemma {:induction false} NoDistributionsAmong(cfg: Config, log: seq<Entry>, p: Pair)
    requires forall e :: e in log ==> e.Sent?
    ensures Distributions(cfg, log, p) == 0
  {
    if log != [] {
      NoDistributionsAmong(cfg, log[..|log| - 1], p);
      assert log[|log| - 1] in log;
    }
  }

  /** What one step adds to the count. */
  lemma DistributionsStep(cfg: Config, s: State, step: Step, p: Pair)
    ensures Distributions(cfg, Next(cfg, s, step).log, p) == Distributions(cfg, s.log, p) +
      if Acts(s, step) && StepResult(cfg, s, step).Ok? && StepResult(cfg, s, step).value.Distributed?
         && Concerns(cfg, ListOf(step).name, RawOf(s, step), p) then 1 else 0
  {
    LogGrows(cfg, s, step);
    var sent, done := SentEntries(StepCopies(cfg, s, step)), StepDone(cfg, s, step);
    DistributionsConcat(cfg, s.log + sent, done, p);
    DistributionsConcat(cfg, s.log, sent, p);
    NoDistributionsAmong(cfg, sent, p);
    if done != [] {
      assert done[..0] == [];
      assert Distributions(cfg, done[..0], p) == 0;
    }
  }

  lemma LiveEnqueue(cfg: Config, t: Tables, row: HeldRow, p: Pair)
    requires t.lastId + 1 !in t.queue
    ensures |Live(cfg, t.Enqueue(row), p)| == |Live(cfg, t, p)| + if Concerns(cfg, row.list, row.raw, p) then 1 else 0
  {
    var now, was := Live(cfg, t.Enqueue(row), p), Live(cfg, t, p);
    var id := t.lastId + 1;
    forall i ensures i in now <==> i in was || (i == id && Concerns(cfg, row.list, row.raw, p)) {
      LiveMember(cfg, t, row, p, i);
    }
    if Concerns(cfg, row.list, row.raw, p) {
      assert now == was + {id};
    } else {
      assert now == was;
    }
  }

  lemma LiveMember(cfg: Config, t: Tables, row: HeldRow, p: Pair, i: int)
    requires t.lastId + 1 !in t.queue
    ensures i in Live(cfg, t.Enqueue(row), p)
       <==> i in Live(cfg, t, p) || (i == t.lastId + 1 && Concerns(cfg, row.list, row.raw, p))
  {
  }

  lemma LiveDelete(cfg: Config, t: Tables, id: int, p: Pair)
    ensures |Live(cfg, t.DeleteHeld(id), p)| ==
      |Live(cfg, t, p)| - if id in t.queue && Concerns(cfg, t.queue[id].list, t.queue[id].raw, p) then 1 else 0
  {
    var now := Live(cfg, t.DeleteHeld(id), p);
    if id in Live(cfg, t, p) {
      assert now == Live(cfg, t, p) - {id};
    } else {
      assert now == Live(cfg, t, p);
    }
  }

  // ---- Deliveries that fail part way ----

  /** A delivery of this message that failed after some copies had gone out. */
  ghost predicate Interrupted(cfg: Config, s: State, step: Step, p: Pair) {
    && Acts(s, step) && Concerns(cfg, ListOf(step).name, RawOf(s, step), p)
    && StepCopies(cfg, s, step) != [] && StepResult(cfg, s, step).Err?
  }

  /** How many posts of a run were interrupted, or how many approvals. */
  ghost function Interruptions(cfg: Config, steps: seq<Step>, p: Pair, posts: bool): nat {
    if steps == [] then 0
    else
      var init, step := steps[..|steps| - 1], steps[|steps| - 1];
      Interruptions(cfg, init, p, posts)
      + if step.Post? == posts && Interrupted(cfg, Reached(cfg, init), step, p) then 1 else 0
  }

  // ---- The balance ----

  /**
   * Live queue entries, distributions and `lost` posts together never exceed one, and are none while
   * the id is unseen. An interrupted post is lost: it left no entry, and its id is seen.
   */
  ghost predicate AtMostOnce(cfg: Config, s: State, p: Pair, lost: nat) {
    |Live(cfg, s.tables, p)| + Distributions(cfg, s.log, p) + lost <= if (p.list, p.id) in s.tables.seen then 1 else 0
  }

  lemma OncePost(cfg: Config, s: State, step: Step, p: Pair, lost: nat)
    requires step.Post? && WellFormed(s.tables) && AtMostOnce(cfg, s, p, lost)
    ensures AtMostOnce(cfg, Next(cfg, s, step), p, lost + if Interrupted(cfg, s, step, p) then 1 else 0)
  {
    PostTables(cfg, s, step);
    DistributionsStep(cfg, s, step, p);
    var t := Entered(cfg, s.tables, step.list, step.raw);
    assert Live(cfg, t, p) == Live(cfg, s.tables, p);
    if Enters(cfg, s.tables, step.list, step.raw) {
      LiveEnqueue(cfg, t, RowOf(cfg, s, step), p);
    } else {
      PostScreened(cfg, s, step);
    }
  }

  lemma OnceApproval(cfg: Config, s: State, step: Step, p: Pair, lost: nat)
    requires Approvable(s, step) && WellFormed(s.tables) && AtMostOnce(cfg, s, p, lost)
    ensures AtMostOnce(cfg, Next(cfg, s, step), p, lost)
  {
    ApprovalTables(cfg, s, step);
    DistributionsStep(cfg, s, step, p);
    var row := RowOf(cfg, s, step);
    LiveEnqueue(cfg, s.tables, row, p);
    LiveDelete(cfg, s.tables.Enqueue(row), step.id, p);
    LiveDelete(cfg, s.tables, step.id, p);
    assert s.tables.Enqueue(row).queue[step.id] == s.tables.queue[step.id];
  }

  lemma OnceOther(cfg: Config, s: State, step: Step, p: Pair, lost: nat)
    requires !Acts(s, step) && AtMostOnce(cfg, s, p, lost)
    ensures AtMostOnce(cfg, Next(cfg, s, step), p, lost)
  {
    DistributionsStep(cfg, s, step, p);
    if step.Rejection? {
      LiveDelete(cfg, s.tables, step.id, p);
    } else {
      assert Live(cfg, Next(cfg, s, step).tables, p) == Live(cfg, s.tables, p);
    }
  }

  /** Every run keeps it: through holds, re-holds, failed approvals, rejections and repeated posts. */
  lemma {:induction false} DistributedAtMostOnce(cfg: Config, steps: seq<Step>, p: Pair)
    ensures AtMostOnce(cfg, Reached(cfg, steps), p, Interruptions(cfg, steps, p, true))
  {
    if steps == [] {
      assert Live(cfg, EMPTY, p) == {};
    } else {
      var init, step := steps[..|steps| - 1], steps[|steps| - 1];
      var s, lost := Reached(cfg, init), Interruptions(cfg, init, p, true);
      DistributedAtMostOnce(cfg, init, p);
      ReachedWellFormed(cfg, init);
      if step.Post? {
        OncePost(cfg, s, step, p, lost);
      } else if Approvable(s, step) {
        OnceApproval(cfg, s, step, p, lost);
      } else {
        OnceOther(cfg, s, step, p, lost);
      }
    }
  }

  // ---- A recorded id stays recorded ----

  lemma SeenIsDropped(cfg: Config, s: State, step: Step, p: Pair)
    requires (p.list, p.id) in s.tables.seen && step.Post? && Concerns(cfg, step.list.name, step.raw, p)
    ensures StepCopies(cfg, s, step) == []
    ensures StepResult(cfg, s, step).Ok? && StepResult(cfg, s, step).value.Discarded?
  {
    PostScreened(cfg, s, step);
  }

  /**
   * A post is recorded before anything is decided about it. So once a post of a run has passed the
   * built-in checks, no later post of its list and Message-ID passes them again, however the first
   * one ended: even if it failed, it is neither sent nor held.
   */
  lemma RepostIsDropped(cfg: Config, steps: seq<Step>, n: nat, again: Step, p: Pair)
    requires n < |steps| && steps[n].Post? && Concerns(cfg, steps[n].list.name, steps[n].raw, p)
    requires Enters(cfg, Reached(cfg, steps[..n]).tables, steps[n].list, steps[n].raw)
    requires again.Post? && Concerns(cfg, again.list.name, again.raw, p)
    ensures var s := Reached(cfg, steps);
      && StepCopies(cfg, s, again) == []
      && StepResult(cfg, s, again).Ok? && StepResult(cfg, s, again).value.Discarded?
  {
    assert EnteredAt(cfg, steps, p, n);
    SeenIffEntered(cfg, steps, p);
    SeenIsDropped(cfg, Reached(cfg, steps), again, p);
  }

  /**
   * When the same post is taken in again, in a run that has taken it in before: exactly when it has no
   * Message-ID, and then as often as it comes.
   */
  lemma TakenAgainIff(cfg: Config, steps: seq<Step>, n: nat)
    requires n < |steps| && steps[n].Post?
    requires Enters(cfg, Reached(cfg, steps[..n]).tables, steps[n].list, steps[n].raw)
    ensures Enters(cfg, Reached(cfg, steps).tables, steps[n].list, steps[n].raw)
       <==> MessageId(cfg.view(steps[n].raw)).None?
  {
    var id := MessageId(cfg.view(steps[n].raw));
    if id.Some? {
      var p := Pair(steps[n].list.name, id.value);
      assert EnteredAt(cfg, steps, p, n);
      SeenIffEntered(cfg, steps, p);
    }
  }

  /** The step is a post of the pair that passes the built-in checks. */
  ghost predicate TakesIn(cfg: Config, s: State, step: Step, p: Pair) {
    step.Post? && Concerns(cfg, step.list.name, step.raw, p) && Enters(cfg, s.tables, step.list, step.raw)
  }

  ghost predicate EnteredAt(cfg: Config, steps: seq<Step>, p: Pair, n: nat)
    requires n < |steps|
  {
    TakesIn(cfg, Reached(cfg, steps[..n]), steps[n], p)
  }

  /** What one step adds to the recorded pairs. */
  lemma SeenStep(cfg: Config, s: State, step: Step, p: Pair)
    ensures (p.list, p.id) in Next(cfg, s, step).tables.seen
       <==> (p.list, p.id) in s.tables.seen || TakesIn(cfg, s, step, p)
  {
    match step {
      case Post(_, _, _, _) => PostTables(cfg, s, step);
      case Approval(_, _, _, _) => if Approvable(s, step) { ApprovalTables(cfg, s, step); }
      case _ =>
    }
  }

  ghost predicate EverEntered(cfg: Config, steps: seq<Step>, p: Pair) {
    exists n | 0 <= n < |steps| :: EnteredAt(cfg, steps, p, n)
  }

  /** A step of a longer run is a step of its beginning, or the last one. */
  lemma EnteredSnoc(cfg: Config, init: seq<Step>, step: Step, p: Pair, n: nat)
    requires n <= |init|
    ensures EnteredAt(cfg, init + [step], p, n) <==>
      if n < |init| then EnteredAt(cfg, init, p, n) else TakesIn(cfg, Reached(cfg, init), step, p)
  {
    assert (init + [step])[..n] == init[..n];
    if n == |init| { assert init[..n] == init; }
  }

  lemma EverEnteredSnoc(cfg: Config, init: seq<Step>, step: Step, p: Pair)
    ensures EverEntered(cfg, init + [step], p)
       <==> EverEntered(cfg, init, p) || TakesIn(cfg, Reached(cfg, init), step, p)
  {
    EnteredSnoc(cfg, init, step, p, |init|);
    if EverEntered(cfg, init, p) {
      var n :| 0 <= n < |init| && EnteredAt(cfg, init, p, n);
      EnteredSnoc(cfg, init, step, p, n);
    }
    if EverEntered(cfg, init + [step], p) {
      var n :| 0 <= n <= |init| && EnteredAt(cfg, init + [step], p, n);
      EnteredSnoc(cfg, init, step, p, n);
    }
  }

  ghost predicate IsSeen(cfg: Config, steps: seq<Step>, p: Pair) {
    (p.list, p.id) in Reached(cfg, steps).tables.seen
  }

  lemma SeenSnoc(cfg: Config, init: seq<Step>, step: Step, p: Pair)
    ensures IsSeen(cfg, init + [step], p) <==> IsSeen(cfg, init, p) || TakesIn(cfg, Reached(cfg, init), step, p)
  {
    ReachedLast(cfg, init, step);
    SeenStep(cfg, Reached(cfg, init), step, p);
  }

  /** In every run, a pair is recorded exactly when some post of it has been taken in. */
  lemma {:induction false} SeenIffEntered(cfg: Config, steps: seq<Step>, p: Pair)
    ensures IsSeen(cfg, steps, p) <==> EverEntered(cfg, steps, p)
  {
    if steps != [] {
      var init, step := steps[..|steps| - 1], steps[|steps| - 1];
      assert init + [step] == steps;
      SeenIffEntered(cfg, init, p);
      SeenSnoc(cfg, init, step, p);
      EverEnteredSnoc(cfg, init, step, p);
    }
  }

  /**
   * Duplicate suppression never drops a first post: a message is dropped as a duplicate exactly when it
   * has a Message-ID, is no loop, and another post of that pair was taken in earlier in the run.
   */
  lemma DuplicateIff(cfg: Config, steps: seq<Step>, list: List, raw: seq<byte>)
    ensures Screened(cfg, Reached(cfg, steps).tables, list, raw) == Some(DUPLICATE_REASON) <==>
      && !Loops(cfg, list, raw) && MessageId(cfg.view(raw)).Some?
      && EverEntered(cfg, steps, Pair(list.name, MessageId(cfg.view(raw)).value))
  {
    assert LOOP_REASON[0] == 'm' && DUPLICATE_REASON[0] == 'd';
    if MessageId(cfg.view(raw)).Some? {
      SeenIffEntered(cfg, steps, Pair(list.name, MessageId(cfg.view(raw)).value));
    }
  }

  // ---- Copies per subscriber ----

  predicate Serves(copies: seq<Copy>, recipient: string) {
    exists c | c in copies :: c.recipient == recipient
  }

  lemma {:induction false} CopiesToDistinct(cfg: Config, copies: seq<Copy>, p: Pair, recipient: string, concerned: bool)
    requires forall i, j :: 0 <= i < j < |copies| ==> copies[i].recipient != copies[j].recipient
    requires forall c :: c in copies ==> Concerns(cfg, c.list.name, c.origin.raw, p) == concerned
    ensures CopiesTo(cfg, SentEntries(copies), p, recipient) == if concerned && Serves(copies, recipient) then 1 else 0
  {
    if copies != [] {
      var init, last := copies[..|copies| - 1], copies[|copies| - 1];
      assert SentEntries(copies)[..|copies| - 1] == SentEntries(init);
      CopiesToDistinct(cfg, init, p, recipient, concerned);
      assert last in copies && forall c :: c in copies <==> c in init || c == last;
      assert forall c :: c in init ==> c.recipient != last.recipient;
    }
  }

  ghost predicate StepConcerns(cfg: Config, s: State, step: Step, p: Pair) {
    Acts(s, step) && Concerns(cfg, ListOf(step).name, RawOf(s, step), p)
  }

  /** A step hands over one copy of the message to each subscriber it serves. */
  lemma CopiesStep(cfg: Config, s: State, step: Step, p: Pair, recipient: string)
    ensures CopiesTo(cfg, Next(cfg, s, step).log, p, recipient) == CopiesTo(cfg, s.log, p, recipient) +
      if StepConcerns(cfg, s, step, p) && Serves(StepCopies(cfg, s, step), recipient) then 1 else 0
  {
    LogGrows(cfg, s, step);
    var copies, done := StepCopies(cfg, s, step), StepDone(cfg, s, step);
    CopiesToConcat(cfg, s.log + SentEntries(copies), done, p, recipient);
    CopiesToConcat(cfg, s.log, SentEntries(copies), p, recipient);
    StepCopiesSafe(cfg, s, step);
    CopiesToDistinct(cfg, copies, p, recipient, StepConcerns(cfg, s, step, p));
    if done != [] {
      assert done[..0] == [];
      assert CopiesTo(cfg, done[..0], p, recipient) == 0;
    }
  }

  /** Copies are handed over only by a delivery, which ends distributed or failed. */
  lemma CopiesMeanDelivery(cfg: Config, s: State, step: Step)
    requires StepCopies(cfg, s, step) != []
    ensures Acts(s, step)
    ensures StepResult(cfg, s, step).Ok? ==> StepResult(cfg, s, step).value.Distributed?
  {
  }

  lemma {:induction false} CopiesBounded(cfg: Config, steps: seq<Step>, p: Pair, recipient: string)
    ensures CopiesTo(cfg, Reached(cfg, steps).log, p, recipient) <= Distributions(cfg, Reached(cfg, steps).log, p)
      + Interruptions(cfg, steps, p, true) + Interruptions(cfg, steps, p, false)
  {
    if steps != [] {
      var init, step := steps[..|steps| - 1], steps[|steps| - 1];
      var s := Reached(cfg, init);
      CopiesBounded(cfg, init, p, recipient);
      CopiesStep(cfg, s, step, p, recipient);
      DistributionsStep(cfg, s, step, p);
      if StepCopies(cfg, s, step) != [] { CopiesMeanDelivery(cfg, s, step); }
    }
  }

  /**
   * How often a subscriber can get the same message: once, plus once for every approval whose
   * delivery failed after copies had gone out, and never while the id is unseen.
   */
  lemma OneCopyUnlessInterrupted(cfg: Config, steps: seq<Step>, p: Pair, recipient: string)
    ensures CopiesTo(cfg, Reached(cfg, steps).log, p, recipient) <= Interruptions(cfg, steps, p, false)
      + if (p.list, p.id) in Reached(cfg, steps).tables.seen then 1 else 0
  {
    DistributedAtMostOnce(cfg, steps, p);
    CopiesBounded(cfg, steps, p, recipient);
  }

  // ---- And it does happen ----

  /** A complete delivery adds one copy for every deliverable subscriber, served before or not. */
  lemma DistributionServes(cfg: Config, s: State, step: Step, p: Pair, recipient: string)
    requires StepConcerns(cfg, s, step, p)
    requires StepResult(cfg, s, step).Ok? && StepResult(cfg, s, step).value.Distributed?
    requires recipient in s.tables.Deliverable(ListOf(step).name)
    ensures CopiesTo(cfg, Next(cfg, s, step).log, p, recipient) == CopiesTo(cfg, s.log, p, recipient) + 1
  {
    CopiesStep(cfg, s, step, p, recipient);
    DistributedReachesAll(cfg, s, step);
    ListingSorted(s.tables.Deliverable(ListOf(step).name));
    var copies := StepCopies(cfg, s, step);
    var i :| 0 <= i < |copies| && Recipients(copies)[i] == recipient;
    assert copies[i] in copies && copies[i].recipient == recipient;
  }

  /**
   * An interrupted approval leaves its entry as it was, so the same id can be approved again; and if
   * that approval goes through, every subscriber the first one served gets the message a second time.
   */
  lemma ReapprovalServesAgain(cfg: Config, s: State, first: Step, again: Step, p: Pair, recipient: string)
    requires Interrupted(cfg, s, first, p) && first.Approval? && Serves(StepCopies(cfg, s, first), recipient)
    requires again.Approval? && again.id == first.id && again.found == first.found
    ensures var s' := Next(cfg, s, first);
      && s'.tables == s.tables && Approvable(s', again)
      && (StepResult(cfg, s', again).Ok? && StepResult(cfg, s', again).value.Distributed? ==>
            CopiesTo(cfg, Next(cfg, s', again).log, p, recipient) == CopiesTo(cfg, s.log, p, recipient) + 2)
  {
    var s' := Next(cfg, s, first);
    ApprovalTables(cfg, s, first);
    CopiesStep(cfg, s, first, p, recipient);
    StepCopiesSafe(cfg, s, first);
    var c :| c in StepCopies(cfg, s, first) && c.recipient == recipient;
    assert Accountable(cfg, s, first, c);
    if StepResult(cfg, s', again).Ok? && StepResult(cfg, s', again).value.Distributed? {
      DistributionServes(cfg, s', again, p, recipient);
    }
  }

  /** The same approval once more, with a signer that answers and a smarthost that takes everything. */
  function Completing(first: Step): Step
    requires first.Approval?
  {
    Approval(first.id, first.found, first.finalize, DeliverIO(true, r => Ok(""), r => true))
  }

  lemma {:induction false} AllServed(cfg: Config, list: List, p: Prepared, io: DeliverIO, recipients: seq<string>)
    requires forall r :: io.link(r).Ok?
    ensures CopiesFor(cfg, list, p, io, recipients).1.Ok?
  {
    if recipients != [] {
      AllServed(cfg, list, p, io, recipients[1..]);
    }
  }

  lemma CompletingDistributes(cfg: Config, s: State, first: Step)
    requires Approvable(s, first) && StepCopies(cfg, s, first) != []
    ensures var r := StepResult(cfg, s, Completing(first)); r.Ok? && r.value.Distributed?
  {
    var d := DispositionOf(cfg, s, first);
    assert DispositionOf(cfg, s, Completing(first)) == d;
    var p := d.value.prepared;
    AllServed(cfg, first.found.value, p, Completing(first).deliver, p.recipients);
  }

  /** So after every interrupted approval there is one that sends a second copy to those it served. */
  lemma SecondCopyFollows(cfg: Config, s: State, first: Step, p: Pair, recipient: string)
    requires Interrupted(cfg, s, first, p) && first.Approval? && Serves(StepCopies(cfg, s, first), recipient)
    ensures CopiesTo(cfg, Next(cfg, Next(cfg, s, first), Completing(first)).log, p, recipient)
         == CopiesTo(cfg, s.log, p, recipient) + 2
  {
    ReapprovalServesAgain(cfg, s, first, Completing(first), p, recipient);
    CompletingDistributes(cfg, s, first);
    SameDisposition(cfg, s, Next(cfg, s, first), Completing(first));
  }

  /** How an approval ends depends on the tables alone, not on what was logged before. */
  lemma SameDisposition(cfg: Config, s: State, s': State, step: Step)
    requires s.tables == s'.tables && Approvable(s, step)
    ensures Approvable(s', step) && StepResult(cfg, s', step) == StepResult(cfg, s, step)
  {
  }

  /** An interrupted post is not approvable: it leaves no entry, and its message is never sent again. */
  lemma InterruptedPostIsFinal(cfg: Config, steps: seq<Step>, p: Pair)
    requires Interruptions(cfg, steps, p, true) > 0
    ensures Live(cfg, Reached(cfg, steps).tables, p) == {}
    ensures Distributions(cfg, Reached(cfg, steps).log, p) == 0
  {
    DistributedAtMostOnce(cfg, steps, p);
  }
}
