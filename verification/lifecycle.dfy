/** Runs of the whole daemon: any sequence of posts, moderator actions, bounces and member changes. */
module Lifecycle {
  import opened Wrappers
  import opened Text
  import opened Messages
  import opened Storage
  import opened Lists
  import opened Sign
  import opened Pipeline

  datatype Step =
    | Post(list: List, ingress: Ingress, raw: seq<byte>, io: PostIO)
    | Approval(id: int, found: Option<List>, finalize: FinalizeIO, deliver: DeliverIO)
    | Rejection(id: int)
    | Bounce(list: List, address: string, raw: seq<byte>)
    | Enable(name: string, address: string)
    | Add(name: string, address: string, subscribed: bool, poster: bool, moderator: bool)
    | Remove(name: string, address: string)

  ghost function Next(cfg: Config, s: State, step: Step): State {
    match step
    case Post(list, ingress, raw, io) => Handled(cfg, s, list, ingress, raw, io).0
    case Approval(id, found, finalize, deliver) => ApprovedById(cfg, s, id, found, finalize, deliver).0
    case Rejection(id) => s.(tables := s.tables.DeleteHeld(id))
    case Bounce(list, address, raw) => Bounced(cfg, s, list, address, raw)
    case Enable(name, address) => s.(tables := s.tables.EnableMember(name, address))
    case Add(name, address, subscribed, poster, moderator) =>
      s.(tables := s.tables.AddMember(name, address, subscribed, poster, moderator))
    case Remove(name, address) => s.(tables := s.tables.RemoveMember(name, address))
  }

  const INIT := State(EMPTY, [])

  /** The state after a run, from an empty database. */
  ghost function Reached(cfg: Config, steps: seq<Step>): State {
    if steps == [] then INIT
    else Next(cfg, Reached(cfg, steps[..|steps| - 1]), steps[|steps| - 1])
  }

  lemma ReachedLast(cfg: Config, steps: seq<Step>, step: Step)
    ensures Reached(cfg, steps + [step]) == Next(cfg, Reached(cfg, steps), step)
  {
    assert (steps + [step])[..|steps|] == steps;
  }

  // ---- What one step does ----

  /** The disposition that a post or an approval carries out. */
  ghost function DispositionOf(cfg: Config, s: State, step: Step): Result<Disposition>
    requires step.Post? || Approvable(s, step)
  {
    if step.Post? then PostDisposition(cfg, s.tables, step.list, step.ingress, step.raw, step.io)
    else
      var row := s.tables.queue[step.id];
      Finalized(cfg, s.tables, step.found.value, IngressOf(cfg, row), row.raw, step.finalize)
  }

  /** The approval names a live queue entry, and that entry's list is loaded. */
  ghost predicate Approvable(s: State, step: Step) {
    && step.Approval? && step.id in s.tables.queue
    && step.found.Some? && step.found.value.name == s.tables.queue[step.id].list
  }

  ghost predicate Acts(s: State, step: Step) {
    step.Post? || Approvable(s, step)
  }

  ghost function ListOf(step: Step): List
    requires step.Post? || (step.Approval? && step.found.Some?)
  {
    if step.Post? then step.list else step.found.value
  }

  ghost function RawOf(s: State, step: Step): seq<byte>
    requires Acts(s, step)
  {
    if step.Post? then step.raw else s.tables.queue[step.id].raw
  }

  function DeliverOf(step: Step): DeliverIO
    requires step.Post? || step.Approval?
  {
    if step.Post? then step.io.deliver else step.deliver
  }

  function FinalizeOf(step: Step): FinalizeIO
    requires step.Post? || step.Approval?
  {
    if step.Post? then step.io.finalize else step.finalize
  }

  /** The copies a step hands over, and how it ends. */
  ghost function StepCopies(cfg: Config, s: State, step: Step): seq<Copy> {
    if Acts(s, step) then CopiesOf(cfg, ListOf(step), DispositionOf(cfg, s, step), DeliverOf(step)) else []
  }

  ghost function StepResult(cfg: Config, s: State, step: Step): Result<PostOutcome>
    requires Acts(s, step)
  {
    ResultOf(cfg, ListOf(step), DispositionOf(cfg, s, step), DeliverOf(step))
  }

  ghost function StepDone(cfg: Config, s: State, step: Step): seq<Entry> {
    if Acts(s, step) then DoneEntries(ListOf(step), RawOf(s, step), StepResult(cfg, s, step)) else []
  }

  /** The log only ever grows, by the step's copies and then at most one settlement. */
  lemma LogGrows(cfg: Config, s: State, step: Step)
    ensures Next(cfg, s, step).log == s.log + SentEntries(StepCopies(cfg, s, step)) + StepDone(cfg, s, step)
  {
    assert SentEntries([]) == [];
    if !Acts(s, step) {
      assert s.log == s.log + [] + [];
    }
  }

  // ---- The queue ----

  /** The queue row a post or approval would add. */
  ghost function RowOf(cfg: Config, s: State, step: Step): HeldRow
    requires Acts(s, step)
  {
    var ingress := if step.Post? then step.ingress else IngressOf(cfg, s.tables.queue[step.id]);
    RowFor(cfg, ListOf(step), ingress, RawOf(s, step))
  }

  predicate IsHeld(r: Result<PostOutcome>) {
    r.Ok? && r.value.Held?
  }

  /** What a disposition does to the queue, in terms of how it ends. */
  lemma QueuedEffect(cfg: Config, list: List, t: Tables, row: HeldRow, d: Result<Disposition>, io: DeliverIO)
    ensures Queued(t, row, d) == if IsHeld(ResultOf(cfg, list, d, io)) then t.Enqueue(row) else t
  {
  }

  /** A post touches the tables in two places only: it may record its id, and it may queue itself. */
  lemma PostTables(cfg: Config, s: State, step: Step)
    requires step.Post?
    ensures var t := Entered(cfg, s.tables, step.list, step.raw);
      Next(cfg, s, step).tables == if IsHeld(StepResult(cfg, s, step)) then t.Enqueue(RowOf(cfg, s, step)) else t
  {
    var t := Entered(cfg, s.tables, step.list, step.raw);
    QueuedEffect(cfg, step.list, t, RowOf(cfg, s, step), DispositionOf(cfg, s, step), step.io.deliver);
  }

  /** A message that the built-in checks drop is never sent, held or recorded. */
  lemma PostScreened(cfg: Config, s: State, step: Step)
    requires step.Post? && !Enters(cfg, s.tables, step.list, step.raw)
    ensures StepCopies(cfg, s, step) == []
    ensures StepResult(cfg, s, step).Ok? && StepResult(cfg, s, step).value.Discarded?
  {
  }

  /**
   * Approval conserves the queue: when it succeeds its entry is consumed, and a new one appears
   * exactly when it was held again; when anything fails, the tables are untouched.
   */
  lemma ApprovalTables(cfg: Config, s: State, step: Step)
    requires Approvable(s, step)
    ensures var (t, r) := (s.tables, StepResult(cfg, s, step));
      Next(cfg, s, step).tables ==
        if r.Err? then t
        else if IsHeld(r) then t.Enqueue(RowOf(cfg, s, step)).DeleteHeld(step.id)
        else t.DeleteHeld(step.id)
  {
    QueuedEffect(cfg, step.found.value, s.tables, RowOf(cfg, s, step), DispositionOf(cfg, s, step), step.deliver);
  }

  lemma WellFormedStep(cfg: Config, s: State, step: Step)
    requires WellFormed(s.tables)
    ensures WellFormed(Next(cfg, s, step).tables)
    ensures s.tables.lastId <= Next(cfg, s, step).tables.lastId
  {
    match step {
      case Post(_, _, _, _) => PostTables(cfg, s, step);
      case Approval(_, _, _, _) => if Approvable(s, step) { ApprovalTables(cfg, s, step); }
      case Add(_, address, _, _, _) => CanonicalIdempotent(address);
      case _ =>
    }
  }

  lemma {:induction false} ReachedWellFormed(cfg: Config, steps: seq<Step>)
    ensures WellFormed(Reached(cfg, steps).tables)
  {
    if steps != [] {
      ReachedWellFormed(cfg, steps[..|steps| - 1]);
      WellFormedStep(cfg, Reached(cfg, steps[..|steps| - 1]), steps[|steps| - 1]);
    }
  }

  /** Ids are never reused, and a live entry never changes. */
  ghost predicate QueueSteady(before: Tables, later: Tables) {
    && before.lastId <= later.lastId
    && (forall id :: id in later.queue && id <= before.lastId ==>
          id in before.queue && later.queue[id] == before.queue[id])
  }

  lemma QueueStep(cfg: Config, s: State, step: Step)
    requires WellFormed(s.tables)
    ensures QueueSteady(s.tables, Next(cfg, s, step).tables)
  {
    match step {
      case Post(_, _, _, _) => PostTables(cfg, s, step);
      case Approval(_, _, _, _) => if Approvable(s, step) { ApprovalTables(cfg, s, step); }
      case _ =>
    }
  }

  /** Over a whole run: an id handed out once names that entry only, until it is gone for good. */
  lemma {:induction false} QueueIdsNeverReused(cfg: Config, steps: seq<Step>, n: nat)
    requires n <= |steps|
    ensures QueueSteady(Reached(cfg, steps[..n]).tables, Reached(cfg, steps).tables)
    decreases |steps|
  {
    if n < |steps| {
      var init := steps[..|steps| - 1];
      assert init[..n] == steps[..n];
      QueueIdsNeverReused(cfg, init, n);
      ReachedWellFormed(cfg, init);
      QueueStep(cfg, Reached(cfg, init), steps[|steps| - 1]);
    } else {
      assert steps[..n] == steps;
    }
  }

  /** The row is the post's own: its list, envelope and bytes, and what the bytes say of author and subject. */
  predicate IsRowOf(cfg: Config, row: HeldRow, step: Step)
    requires step.Post?
  {
    && row.list == step.list.name && row.raw == step.raw
    && row.mailFrom == step.ingress.mailFrom && row.helo == step.ingress.helo && row.remoteIp == step.ingress.remoteIp
    && row.subject == (if cfg.parseable(step.raw) then cfg.subject(step.raw) else None)
    && row.sender == match cfg.author(step.raw).1
         case Some(address) => if cfg.parseable(step.raw) then Some(ToLower(address)) else None
         case None => None
  }

  /** The queue holds nothing but what some post of the run brought in, envelope and bytes untouched. */
  ghost predicate FromPost(cfg: Config, steps: seq<Step>, row: HeldRow) {
    exists i | 0 <= i < |steps| :: steps[i].Post? && IsRowOf(cfg, row, steps[i])
  }

  ghost predicate ValidPeers(cfg: Config, steps: seq<Step>) {
    forall i | 0 <= i < |steps| && steps[i].Post? :: cfg.validIp(steps[i].ingress.remoteIp)
  }

  /** Every row of the queue after a step was there before, or is the post's own, or is one held again. */
  lemma QueueRowStep(cfg: Config, s: State, step: Step, id: int)
    requires WellFormed(s.tables) && id in Next(cfg, s, step).tables.queue
    ensures var row := Next(cfg, s, step).tables.queue[id];
      || (id in s.tables.queue && row == s.tables.queue[id])
      || (step.Post? && row == RowFor(cfg, step.list, step.ingress, step.raw))
      || (Approvable(s, step) && row == RowOf(cfg, s, step))
  {
    if step.Post? {
      PostTables(cfg, s, step);
    } else if Approvable(s, step) {
      ApprovalTables(cfg, s, step);
    }
  }

  /** However often an entry is held again, it stays the row of the original post. */
  lemma {:induction false} QueueKeepsOriginals(cfg: Config, steps: seq<Step>)
    requires ValidPeers(cfg, steps)
    ensures forall id :: id in Reached(cfg, steps).tables.queue ==>
      FromPost(cfg, steps, Reached(cfg, steps).tables.queue[id])
  {
    if steps != [] {
      var init, step := steps[..|steps| - 1], steps[|steps| - 1];
      assert steps == init + [step];
      assert forall i :: 0 <= i < |init| ==> init[i] == steps[i];
      QueueKeepsOriginals(cfg, init);
      ReachedWellFormed(cfg, init);
      forall id | id in Next(cfg, Reached(cfg, init), step).tables.queue
        ensures FromPost(cfg, init + [step], Next(cfg, Reached(cfg, init), step).tables.queue[id])
      {
        OriginalStays(cfg, init, step, id);
      }
    }
  }

  lemma OriginalStays(cfg: Config, init: seq<Step>, step: Step, id: int)
    requires ValidPeers(cfg, init) && WellFormed(Reached(cfg, init).tables)
    requires forall i :: i in Reached(cfg, init).tables.queue ==>
      FromPost(cfg, init, Reached(cfg, init).tables.queue[i])
    requires id in Next(cfg, Reached(cfg, init), step).tables.queue
    ensures FromPost(cfg, init + [step], Next(cfg, Reached(cfg, init), step).tables.queue[id])
  {
    var s := Reached(cfg, init);
    var row := Next(cfg, s, step).tables.queue[id];
    QueueRowStep(cfg, s, step, id);
    if id in s.tables.queue && row == s.tables.queue[id] {
      FromPostLonger(cfg, init, step, row);
    } else if step.Post? {
      assert (init + [step])[|init|] == step;
    } else {
      ReholdIsSameRow(cfg, init, step, s);
      FromPostLonger(cfg, init, step, s.tables.queue[step.id]);
    }
  }

  lemma FromPostLonger(cfg: Config, init: seq<Step>, step: Step, row: HeldRow)
    requires FromPost(cfg, init, row)
    ensures FromPost(cfg, init + [step], row)
  {
    var i :| 0 <= i < |init| && init[i].Post? && IsRowOf(cfg, row, init[i]);
    assert (init + [step])[i] == init[i];
  }

  lemma ReholdIsSameRow(cfg: Config, init: seq<Step>, step: Step, s: State)
    requires ValidPeers(cfg, init) && Approvable(s, step) && FromPost(cfg, init, s.tables.queue[step.id])
    ensures var row := s.tables.queue[step.id];
      RowFor(cfg, step.found.value, IngressOf(cfg, row), row.raw) == row
  {
  }
}
