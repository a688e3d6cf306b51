/**
 * The event loop around the Sieve runtime. The compiler and runtime themselves are outside the
 * model: a compiled script that has been given its message and environment is a finite tree of
 * events, which branches on the yes/no answers the loop feeds back.
 */
module SieveEngine {
  import opened Wrappers
  import opened Seqs
  import opened Text
  import opened Messages
  import opened Storage

  datatype Event =
    | ListContains(lists: seq<string>, values: seq<string>)
    | DuplicateId(id: string)
    | MailboxExists
    | IncludeScript(optional: bool)
    | CreatedMessage(message: Message)
    | DiscardMessage
    | RejectMessage(reason: string)
    | FileInto(folder: string)
    | Other

  /** `Halt` ends the run, `Fault` is a runtime error, `Emit` raises an event and awaits the answer. */
  datatype Script = Halt | Fault | Emit(event: Event, yes: Script, no: Script)

  datatype SieveOutcome = Keep | Dropped | Refused(reason: string)

  datatype SieveRun = SieveRun(outcome: SieveOutcome, message: Option<Message>, filedInto: seq<string>)

  /** Membership facts for the current list; addresses are stored lowercased. */
  datatype MembershipSets = MembershipSets(subscribers: set<string>, posters: set<string>, moderators: set<string>) {
    predicate Contains(list: string, value: string) {
      match list
      case "subscribers" => ToLower(value) in subscribers
      case "posters" => ToLower(value) in posters
      case "moderators" => ToLower(value) in moderators
      case _ => false
    }
  }

  const NO_LISTS := MembershipSets({}, {}, {})

  /** The state behind the `duplicate` test: none, or the ids recorded so far and the list asking. */
  datatype Duplicates = Inert | Recording(list: string, seen: set<(string, string)>)

  predicate AnyListed(sets: MembershipSets, lists: seq<string>, values: seq<string>) {
    exists l, v | l in lists && v in values :: sets.Contains(l, v)
  }

  // ---- What a run means ----

  /** The answer to an event; `None` aborts the run (a script include that is not optional). */
  function Answer(event: Event, sets: MembershipSets, dup: Duplicates): Option<bool> {
    match event
    case ListContains(lists, values) => Some(AnyListed(sets, lists, values))
    case DuplicateId(id) => Some(dup.Recording? && (dup.list, id) in dup.seen)
    case MailboxExists => Some(false)
    case IncludeScript(optional) => if optional then Some(false) else None
    case _ => Some(true)
  }

  function Noted(event: Event, dup: Duplicates): Duplicates {
    if event.DuplicateId? && dup.Recording? then dup.(seen := dup.seen + {(dup.list, event.id)}) else dup
  }

  /** Why a run ended: by itself, by a runtime error, or by a refused include. */
  datatype Ending = Ended | Failed(error: Error)

  /** The events a run raises, in order, how it ends, and the duplicate state it leaves. */
  datatype Trace = Trace(events: seq<Event>, ending: Ending, dup: Duplicates)

  function Path(script: Script, sets: MembershipSets, dup: Duplicates): Trace {
    match script
    case Halt => Trace([], Ended, dup)
    case Fault => Trace([], Failed(Auth), dup)
    case Emit(event, yes, no) =>
      match Answer(event, sets, dup)
      case None => Trace([event], Failed(Config), dup)
      case Some(answer) =>
        var rest := Path(if answer then yes else no, sets, Noted(event, dup));
        rest.(events := [event] + rest.events)
  }

  predicate Decisive(e: Event) {
    e.DiscardMessage? || e.RejectMessage?
  }

  function Verdict(e: Event): SieveOutcome
    requires Decisive(e)
  {
    if e.DiscardMessage? then Dropped else Refused(e.reason)
  }

  /** First decisive event wins. */
  function FirstDecisive(events: seq<Event>): SieveOutcome {
    if events == [] then Keep
    else if Decisive(events[0]) then Verdict(events[0])
    else FirstDecisive(events[1..])
  }

  /** Last rewrite wins. */
  function LastMessage(events: seq<Event>): Option<Message> {
    if events == [] then None
    else if events[|events| - 1].CreatedMessage? then Some(events[|events| - 1].message)
    else LastMessage(events[..|events| - 1])
  }

  /** Every `fileinto` destination is kept, in order. */
  function Destinations(events: seq<Event>): seq<string> {
    if events == [] then []
    else (if events[0].FileInto? then [events[0].folder] else []) + Destinations(events[1..])
  }

  /** What the caller of a run receives, read off the run's trace. */
  function Conclude(t: Trace): Result<SieveRun> {
    match t.ending
    case Failed(e) => Err(e)
    case Ended => Ok(SieveRun(FirstDecisive(t.events), LastMessage(t.events), Destinations(t.events)))
  }

  lemma {:induction false} FirstDecisiveSnoc(events: seq<Event>, e: Event)
    ensures FirstDecisive(events + [e]) ==
      if FirstDecisive(events) == Keep && Decisive(e) then Verdict(e) else FirstDecisive(events)
  {
    if events == [] {
      assert events + [e] == [e];
    } else {
      assert (events + [e])[1..] == events[1..] + [e];
      FirstDecisiveSnoc(events[1..], e);
    }
  }

  lemma {:induction false} DestinationsSnoc(events: seq<Event>, e: Event)
    ensures Destinations(events + [e]) == Destinations(events) + (if e.FileInto? then [e.folder] else [])
  {
    if events == [] {
      assert events + [e] == [e];
    } else {
      assert (events + [e])[1..] == events[1..] + [e];
      DestinationsSnoc(events[1..], e);
      Assoc(if events[0].FileInto? then [events[0].folder] else [], Destinations(events[1..]),
            if e.FileInto? then [e.folder] else []);
    }
  }

  lemma LastMessageSnoc(events: seq<Event>, e: Event)
    ensures LastMessage(events + [e]) == if e.CreatedMessage? then Some(e.message) else LastMessage(events)
  {
  }

  // ---- The loop ----

  /** The loop's three accumulators hold what the events so far amount to. */
  ghost predicate Summary(
      events: seq<Event>, outcome: Option<SieveOutcome>, message: Option<Message>, filed: seq<string>)
  {
    && FirstDecisive(events) == (if outcome.Some? then outcome.value else Keep)
    && (outcome.Some? ==> outcome.value != Keep)
    && LastMessage(events) == message
    && Destinations(events) == filed
  }

  lemma SummaryStep(
      events: seq<Event>, e: Event, outcome: Option<SieveOutcome>, message: Option<Message>, filed: seq<string>)
    requires Summary(events, outcome, message, filed)
    ensures Summary(
      events + [e],
      if outcome.None? && Decisive(e) then Some(Verdict(e)) else outcome,
      if e.CreatedMessage? then Some(e.message) else message,
      filed + (if e.FileInto? then [e.folder] else []))
  {
    FirstDecisiveSnoc(events, e);
    LastMessageSnoc(events, e);
    DestinationsSnoc(events, e);
  }

  /** Who answers the `duplicate` test: nobody, or the seen table of a store for one list. */
  datatype DuplicateStore = NoDuplicates | StoreDuplicates(store: Store, list: string)

  ghost function View(duplicates: DuplicateStore): Duplicates
    reads Recorder(duplicates)`seen
  {
    match duplicates
    case NoDuplicates => Inert
    case StoreDuplicates(store, list) => Recording(list, store.seen)
  }

  /** The store a run may write to. */
  function Recorder(duplicates: DuplicateStore): set<Store> {
    match duplicates
    case NoDuplicates => {}
    case StoreDuplicates(store, _) => {store}
  }

  /** Answer one event, recording a Message-ID if the `duplicate` test asks about one. */
  method Respond(event: Event, sets: MembershipSets, duplicates: DuplicateStore) returns (input: Option<bool>)
    modifies Recorder(duplicates)`seen
    ensures input == Answer(event, sets, old(View(duplicates)))
    ensures View(duplicates) == Noted(event, old(View(duplicates)))
  {
    match event {
      case ListContains(lists, values) =>
        input := Some(AnyListed(sets, lists, values));
      case DuplicateId(id) =>
        match duplicates {
          case NoDuplicates => input := Some(false);
          case StoreDuplicates(store, list) =>
            var isNew := store.RecordMessage(list, id);
            input := Some(!isNew);
        }
      case MailboxExists =>
        input := Some(false);
      case IncludeScript(optional) =>
        input := if optional then Some(false) else None;
      case _ =>
        input := Some(true);
    }
  }

  /** The run's trace is the events so far followed by what the rest of the script raises. */
  ghost predicate Remaining(whole: Trace, past: seq<Event>, script: Script, sets: MembershipSets, dup: Duplicates) {
    var rest := Path(script, sets, dup);
    whole == rest.(events := past + rest.events)
  }

  lemma RemainingStep(whole: Trace, past: seq<Event>, script: Script, sets: MembershipSets, dup: Duplicates)
    requires Remaining(whole, past, script, sets, dup) && script.Emit?
    ensures match Answer(script.event, sets, dup)
      case None => Conclude(whole) == Err(Config) && whole.dup == dup
      case Some(answer) =>
        var next := if answer then script.yes else script.no;
        Remaining(whole, past + [script.event], next, sets, Noted(script.event, dup))
  {
  }

  lemma RemainingStart(script: Script, sets: MembershipSets, dup: Duplicates)
    ensures Remaining(Path(script, sets, dup), [], script, sets, dup)
  {
  }

  lemma RemainingEnd(
      whole: Trace, past: seq<Event>, script: Script, sets: MembershipSets, dup: Duplicates,
      outcome: Option<SieveOutcome>, message: Option<Message>, filed: seq<string>)
    requires Remaining(whole, past, script, sets, dup) && !script.Emit?
    requires Summary(past, outcome, message, filed)
    ensures whole.dup == dup
    ensures Conclude(whole) ==
      if script.Fault? then Err(Auth)
      else Ok(SieveRun(if outcome.Some? then outcome.value else Keep, message, filed))
  {
    assert past + [] == past;
  }

  /**
   * Run a script to its end. Only `StoreDuplicates` lets the `duplicate` test record and answer from the
   * seen table; otherwise the test is inert.
   */
  method Run(script: Script, sets: MembershipSets, duplicates: DuplicateStore) returns (r: Result<SieveRun>)
    modifies Recorder(duplicates)`seen
    ensures r == Conclude(Path(script, sets, old(View(duplicates))))
    ensures View(duplicates) == Path(script, sets, old(View(duplicates))).dup
  {
    var outcome: Option<SieveOutcome> := None;
    var message: Option<Message> := None;
    var filed: seq<string> := [];
    var instance := script;
    ghost var whole := Path(script, sets, View(duplicates));
    ghost var past: seq<Event> := [];
    RemainingStart(script, sets, View(duplicates));
    while instance.Emit?
      invariant Remaining(whole, past, instance, sets, View(duplicates))
      invariant Summary(past, outcome, message, filed)
      decreases instance
    {
      RemainingStep(whole, past, instance, sets, View(duplicates));
      SummaryStep(past, instance.event, outcome, message, filed);
      outcome, message, filed := Note(instance.event, outcome, message, filed);
      past := past + [instance.event];
      var input := Respond(instance.event, sets, duplicates);
      if input.None? {
        return Err(Config);
      }
      instance := if input.value then instance.yes else instance.no;
    }
    RemainingEnd(whole, past, instance, sets, View(duplicates), outcome, message, filed);
    if instance.Fault? {
      return Err(Auth);
    }
    r := Ok(SieveRun(if outcome.Some? then outcome.value else Keep, message, filed));
  }

  /** The accumulator updates of one loop iteration. */
  method Note(event: Event, outcome: Option<SieveOutcome>, message: Option<Message>, filed: seq<string>)
      returns (outcome': Option<SieveOutcome>, message': Option<Message>, filed': seq<string>)
    ensures outcome' == if outcome.None? && Decisive(event) then Some(Verdict(event)) else outcome
    ensures message' == if event.CreatedMessage? then Some(event.message) else message
    ensures filed' == filed + (if event.FileInto? then [event.folder] else [])
  {
    outcome', message', filed' := outcome, message, filed;
    match event {
      case CreatedMessage(rebuilt) => message' := Some(rebuilt);
      case DiscardMessage => if outcome.None? { outcome' := Some(Dropped); }
      case RejectMessage(reason) => if outcome.None? { outcome' := Some(Refused(reason)); }
      case FileInto(folder) => filed' := filed + [folder];
      case _ =>
    }
  }

  /** Without a store, a run leaves no trace and depends on nothing but the script and the sets. */
  lemma {:induction false} InertStaysInert(script: Script, sets: MembershipSets)
    ensures Path(script, sets, Inert).dup == Inert
  {
    if script.Emit? {
      InertStaysInert(script.yes, sets);
      InertStaysInert(script.no, sets);
    }
  }
}
