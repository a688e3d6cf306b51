/** What one policy script contributes, read off the events of its run. */
module ScriptLaws {
  import opened Wrappers
  import opened Text
  import opened SieveEngine
  import opened Storage
  import opened Policy
  import opened Pipeline

  // ---- From events to the contribution ----

  predicate Settles(e: Event) {
    e.DiscardMessage? || e.RejectMessage?
  }

  /** `e` is the first discard or reject among the events. */
  ghost predicate FirstSettled(events: seq<Event>, e: Event) {
    exists i | 0 <= i < |events| :: events[i] == e && Settles(e) && forall j :: 0 <= j < i ==> !Settles(events[j])
  }

  ghost predicate Files(events: seq<Event>, folder: string) {
    exists e :: e in events && e.FileInto? && SameName(e.folder, folder)
  }

  /** What the events of a completed run amount to. */
  ghost predicate ReadsAs(events: seq<Event>, out: Outcome) {
    && (out.decision.Discard? <==> FirstSettled(events, DiscardMessage))
    && (forall reason :: out.decision == Reject(reason) <==> FirstSettled(events, RejectMessage(reason)))
    && (out.decision.Moderate? <==>
          && (forall e :: e in events ==> !Settles(e))
          && (Files(events, "moderate") || Files(events, "moderation") || Files(events, "hold")))
    && (out.archive <==> Files(events, "archive"))
    && (out.noOwnDkim <==> Files(events, "no-dkim"))
    && (out.mungeFrom <==> Files(events, "munge-from"))
  }

  lemma FirstSettledCons(events: seq<Event>, e: Event)
    requires events != []
    ensures FirstSettled(events, e) <==> if Settles(events[0]) then e == events[0] else FirstSettled(events[1..], e)
  {
    var tail := events[1..];
    if Settles(events[0]) {
      assert events[0] == e ==> events[0] == e && Settles(e);
    } else {
      if FirstSettled(tail, e) {
        var i :| 0 <= i < |tail| && tail[i] == e && Settles(e) && forall j :: 0 <= j < i ==> !Settles(tail[j]);
        assert events[i + 1] == e && forall j :: 0 <= j < i + 1 ==> j == 0 || events[j] == tail[j - 1];
      }
      if FirstSettled(events, e) {
        var i :| 0 <= i < |events| && events[i] == e && Settles(e) && forall j :: 0 <= j < i ==> !Settles(events[j]);
        assert tail[i - 1] == e && forall j :: 0 <= j < i - 1 ==> tail[j] == events[j + 1];
      }
    }
  }

  lemma {:induction false} FirstDecisiveIs(events: seq<Event>, e: Event)
    ensures FirstSettled(events, e) <==> Settles(e) && FirstDecisive(events) == Verdict(e)
    ensures FirstDecisive(events) == Keep <==> forall x :: x in events ==> !Settles(x)
  {
    if events != [] {
      FirstSettledCons(events, e);
      FirstDecisiveIs(events[1..], e);
      assert events == [events[0]] + events[1..];
    }
  }

  lemma {:induction false} DestinationsAre(events: seq<Event>, folder: string)
    ensures folder in Destinations(events) <==> exists e :: e in events && e.FileInto? && e.folder == folder
  {
    if events != [] {
      DestinationsAre(events[1..], folder);
      assert events == [events[0]] + events[1..];
      if events[0].FileInto? && events[0].folder == folder { assert events[0] in events; }
    }
  }

  lemma FiledMeansFiles(run: SieveRun, events: seq<Event>, folder: string)
    requires run.filedInto == Destinations(events)
    ensures FiledInto(run, folder) <==> Files(events, folder)
  {
    forall f: string ensures f in run.filedInto <==> exists e :: e in events && e.FileInto? && e.folder == f {
      DestinationsAre(events, f);
    }
  }

  lemma HeldMeansFiles(run: SieveRun, events: seq<Event>)
    requires run.filedInto == Destinations(events)
    ensures (exists f | f in run.filedInto :: IsModerateFolder(f))
       <==> Files(events, "moderate") || Files(events, "moderation") || Files(events, "hold")
  {
    FiledMeansFiles(run, events, "moderate");
    FiledMeansFiles(run, events, "moderation");
    FiledMeansFiles(run, events, "hold");
    assert MODERATE_FOLDERS[0] == "moderate" && MODERATE_FOLDERS[1] == "moderation" && MODERATE_FOLDERS[2] == "hold";
    assert forall m :: m in MODERATE_FOLDERS <==> m == "moderate" || m == "moderation" || m == "hold";
  }

  lemma OutcomeReads(events: seq<Event>)
    ensures ReadsAs(events, OutcomeFromRun(SieveRun(FirstDecisive(events), LastMessage(events), Destinations(events))))
  {
    var run := SieveRun(FirstDecisive(events), LastMessage(events), Destinations(events));
    FirstDecisiveIs(events, DiscardMessage);
    forall reason ensures FirstSettled(events, RejectMessage(reason)) <==> run.outcome == Refused(reason) {
      FirstDecisiveIs(events, RejectMessage(reason));
    }
    HeldMeansFiles(run, events);
    FiledMeansFiles(run, events, "archive");
    FiledMeansFiles(run, events, "no-dkim");
    FiledMeansFiles(run, events, "munge-from");
  }

  /** Any script whatever contributes what the events of its run read as, or its failure. */
  lemma ContributionIs(script: Compiled, ctx: Context, sets: MembershipSets)
    ensures var (t, r) := (Path(script(ctx), sets, Inert), Tier(script, ctx, sets));
      match t.ending
      case Failed(e) => r == Err(e)
      case Ended => r.Ok? && ReadsAs(t.events, r.value)
  {
    OutcomeReads(Path(script(ctx), sets, Inert).events);
  }

  /** The only failures of a script are runtime errors and refused includes. */
  lemma {:induction false} ScriptErrors(script: Script, sets: MembershipSets, dup: Duplicates)
    ensures var end := Path(script, sets, dup).ending; end.Failed? ==> end.error == Auth || end.error == Error.Config
  {
    if script.Emit? {
      ScriptErrors(script.yes, sets, Noted(script.event, dup));
      ScriptErrors(script.no, sets, Noted(script.event, dup));
    }
  }

  // ---- Which way a script goes ----

  function Then(e: Event, t: Trace): Trace {
    t.(events := [e] + t.events)
  }

  /**
   * A policy script is told that nothing is a duplicate, that no mailbox exists and that an optional
   * include is not there; a mandatory include fails it; every action succeeds.
   */
  lemma Branches(e: Event, yes: Script, no: Script, sets: MembershipSets)
    ensures var t := Path(Emit(e, yes, no), sets, Inert);
      && (e.DuplicateId? || e.MailboxExists? || e == IncludeScript(true) ==> t == Then(e, Path(no, sets, Inert)))
      && (e == IncludeScript(false) ==> t.events == [e] && t.ending == Failed(Error.Config))
      && (e.CreatedMessage? || e.DiscardMessage? || e.RejectMessage? || e.FileInto? || e.Other? ==>
            t == Then(e, Path(yes, sets, Inert)))
  {
  }

  /** The members table says that the address has the role that the list name stands for. */
  ghost predicate HasRole(t: Tables, list: string, role: string, address: string) {
    var k := (list, ToLower(address));
    && k in t.members
    && ((role == "subscribers" && t.members[k].subscribed)
        || (role == "posters" && t.members[k].poster)
        || (role == "moderators" && t.members[k].moderator))
  }

  /** A membership test is answered from the rows of the list: yes exactly when some value has some role named. */
  lemma MembershipIsLookedUp(
      t: Tables, list: string, roles: seq<string>, values: seq<string>, yes: Script, no: Script)
    ensures var e := ListContains(roles, values);
      var sets := SetsOf(t, list);
      var next := if exists r, v :: r in roles && v in values && HasRole(t, list, r, v) then yes else no;
      Path(Emit(e, yes, no), sets, Inert) == Then(e, Path(next, sets, Inert))
  {
    var sets := SetsOf(t, list);
    forall r: string, v: string ensures sets.Contains(r, v) <==> HasRole(t, list, r, v) {
      RoleIsContained(t, list, r, v);
    }
  }

  lemma RoleIsContained(t: Tables, list: string, role: string, address: string)
    ensures SetsOf(t, list).Contains(role, address) <==> HasRole(t, list, role, address)
  {
    var sets, a := SetsOf(t, list), ToLower(address);
    assert a in sets.subscribers <==> (list, a) in t.members && t.members[(list, a)].subscribed;
    assert a in sets.posters <==> (list, a) in t.members && t.members[(list, a)].poster;
    assert a in sets.moderators <==> (list, a) in t.members && t.members[(list, a)].moderator;
  }
}
