/** The three persistent tables: members with bounce state, seen Message-IDs, moderation queue. */
module Storage {
  import opened Wrappers
  import opened Text
  import opened Messages

  datatype MemberRow = MemberRow(subscribed: bool, poster: bool, moderator: bool, score: real, disabled: bool)

  datatype HeldRow = HeldRow(
    list: string, mailFrom: string, helo: string, remoteIp: string,
    sender: Option<string>, subject: Option<string>, raw: seq<byte>)

  /** The primary key of the members table: list name and canonical address. */
  type MemberKey = (string, string)

  function Key(list: string, address: string): MemberKey {
    (list, Canonical(address))
  }

  /** The content of the database, and the effect of each statement on it. */
  datatype Tables = Tables(
    members: map<MemberKey, MemberRow>,
    seen: set<(string, string)>,
    queue: map<int, HeldRow>,
    lastId: int)
  {
    /** Roles are replaced on conflict; the bounce state of an existing row is kept. */
    function AddMember(list: string, address: string, subscribed: bool, poster: bool, moderator: bool): Tables {
      var k := Key(list, address);
      var row := if k in members
                 then members[k].(subscribed := subscribed, poster := poster, moderator := moderator)
                 else MemberRow(subscribed, poster, moderator, 0.0, false);
      this.(members := members[k := row])
    }

    function RemoveMember(list: string, address: string): Tables {
      this.(members := members - {Key(list, address)})
    }

    function RecordBounce(list: string, address: string, weight: real, threshold: real): Tables {
      var k := Key(list, address);
      if k !in members then this
      else
        var row := members[k];
        var score := row.score + weight;
        this.(members := members[k := row.(score := score, disabled := score >= threshold || row.disabled)])
    }

    function EnableMember(list: string, address: string): Tables {
      var k := Key(list, address);
      if k in members then this.(members := members[k := members[k].(score := 0.0, disabled := false)]) else this
    }

    function RecordMessage(list: string, id: string): Tables {
      this.(seen := seen + {(list, id)})
    }

    function Enqueue(row: HeldRow): Tables {
      this.(queue := queue[lastId + 1 := row], lastId := lastId + 1)
    }

    function DeleteHeld(id: int): Tables {
      this.(queue := queue - {id})
    }

    function Held(id: int): Option<HeldRow> {
      if id in queue then Some(queue[id]) else None
    }

    /** The addresses that receive the list: subscribed and not disabled by bounces. */
    ghost function Deliverable(list: string): set<string> {
      set k | k in members && k.0 == list && members[k].subscribed && !members[k].disabled :: k.1
    }
  }

  const EMPTY := Tables(map[], {}, map[], 0)

  /** Every stored address is canonical, and queue ids never run past the sequence counter. */
  ghost predicate WellFormed(t: Tables) {
    && (forall k :: k in t.members ==> Canonical(k.1) == k.1)
    && (forall id :: id in t.queue ==> 0 < id <= t.lastId)
    && t.lastId >= 0
  }

  /**
   * The queue as its callers see it: an entry is read back as it was stored, under an id that nothing
   * else answers to, until it is deleted; storing or deleting one leaves every other as it was, and
   * deleting what was just stored restores the queue.
   */
  lemma HeldRoundTrip(t: Tables, row: HeldRow, id: int)
    requires WellFormed(t)
    ensures var (stored, next) := (t.Enqueue(row), t.lastId + 1);
      && t.Held(next) == None
      && stored.Held(id) == (if id == next then Some(row) else t.Held(id))
      && stored.DeleteHeld(id).Held(id) == None
      && (id != next ==> stored.DeleteHeld(id).Held(next) == Some(row))
      && stored.DeleteHeld(next).queue == t.queue
  {
    assert t.lastId + 1 !in t.queue;
    assert t.Enqueue(row).DeleteHeld(t.lastId + 1).queue == t.queue;
  }

  class Store {
    var members: map<MemberKey, MemberRow>
    var seen: set<(string, string)>
    var queue: map<int, HeldRow>
    var lastId: int

    ghost function Content(): Tables
      reads this
    {
      Tables(members, seen, queue, lastId)
    }

    constructor ()
      ensures Content() == EMPTY
    {
      members, seen, queue, lastId := map[], {}, map[], 0;
    }

    method AddMember(list: string, address: string, subscribed: bool, poster: bool, moderator: bool)
      modifies this`members
      ensures Content() == old(Content()).AddMember(list, address, subscribed, poster, moderator)
    {
      var k := (list, Canonical(address));
      if k in members {
        var row := members[k];
        members := members[k := MemberRow(subscribed, poster, moderator, row.score, row.disabled)];
      } else {
        members := members[k := MemberRow(subscribed, poster, moderator, 0.0, false)];
      }
    }

    method RemoveMember(list: string, address: string)
      modifies this`members
      ensures Content() == old(Content()).RemoveMember(list, address)
    {
      members := map k | k in members && k != (list, Canonical(address)) :: members[k];
    }

    /** `ORDER BY address` over the subscribed, enabled rows. */
    method Subscribers(list: string) returns (r: seq<string>)
      ensures r == Listing(Content().Deliverable(list))
    {
      var addresses := set k | k in members && k.0 == list && members[k].subscribed && !members[k].disabled :: k.1;
      r := SortAddresses(addresses);
    }

    /** `None` for an address that is not a member; otherwise whether delivery is now disabled. */
    method RecordBounce(list: string, address: string, weight: real, threshold: real) returns (r: Option<bool>)
      modifies this`members
      ensures Content() == old(Content()).RecordBounce(list, address, weight, threshold)
      ensures r == if Key(list, address) in members then Some(members[Key(list, address)].disabled) else None
    {
      var k := (list, Canonical(address));
      if k !in members {
        return None;
      }
      var row := members[k];
      if row.score + weight >= threshold {
        row := row.(disabled := true);
      }
      row := row.(score := row.score + weight);
      members := members[k := row];
      r := Some(row.disabled);
    }

    method EnableMember(list: string, address: string) returns (found: bool)
      modifies this`members
      ensures Content() == old(Content()).EnableMember(list, address)
      ensures found <==> Key(list, address) in old(members)
    {
      var k := (list, Canonical(address));
      found := k in members;
      if found {
        members := members[k := members[k].(score := 0.0, disabled := false)];
      }
    }

    /** `INSERT OR IGNORE`: true when newly inserted. */
    method RecordMessage(list: string, id: string) returns (isNew: bool)
      modifies this`seen
      ensures Content() == old(Content()).RecordMessage(list, id)
      ensures isNew <==> (list, id) !in old(seen)
    {
      isNew := (list, id) !in seen;
      seen := seen + {(list, id)};
    }

    method EnqueueHeld(row: HeldRow) returns (id: int)
      modifies this`queue, this`lastId
      ensures Content() == old(Content()).Enqueue(row) && id == lastId
    {
      lastId := lastId + 1;
      id := lastId;
      queue := queue[id := row];
    }

    method GetHeld(id: int) returns (r: Option<HeldRow>)
      ensures r == Content().Held(id)
    {
      r := if id in queue then Some(queue[id]) else None;
    }

    method DeleteHeld(id: int) returns (deleted: bool)
      modifies this`queue
      ensures Content() == old(Content()).DeleteHeld(id)
      ensures deleted <==> id in old(queue)
    {
      deleted := id in queue;
      queue := queue - {id};
    }
  }
}
