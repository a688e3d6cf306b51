/** From an address to the list it posts to, and from a client's bytes to the post. */
module PostingLaws {
  import opened Wrappers
  import opened Text
  import opened Messages
  import Framing
  import opened Lists
  import opened Verps
  import opened Recipients
  import opened Sign
  import opened Pipeline
  import opened Lifecycle
  import opened Sessions
  import opened SessionLaws

  // ---- Envelope recipients, in terms of the list table ----

  /** The address finds the list: trimmed and lowercased, it is the lowercased posting address. */
  predicate Reaches(address: string, list: List) {
    ToLower(Trim(address)) == ToLower(list.cfg.postingAddress)
  }

  /** The address is a return path of some list of the table. */
  predicate IsReturnPath(lists: map<string, List>, address: string) {
    DecodeVerp(address).Some? && ToLower(Trim(DecodeVerp(address).value.0)) in lists
  }

  lemma FoundIff(lists: map<string, List>, list: List, address: string)
    requires WellKeyed(lists) && HoldsItsKey(lists, list)
    ensures ListForAddress(lists, address) == Some(list) <==> Reaches(address, list)
  {
  }

  /** An address is a posting address of a list exactly when it finds the list and is no return path. */
  lemma PostsIff(lists: map<string, List>, list: List, address: string)
    requires WellKeyed(lists) && HoldsItsKey(lists, list)
    ensures ClassifyRecipient(lists, address) == Some(PostTo(list))
       <==> Reaches(address, list) && !IsReturnPath(lists, address)
  {
    FoundIff(lists, list, address);
  }

  /** It is a bounce for a member exactly when it decodes to that member and to a base that finds the list. */
  lemma BouncesIff(lists: map<string, List>, list: List, address: string, recipient: string)
    requires WellKeyed(lists) && HoldsItsKey(lists, list)
    ensures ClassifyRecipient(lists, address) == Some(BounceFor(list, recipient))
       <==> exists base :: DecodeVerp(address) == Some((base, recipient)) && Reaches(base, list)
  {
    if DecodeVerp(address).Some? {
      FoundIff(lists, list, DecodeVerp(address).value.0);
    }
  }

  /** It is unknown exactly when it is no return path and is not the key of any list. */
  lemma UnknownRecipientIff(lists: map<string, List>, address: string)
    ensures ClassifyRecipient(lists, address).None?
       <==> !IsReturnPath(lists, address) && ToLower(Trim(address)) !in lists
  {
  }

  /** An address without the marker is no return path. */
  lemma NoMarkNoReturnPath(lists: map<string, List>, address: string)
    requires Find(address, MARK) < 0
    ensures !IsReturnPath(lists, address)
  {
    var k := LastIndexOf(address, '@');
    if k >= 0 {
      forall i: nat | i <= k ensures !OccursAt(address[..k], MARK, i) {
        assert !OccursAt(address, MARK, i);
        if i + |MARK| <= k { assert address[..k][i..i + |MARK|] == address[i..i + |MARK|]; }
      }
    }
  }

  /** Every trimmed posting address without the marker reaches its list, in any letter case. */
  lemma PostingAddressPosts(lists: map<string, List>, list: List, address: string)
    requires WellKeyed(lists) && HoldsItsKey(lists, list)
    requires Trimmed(address) && Find(address, MARK) < 0 && SameName(address, list.cfg.postingAddress)
    ensures ClassifyRecipient(lists, address) == Some(PostTo(list))
  {
    TrimFacts(address);
    NoMarkNoReturnPath(lists, address);
    PostsIff(lists, list, address);
  }

  // ---- From the wire to the post ----

  /** The lifecycle steps of a session that hands on one post. */
  lemma PostIsOneStep(
      setup: Setup, world: World, n: nat, helo: string, sender: string, to: string, message: seq<byte>, list: List)
    requires ClassifyRecipient(setup.lists, to) == Some(PostTo(list))
    ensures StepsOf(setup, world, n, TransactionsOf(setup, helo, [Mailing(sender, [to], message)]))
         == [Post(list, Ingress(setup.remoteIp, helo, sender), message, world(n)(0))]
  {
    var m := Mailing(sender, [to], message);
    var one := [PostTo(list)];
    assert [to][1..] == [];
    assert Accepted(setup.lists, []) == [];
    assert Accepted(setup.lists, [to]) == one + [];
    assert one + [] == one;
    var tx := TransactionOf(setup, helo, m);
    assert TransactionsOf(setup, helo, [m]) == [tx];
    assert one[..0] == [] && [tx][1..] == [];
    var ingress := IngressFor(setup, tx);
    assert StepsFor([], ingress, message, world(n)) == [];
    assert StepsFor(one, ingress, message, world(n)) == [] + [Post(list, ingress, message, world(n)(0))];
    assert StepsOf(setup, world, n + 1, []) == [];
  }

  lemma PostIsAcceptable(setup: Setup, sender: string, to: string, message: seq<byte>)
    requires ClassifyRecipient(setup.lists, to).Some? && Framing.Terminated(message)
    ensures Acceptable(setup, Mailing(sender, [to], message))
  {
    assert Accepted(setup.lists, [to]) == Known(setup.lists, to) + Accepted(setup.lists, [to][1..]);
  }

  /**
   * A client that submits a message to an address of a list, and not to a return path, has exactly that
   * message posted to exactly that list, from its own address and sender, whatever the daemon did before.
   */
  lemma SubmittedPostIsPosted(
      cfg: Config, later: seq<Step>, setup: Setup, world: World, write: Printer, n: nat, out: string, v: Vars,
      sender: string, to: string, message: seq<byte>, list: List)
    requires WellKeyed(setup.lists) && HoldsItsKey(setup.lists, list)
    requires Reaches(to, list) && !IsReturnPath(setup.lists, to)
    requires Framing.Terminated(message)
    requires Speaks(setup.parse, write, RequestsOf(Mailing(sender, [to], message)))
    ensures var input := PrintAll(write, [Mailing(sender, [to], message)]);
      Performed(cfg, setup, world, Reached(cfg, later), n, out, Behaviour(setup, v, input)).0
        == Reached(cfg, later + [Post(list, Ingress(setup.remoteIp, v.helo, sender), message, world(n)(0))])
  {
    PostsIff(setup.lists, list, to);
    PostIsAcceptable(setup, sender, to, message);
    MailingsAreRun(cfg, setup, world, write, later, n, out, v, [Mailing(sender, [to], message)]);
    PostIsOneStep(setup, world, n, v.helo, sender, to, message, list);
  }
}
