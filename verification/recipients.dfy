/** Resolving an envelope recipient: a post to a list, or a bounce for one of its subscribers. */
module Recipients {
  import opened Wrappers
  import opened Text
  import opened Lists
  import opened Verps

  datatype Recipient = PostTo(list: List) | BounceFor(list: List, address: string)

  /** A bounce address whose list is known takes precedence over a posting address. */
  function ClassifyRecipient(lists: map<string, List>, address: string): Option<Recipient> {
    var verp := DecodeVerp(address);
    if verp.Some? && ListForAddress(lists, verp.value.0).Some? then
      Some(BounceFor(ListForAddress(lists, verp.value.0).value, verp.value.1))
    else match ListForAddress(lists, address)
      case Some(list) => Some(PostTo(list))
      case None => None
  }

  /** Every list sits under its lowercased posting address, as loading puts it there. */
  ghost predicate WellKeyed(lists: map<string, List>) {
    forall key :: key in lists ==> key == ToLower(lists[key].cfg.postingAddress)
  }

  /** The list came through loading, and no other file took its key. */
  ghost predicate HoldsItsKey(lists: map<string, List>, list: List) {
    var key := ToLower(list.cfg.postingAddress);
    && key in lists && lists[key] == list
    && FromConfig(list.name, list.cfg) == Ok(list)
  }

  lemma LoadedIsWellKeyed(files: seq<ListFile>, lists: map<string, List>)
    requires Loaded(files, lists)
    ensures WellKeyed(lists)
    ensures forall key :: key in lists ==> HoldsItsKey(lists, lists[key])
  {
    forall key | key in lists
      ensures key == ToLower(lists[key].cfg.postingAddress) && HoldsItsKey(lists, lists[key])
    {
      LastFileKey(files, key);
      assert LastFile(files, key).Some?;
    }
  }

  lemma {:induction false} LastFileKey(files: seq<ListFile>, key: string)
    ensures LastFile(files, key).Some? ==> LoadKey(LastFile(files, key).value) == key
  {
    if files != [] {
      LastFileKey(files[..|files| - 1], key);
    }
  }

  /**
   * What loading leaves: a file's list sits under its lowercased posting address unless a later file
   * claims the same one, and nothing else is there.
   */
  lemma LoadedIff(files: seq<ListFile>, lists: map<string, List>, key: string, list: List)
    requires Loaded(files, lists)
    ensures key in lists && lists[key] == list <==>
      exists i | 0 <= i < |files| ::
        && ToLower(files[i].cfg.postingAddress) == key
        && (forall j :: i < j < |files| ==> ToLower(files[j].cfg.postingAddress) != key)
        && FromConfig(files[i].name, files[i].cfg) == Ok(list)
  {
    LastFileIs(files, key);
    var last := LastFile(files, key);
  }

  lemma {:induction false} LastFileIs(files: seq<ListFile>, key: string)
    ensures match LastFile(files, key)
      case None => forall i :: 0 <= i < |files| ==> ToLower(files[i].cfg.postingAddress) != key
      case Some(e) => exists i | 0 <= i < |files| ::
        && files[i] == e && ToLower(e.cfg.postingAddress) == key
        && forall j :: i < j < |files| ==> ToLower(files[j].cfg.postingAddress) != key
  {
    if files != [] {
      var init := files[..|files| - 1];
      LastFileIs(init, key);
      assert forall i :: 0 <= i < |init| ==> init[i] == files[i];
      if LoadKey(files[|files| - 1]) == key {
        assert ToLower(files[|files| - 1].cfg.postingAddress) == key;
      } else if LastFile(init, key).Some? {
        var e := LastFile(init, key).value;
        var i :| 0 <= i < |init| && init[i] == e && ToLower(e.cfg.postingAddress) == key
          && forall j :: i < j < |init| ==> ToLower(init[j].cfg.postingAddress) != key;
        assert files[i] == e;
        assert forall j :: i < j < |files| ==>
          ToLower(files[j].cfg.postingAddress) != key && (j < |init| ==> files[j] == init[j]);
      }
    }
  }

  /**
   * A loaded list is found under some address exactly when its posting address has no surrounding
   * white space: lookups trim what they are given, while the key was never trimmed.
   */
  lemma FoundIffTrimmed(lists: map<string, List>, list: List)
    requires WellKeyed(lists) && HoldsItsKey(lists, list)
    ensures (exists a :: ListForAddress(lists, a) == Some(list)) <==> Trimmed(list.cfg.postingAddress)
  {
    var address := list.cfg.postingAddress;
    if Trimmed(address) {
      TrimFacts(address);
      assert ListForAddress(lists, address) == Some(list);
    }
    forall a | ListForAddress(lists, a) == Some(list) ensures Trimmed(address) {
      TrimFacts(a);
      assert Canonical(a) == ToLower(address);
      LowerTrimmed(Trim(a), address);
    }
  }

  lemma LowerTrimmed(s: string, t: string)
    requires ToLower(s) == ToLower(t) && Trimmed(s)
    ensures Trimmed(t)
  {
    if t != [] {
      assert LowerChar(s[0]) == ToLower(s)[0] == LowerChar(t[0]);
      assert LowerChar(s[|s| - 1]) == ToLower(s)[|s| - 1] == LowerChar(t[|t| - 1]);
    }
  }

  /** The posting address has one `@`, no surrounding white space, and no bounce marker. */
  predicate Attributing(list: List) {
    var address := list.cfg.postingAddress;
    && Trimmed(address)
    && LastIndexOf(address, '@') == IndexOf(address, '@')
    && Find(LocalPart(address), MARK) < 0
  }

  lemma TrimLength(s: string)
    ensures |Trim(s)| <= |s|
    ensures |Trim(s)| == |s| ==> Trim(s) == s
  {
    TrimStartLength(s);
    TrimEndFacts(TrimStart(s));
    TrimEndLength(TrimStart(s));
  }

  lemma TrimStartLength(s: string)
    ensures |TrimStart(s)| <= |s| && (|TrimStart(s)| == |s| ==> TrimStart(s) == s)
  {
  }

  lemma TrimEndLength(s: string)
    ensures |TrimEnd(s)| == |s| ==> TrimEnd(s) == s
  {
    if s != [] && IsSpace(s[|s| - 1]) {
      TrimEndFacts(s[..|s| - 1]);
    }
  }

  /** How a loaded list's address falls into local part and domain. */
  lemma AddressParts(list: List)
    requires FromConfig(list.name, list.cfg) == Ok(list)
    ensures var (address, local) := (list.cfg.postingAddress, LocalPart(list.cfg.postingAddress));
      && '@' !in list.domain
      && IndexOf(address, '@') == |local| && local == address[..|local|]
      && LastIndexOf(address, '@') == |address| - |list.domain| - 1
      && list.domain == address[|address| - |list.domain|..]
      && IndexOf(address, '@') <= LastIndexOf(address, '@')
  {
  }

  lemma OneAt(address: string, k: nat)
    requires k < |address| && address[k] == '@'
    ensures address == address[..k] + "@" + address[k + 1..]
  {
  }

  lemma DecodesToList(list: List, recipient: string)
    requires FromConfig(list.name, list.cfg) == Ok(list) && Attributing(list) && Attributable(recipient)
    ensures DecodeVerp(Verp(LocalPart(list.cfg.postingAddress), list.domain, recipient))
         == Some((list.cfg.postingAddress, recipient))
  {
    var address := list.cfg.postingAddress;
    AddressParts(list);
    OneAt(address, IndexOf(address, '@'));
    VerpRoundTrip(LocalPart(address), list.domain, recipient);
  }

  lemma AttributesIf(lists: map<string, List>, list: List, recipient: string)
    requires HoldsItsKey(lists, list) && Attributing(list) && Attributable(recipient)
    ensures ClassifyRecipient(lists, Verp(LocalPart(list.cfg.postingAddress), list.domain, recipient))
         == Some(BounceFor(list, recipient))
  {
    DecodesToList(list, recipient);
    TrimFacts(list.cfg.postingAddress);
  }

  /** A lookup that finds the list was made with its whole address. */
  lemma LookupIsWhole(lists: map<string, List>, list: List, base: string)
    requires WellKeyed(lists) && ListForAddress(lists, base) == Some(list)
    requires |base| <= |list.cfg.postingAddress|
    ensures |base| == |list.cfg.postingAddress| && Trimmed(base)
  {
    TrimLength(base);
    TrimFacts(base);
    assert |Canonical(base)| == |list.cfg.postingAddress|;
  }

  lemma ClassifiedBounce(lists: map<string, List>, address: string, list: List, recipient: string)
      returns (base: string)
    requires ClassifyRecipient(lists, address) == Some(BounceFor(list, recipient))
    ensures DecodeVerp(address) == Some((base, recipient)) && ListForAddress(lists, base) == Some(list)
  {
    base := DecodeVerp(address).value.0;
  }

  /** A base put together from an address's parts is the address only if it has no other `@`. */
  lemma WholeAddress(address: string, base: string, local: string, domain: string)
    requires base == local + "@" + domain && |base| >= |address|
    requires IndexOf(address, '@') == |local| && local == address[..|local|]
    requires LastIndexOf(address, '@') == |address| - |domain| - 1 >= |local|
    requires domain == address[|address| - |domain|..]
    ensures base == address && LastIndexOf(address, '@') == IndexOf(address, '@')
  {
    OneAt(address, |local|);
  }

  lemma BaseIsWhole(list: List, base: string, recipient: string)
    requires FromConfig(list.name, list.cfg) == Ok(list)
    requires DecodeVerp(Verp(LocalPart(list.cfg.postingAddress), list.domain, recipient)) == Some((base, recipient))
    requires |base| >= |list.cfg.postingAddress|
    ensures Find(LocalPart(list.cfg.postingAddress), MARK) < 0 && Attributable(recipient)
    ensures base == list.cfg.postingAddress && LastIndexOf(base, '@') == IndexOf(base, '@')
  {
    var local := LocalPart(list.cfg.postingAddress);
    AddressParts(list);
    WholeBase(local, list.domain, recipient, base);
    WholeAddress(list.cfg.postingAddress, base, local, list.domain);
  }

  lemma AttributesOnlyIf(lists: map<string, List>, list: List, recipient: string)
    requires WellKeyed(lists) && HoldsItsKey(lists, list)
    requires ClassifyRecipient(lists, Verp(LocalPart(list.cfg.postingAddress), list.domain, recipient))
          == Some(BounceFor(list, recipient))
    ensures Attributing(list) && Attributable(recipient)
  {
    var path := Verp(LocalPart(list.cfg.postingAddress), list.domain, recipient);
    var base := ClassifiedBounce(lists, path, list, recipient);
    LookupLength(lists, list, base);
    BaseIsWhole(list, base, recipient);
    LookupIsWhole(lists, list, base);
  }

  lemma LookupLength(lists: map<string, List>, list: List, base: string)
    requires WellKeyed(lists) && ListForAddress(lists, base) == Some(list)
    ensures |base| >= |list.cfg.postingAddress|
  {
    TrimLength(base);
    assert |Canonical(base)| == |list.cfg.postingAddress|;
  }

  /**
   * The exact attribution condition: the return path of a delivered copy resolves to a bounce of that
   * list for that recipient if and only if the posting address is attributing and the recipient is
   * attributable.
   */
  lemma ReturnPathAttributes(lists: map<string, List>, list: List, recipient: string)
    requires WellKeyed(lists) && HoldsItsKey(lists, list)
    ensures ClassifyRecipient(lists, Verp(LocalPart(list.cfg.postingAddress), list.domain, recipient))
              == Some(BounceFor(list, recipient))
       <==> Attributing(list) && Attributable(recipient)
  {
    if Attributing(list) && Attributable(recipient) {
      AttributesIf(lists, list, recipient);
    } else if ClassifyRecipient(lists, Verp(LocalPart(list.cfg.postingAddress), list.domain, recipient))
        == Some(BounceFor(list, recipient)) {
      AttributesOnlyIf(lists, list, recipient);
    }
  }
}
