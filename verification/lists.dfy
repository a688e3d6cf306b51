/** List configuration, the loaded lists, and how an address finds its list. */
module Lists {
  import opened Wrappers
  import opened Text

  datatype ListConfig = ListConfig(
    postingAddress: string,
    displayName: Option<string>,
    listId: Option<string>,
    owner: Option<string>,
    archiveUrl: Option<string>,
    helpUrl: Option<string>,
    subscribeUrl: Option<string>,
    unsubscribeUrl: Option<string>,
    unsubscribeOneclick: Option<string>,
    subjectPrefix: Option<string>,
    policy: string)

  datatype List = List(name: string, cfg: ListConfig, domain: string)

  /** Headers covered by the list's DKIM signature and by the ARC message signature. */
  const SIGNED_HEADERS := [
    "From", "Sender", "Reply-To", "To", "Cc", "Subject", "Date", "Message-ID", "In-Reply-To",
    "References", "MIME-Version", "Content-Type", "Content-Transfer-Encoding", "List-Id",
    "List-Post", "List-Unsubscribe", "List-Subscribe", "List-Help", "List-Archive", "List-Owner"]

  /** The part after the last `@`, or everything. */
  function DomainPart(address: string): string {
    address[LastIndexOf(address, '@') + 1..]
  }

  /** The part before the first `@`, or everything. */
  function LocalPart(address: string): string {
    var k := IndexOf(address, '@');
    if k < 0 then address else address[..k]
  }

  function FromConfig(name: string, cfg: ListConfig): (r: Result<List>)
    ensures r.Ok? <==> '@' in cfg.postingAddress && DomainPart(cfg.postingAddress) != []
    ensures r.Ok? ==> r.value == List(name, cfg, DomainPart(cfg.postingAddress))
  {
    var address := cfg.postingAddress;
    var domain := DomainPart(address);
    if domain != [] && |domain| < |address| then
      Ok(List(name, cfg, domain))
    else Err(Config)
  }

  function ReplaceAt(s: string): string {
    if s == [] then [] else [if s[0] == '@' then '.' else s[0]] + ReplaceAt(s[1..])
  }

  function ListId(list: List): string {
    match list.cfg.listId case Some(id) => id case None => ReplaceAt(list.cfg.postingAddress)
  }

  /** One `<name>.toml` file: the list name and its parsed content. */
  datatype ListFile = ListFile(name: string, cfg: ListConfig)

  function LoadKey(e: ListFile): string {
    ToLower(e.cfg.postingAddress)
  }

  /** The last file with that key: it replaces any earlier one. */
  function LastFile(files: seq<ListFile>, key: string): Option<ListFile> {
    if files == [] then None
    else if LoadKey(files[|files| - 1]) == key then Some(files[|files| - 1])
    else LastFile(files[..|files| - 1], key)
  }

  ghost predicate Loaded(files: seq<ListFile>, lists: map<string, List>) {
    forall key ::
      match LastFile(files, key)
      case None => key !in lists
      case Some(e) => key in lists && FromConfig(e.name, e.cfg) == Ok(lists[key])
  }

  /** Load every list file in directory order; the first invalid one fails the load. */
  method LoadLists(files: seq<ListFile>) returns (r: Result<map<string, List>>)
    ensures r.Ok? <==> forall e :: e in files ==> FromConfig(e.name, e.cfg).Ok?
    ensures r.Ok? ==> Loaded(files, r.value)
  {
    var lists: map<string, List> := map[];
    for i := 0 to |files|
      invariant forall e :: e in files[..i] ==> FromConfig(e.name, e.cfg).Ok?
      invariant Loaded(files[..i], lists)
    {
      var e := files[i];
      var list := FromConfig(e.name, e.cfg);
      assert e in files;
      if list.Err? {
        return Err(list.error);
      }
      assert files[..i + 1][..i] == files[..i];
      lists := lists[ToLower(e.cfg.postingAddress) := list.value];
    }
    assert files[..|files|] == files;
    r := Ok(lists);
  }

  /** Case-insensitive lookup by an incoming recipient address. */
  function ListForAddress(lists: map<string, List>, address: string): Option<List> {
    var key := Canonical(address);
    if key in lists then Some(lists[key]) else None
  }

  method ListByName(lists: map<string, List>, name: string) returns (r: Option<List>)
    ensures r.Some? ==> r.value in lists.Values && r.value.name == name
    ensures r.None? ==> forall key :: key in lists ==> lists[key].name != name
  {
    var keys := lists.Keys;
    while keys != {}
      invariant keys <= lists.Keys
      invariant forall key :: key in lists && key !in keys ==> lists[key].name != name
      decreases keys
    {
      var key :| key in keys;
      if lists[key].name == name {
        return Some(lists[key]);
      }
      keys := keys - {key};
    }
    r := None;
  }
}
