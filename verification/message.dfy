/** Messages as an ordered field list plus a body, and what a DKIM signature covers of them. */
module Messages {
  import opened Wrappers
  import opened Seqs
  import opened Text

  newtype byte = b: int | 0 <= b < 256

  /** One header field: its name, its decoded value, and its bytes on the wire. */
  datatype Field = Field(name: string, value: string, wire: seq<byte>)

  /** The body starts with the empty line that ends the header. */
  datatype Message = Message(fields: seq<Field>, body: seq<byte>)

  predicate Named(f: Field, name: string) {
    SameName(f.name, name)
  }

  function RenderFields(fields: seq<Field>): seq<byte> {
    if fields == [] then [] else fields[0].wire + RenderFields(fields[1..])
  }

  function Render(m: Message): seq<byte> {
    RenderFields(m.fields) + m.body
  }

  function Prepend(added: seq<Field>, m: Message): Message {
    Message(added + m.fields, m.body)
  }

  predicate IsSuffix(s: seq<byte>, whole: seq<byte>) {
    |s| <= |whole| && whole[|whole| - |s|..] == s
  }

  lemma {:induction false} RenderConcat(a: seq<Field>, b: seq<Field>)
    ensures RenderFields(a + b) == RenderFields(a) + RenderFields(b)
  {
    if a == [] {
      assert a + b == b;
    } else {
      RenderConcat(a[1..], b);
      assert (a + b)[1..] == a[1..] + b && (a + b)[0] == a[0];
      Assoc(a[0].wire, RenderFields(a[1..]), RenderFields(b));
    }
  }

  /** Prepending fields leaves the message's bytes as an exact suffix. */
  lemma PrependKeepsBytes(added: seq<Field>, m: Message)
    ensures Render(Prepend(added, m)) == RenderFields(added) + Render(m)
    ensures IsSuffix(Render(m), Render(Prepend(added, m)))
  {
    RenderConcat(added, m.fields);
    Assoc(RenderFields(added), RenderFields(m.fields), m.body);
    SuffixOfConcat(RenderFields(added), Render(m));
  }

  lemma SuffixOfConcat(a: seq<byte>, b: seq<byte>)
    ensures IsSuffix(b, a + b)
  {
  }

  // ---- Edits made by the Sieve "editheader" extension ----

  /** The fields not named `name`, in order. */
  function Without(fields: seq<Field>, name: string): (r: seq<Field>)
    ensures forall f :: f in r <==> f in fields && !Named(f, name)
  {
    if fields == [] then []
    else if Named(fields[0], name) then Without(fields[1..], name)
    else [fields[0]] + Without(fields[1..], name)
  }

  lemma {:induction false} WithoutConcat(a: seq<Field>, b: seq<Field>, name: string)
    ensures Without(a + b, name) == Without(a, name) + Without(b, name)
  {
    if a == [] {
      assert a + b == b;
    } else {
      assert (a + b)[1..] == a[1..] + b;
      WithoutConcat(a[1..], b, name);
    }
  }

  lemma {:induction false} WithoutCommutes(fields: seq<Field>, n: string, m: string)
    ensures Without(Without(fields, n), m) == Without(Without(fields, m), n)
  {
    if fields != [] {
      WithoutCommutes(fields[1..], n, m);
      var head, tail := [fields[0]], fields[1..];
      assert fields == head + tail;
      WithoutConcat(head, Without(tail, n), m);
      WithoutConcat(head, Without(tail, m), n);
    }
  }

  lemma {:induction false} WithoutAbsent(fields: seq<Field>, name: string)
    requires forall f :: f in fields ==> !Named(f, name)
    ensures Without(fields, name) == fields
  {
    if fields != [] {
      WithoutAbsent(fields[1..], name);
    }
  }

  /** The value of the first field of that name, from the top. */
  function FirstValue(fields: seq<Field>, name: string): (r: Option<string>)
    ensures r.None? <==> forall f :: f in fields ==> !Named(f, name)
  {
    if fields == [] then None
    else if Named(fields[0], name) then Some(fields[0].value)
    else FirstValue(fields[1..], name)
  }

  // ---- Header selection of section 5.4.2 of RFC 6376 ----

  /** The lowest field of that name, or -1: verifiers and signers select from the bottom up. */
  function LowestNamed(fields: seq<Field>, name: string): (k: int)
    ensures -1 <= k < |fields|
    ensures k >= 0 ==> Named(fields[k], name)
    ensures forall i :: k < i < |fields| ==> !Named(fields[i], name)
  {
    if fields == [] then -1
    else if Named(fields[|fields| - 1], name) then |fields| - 1
    else LowestNamed(fields[..|fields| - 1], name)
  }

  /**
   * The field instances that an `h=` list selects. Each entry takes the lowest instance of its
   * name not taken yet; an entry with no instance left selects the null string.
   */
  function Select(h: seq<string>, fields: seq<Field>): (r: seq<Option<Field>>)
    ensures |r| == |h|
  {
    if h == [] then []
    else
      var k := LowestNamed(fields, h[0]);
      if k < 0 then [None] + Select(h[1..], fields)
      else [Some(fields[k])] + Select(h[1..], fields[..k] + fields[k + 1..])
  }

  function CountField(fields: seq<Field>, name: string): nat {
    if fields == [] then 0 else (if Named(fields[0], name) then 1 else 0) + CountField(fields[1..], name)
  }

  function CountName(h: seq<string>, name: string): nat {
    if h == [] then 0 else (if SameName(h[0], name) then 1 else 0) + CountName(h[1..], name)
  }

  /** `r` is the instance of `name` with exactly `n` others below it; null if there are too few. */
  ghost predicate IsFromBottom(fields: seq<Field>, name: string, n: nat, r: Option<Field>) {
    match r
    case None => CountField(fields, name) <= n
    case Some(f) =>
      exists k | 0 <= k < |fields| ::
        fields[k] == f && Named(fields[k], name) && CountField(fields[k + 1..], name) == n
  }

  lemma {:induction false} CountFieldConcat(a: seq<Field>, b: seq<Field>, name: string)
    ensures CountField(a + b, name) == CountField(a, name) + CountField(b, name)
  {
    if a == [] {
      assert a + b == b;
    } else {
      assert (a + b)[1..] == a[1..] + b;
      CountFieldConcat(a[1..], b, name);
    }
  }

  lemma {:induction false} CountFieldPositive(fields: seq<Field>, name: string)
    ensures CountField(fields, name) > 0 <==> exists f :: f in fields && Named(f, name)
  {
    if fields != [] {
      CountFieldPositive(fields[1..], name);
    }
  }

  /** Taking one instance out lowers exactly the counts of names equal to its own. */
  lemma CountFieldRemove(fields: seq<Field>, k: nat, name: string)
    requires k < |fields|
    ensures CountField(fields[..k] + fields[k + 1..], name)
         == CountField(fields, name) - (if Named(fields[k], name) then 1 else 0)
  {
    var mid := [fields[k]];
    assert fields == fields[..k] + (mid + fields[k + 1..]);
    CountFieldConcat(fields[..k], mid + fields[k + 1..], name);
    CountFieldConcat(mid, fields[k + 1..], name);
    CountFieldConcat(fields[..k], fields[k + 1..], name);
  }

  /** The lowest instance is found in the lower part whenever that part has one. */
  lemma LowestOfConcat(added: seq<Field>, fields: seq<Field>, name: string)
    ensures var k := LowestNamed(fields, name);
      LowestNamed(added + fields, name) ==
        if k >= 0 then |added| + k else LowestNamed(added, name)
  {
    var whole := added + fields;
    var k, j, w := LowestNamed(fields, name), LowestNamed(added, name), LowestNamed(whole, name);
    if k >= 0 {
      assert whole[|added| + k] == fields[k];
      assert forall i :: |added| + k < i < |whole| ==> whole[i] == fields[i - |added|];
    } else {
      assert forall i :: |added| <= i < |whole| ==> whole[i] == fields[i - |added|];
      assert forall i :: 0 <= i < |added| ==> whole[i] == added[i];
    }
  }

  /** No added name is oversigned: `h` names it at most as often as the message carries it. */
  ghost predicate CoversAtMost(h: seq<string>, added: seq<Field>, fields: seq<Field>) {
    forall f :: f in added ==> CountName(h, f.name) <= CountField(fields, f.name)
  }

  /** Taking the message's own lowest instance leaves the question about the rest of the list. */
  lemma CoverAfterTake(h: seq<string>, added: seq<Field>, fields: seq<Field>, k: nat)
    requires h != [] && k < |fields| && Named(fields[k], h[0])
    ensures CoversAtMost(h, added, fields) <==> CoversAtMost(h[1..], added, fields[..k] + fields[k + 1..])
  {
    var rest := fields[..k] + fields[k + 1..];
    forall f | f in added
      ensures CountName(h, f.name) <= CountField(fields, f.name)
         <==> CountName(h[1..], f.name) <= CountField(rest, f.name)
    {
      CountFieldRemove(fields, k, f.name);
    }
  }

  /** Taking a field from the lower part of a concatenation takes it from that part. */
  lemma TakeFromLower(added: seq<Field>, fields: seq<Field>, k: nat)
    requires k < |fields|
    ensures var (whole, i) := (added + fields, |added| + k);
      whole[i] == fields[k] && whole[..i] + whole[i + 1..] == added + (fields[..k] + fields[k + 1..])
  {
  }

  lemma SelectAfterTake(h: seq<string>, added: seq<Field>, fields: seq<Field>, k: nat)
    requires h != [] && k == LowestNamed(fields, h[0])
    ensures Select(h, added + fields)
         == [Some(fields[k])] + Select(h[1..], added + (fields[..k] + fields[k + 1..]))
  {
    LowestOfConcat(added, fields, h[0]);
    TakeFromLower(added, fields, k);
  }

  lemma SelectionsAfterTake(h: seq<string>, added: seq<Field>, fields: seq<Field>, k: nat)
    requires h != [] && k == LowestNamed(fields, h[0])
    ensures var rest := fields[..k] + fields[k + 1..];
      Select(h, added + fields) == Select(h, fields) <==> Select(h[1..], added + rest) == Select(h[1..], rest)
  {
    var rest := fields[..k] + fields[k + 1..];
    SelectAfterTake(h, added, fields, k);
    ConsIff(Select(h, added + fields), Select(h, fields), Some(fields[k]),
            Select(h[1..], added + rest), Select(h[1..], rest));
  }

  lemma ConsIff<T>(s: seq<T>, t: seq<T>, x: T, a: seq<T>, b: seq<T>)
    requires s == [x] + a && t == [x] + b
    ensures s == t <==> a == b
  {
    HeadsEqual(x, a, b);
  }

  /** A name that only the added fields carry is selected from them, where it was null before. */
  lemma AddedNameSelected(h: seq<string>, added: seq<Field>, fields: seq<Field>)
    requires h != [] && LowestNamed(fields, h[0]) < 0 && LowestNamed(added, h[0]) >= 0
    ensures Select(h, added + fields) != Select(h, fields) && !CoversAtMost(h, added, fields)
  {
    var j := LowestNamed(added, h[0]);
    LowestOfConcat(added, fields, h[0]);
    assert added[j] in added;
    CountFieldPositive(fields, h[0]);
    SameCount(fields, h[0], added[j].name);
    assert CountName(h, added[j].name) >= 1;
    assert Select(h, added + fields)[0].Some? && Select(h, fields)[0].None?;
  }

  /**
   * Prepending fields leaves what an `h=` list selects unchanged exactly when the list does not
   * oversign one of the added names.
   */
  lemma {:induction false} SelectUnderPrepend(h: seq<string>, added: seq<Field>, fields: seq<Field>)
    ensures Select(h, added + fields) == Select(h, fields) <==> CoversAtMost(h, added, fields)
    decreases |h|
  {
    if h == [] { return; }
    var k := LowestNamed(fields, h[0]);
    if k >= 0 {
      SelectUnderPrepend(h[1..], added, fields[..k] + fields[k + 1..]);
      CoverAfterTake(h, added, fields, k);
      SelectionsAfterTake(h, added, fields, k);
    } else if LowestNamed(added, h[0]) >= 0 {
      AddedNameSelected(h, added, fields);
    } else {
      LowestOfConcat(added, fields, h[0]);
      SelectUnderPrepend(h[1..], added, fields);
      CoverSkip(h, added, fields);
      HeadsEqual(None, Select(h[1..], added + fields), Select(h[1..], fields));
    }
  }

  /** A name that no added field carries says nothing about them. */
  lemma CoverSkip(h: seq<string>, added: seq<Field>, fields: seq<Field>)
    requires h != [] && LowestNamed(added, h[0]) < 0
    ensures CoversAtMost(h, added, fields) <==> CoversAtMost(h[1..], added, fields)
  {
  }

  lemma HeadsEqual<T>(x: T, a: seq<T>, b: seq<T>)
    ensures [x] + a == [x] + b <==> a == b
  {
    if [x] + a == [x] + b {
      assert a == ([x] + a)[1..] && b == ([x] + b)[1..];
    }
  }

  lemma {:induction false} SameCount(fields: seq<Field>, a: string, b: string)
    requires SameName(a, b)
    ensures CountField(fields, a) == CountField(fields, b)
  {
    if fields != [] {
      SameCount(fields[1..], a, b);
    }
  }

  /** The first entry takes the lowest instance of its name. */
  lemma FirstTakesLowest(h: seq<string>, fields: seq<Field>)
    requires h != []
    ensures IsFromBottom(fields, h[0], 0, Select(h, fields)[0])
  {
    var k := LowestNamed(fields, h[0]);
    CountFieldPositive(fields, h[0]);
    if k >= 0 { CountFieldPositive(fields[k + 1..], h[0]); }
  }

  lemma CountNameCons(h: seq<string>, i: nat, name: string)
    requires 0 < i <= |h|
    ensures CountName(h[..i], name) == (if SameName(h[0], name) then 1 else 0) + CountName(h[1..][..i - 1], name)
  {
    assert h[..i] == [h[0]] + h[1..][..i - 1];
  }

  /** An entry that selects the null string leaves the question about a later one as it was. */
  lemma BottomUpSkip(h: seq<string>, fields: seq<Field>, i: nat)
    requires 0 < i < |h| && LowestNamed(fields, h[0]) < 0
    requires IsFromBottom(fields, h[i], CountName(h[1..][..i - 1], h[i]), Select(h[1..], fields)[i - 1])
    ensures IsFromBottom(fields, h[i], CountName(h[..i], h[i]), Select(h, fields)[i])
  {
    CountNameCons(h, i, h[i]);
    assert Select(h, fields)[i] == Select(h[1..], fields)[i - 1];
    if SameName(h[0], h[i]) {
      CountFieldPositive(fields, h[i]);
    }
  }

  /** An entry that takes an instance leaves the question about a later one to the other fields. */
  lemma BottomUpTake(h: seq<string>, fields: seq<Field>, i: nat, k: nat)
    requires 0 < i < |h| && LowestNamed(fields, h[0]) == k
    requires var rest := fields[..k] + fields[k + 1..];
      IsFromBottom(rest, h[i], CountName(h[1..][..i - 1], h[i]), Select(h[1..], rest)[i - 1])
    ensures IsFromBottom(fields, h[i], CountName(h[..i], h[i]), Select(h, fields)[i])
  {
    var rest := fields[..k] + fields[k + 1..];
    CountNameCons(h, i, h[i]);
    assert Select(h, fields)[i] == Select(h[1..], rest)[i - 1];
    PutBack(fields, k, h[0], h[i], CountName(h[1..][..i - 1], h[i]), Select(h[1..], rest)[i - 1]);
  }

  /**
   * The operational selection against the declarative rule: the i-th entry selects the instance
   * that has as many others below it as the entry's name occurs earlier in the list.
   */
  lemma {:induction false} SelectIsBottomUp(h: seq<string>, fields: seq<Field>, i: nat)
    requires i < |h|
    ensures IsFromBottom(fields, h[i], CountName(h[..i], h[i]), Select(h, fields)[i])
    decreases i
  {
    if i == 0 {
      FirstTakesLowest(h, fields);
    } else {
      var k := LowestNamed(fields, h[0]);
      assert h[1..][i - 1] == h[i];
      if k < 0 {
        SelectIsBottomUp(h[1..], fields, i - 1);
        BottomUpSkip(h, fields, i);
      } else {
        SelectIsBottomUp(h[1..], fields[..k] + fields[k + 1..], i - 1);
        BottomUpTake(h, fields, i, k);
      }
    }
  }

  lemma PutBack(fields: seq<Field>, k: int, taken: string, name: string, n: nat, r: Option<Field>)
    requires k == LowestNamed(fields, taken) && k >= 0
    requires IsFromBottom(fields[..k] + fields[k + 1..], name, n, r)
    ensures IsFromBottom(fields, name, if SameName(taken, name) then n + 1 else n, r)
  {
    var rest := fields[..k] + fields[k + 1..];
    CountFieldRemove(fields, k, name);
    if r.Some? {
      var j :| 0 <= j < |rest| && rest[j] == r.value && Named(rest[j], name) && CountField(rest[j + 1..], name) == n;
      if j < k {
        CountBelowRemoved(fields, k, j, name);
        assert fields[j] == rest[j];
      } else {
        AboveTaken(fields, k, j);
      }
    }
  }

  lemma AboveTaken(fields: seq<Field>, k: nat, j: nat)
    requires k <= j && j + 1 < |fields|
    ensures var rest := fields[..k] + fields[k + 1..];
      rest[j] == fields[j + 1] && rest[j + 1..] == fields[j + 2..]
  {
  }

  lemma CountBelowRemoved(fields: seq<Field>, k: nat, j: nat, name: string)
    requires j < k < |fields|
    ensures CountField((fields[..k] + fields[k + 1..])[j + 1..], name)
         == CountField(fields[j + 1..], name) - (if Named(fields[k], name) then 1 else 0)
  {
    var below := fields[j + 1..];
    assert (fields[..k] + fields[k + 1..])[j + 1..] == below[..k - j - 1] + below[k - j..];
    CountFieldRemove(below, k - j - 1, name);
  }
}
