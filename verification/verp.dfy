/** Variable envelope return paths: the bounce address of each delivered copy names its recipient. */
module Verps {
  import opened Wrappers
  import opened Text

  const MARK := "+bounce="

  /** The recipient with its first `@` replaced by `=`. */
  function Encode(recipient: string): string {
    var k := IndexOf(recipient, '@');
    if k < 0 then recipient else recipient[..k] + "=" + recipient[k + 1..]
  }

  function Verp(local: string, domain: string, recipient: string): string {
    local + MARK + Encode(recipient) + "@" + domain
  }

  /** The last `=` of the encoded recipient, read back as its `@`. */
  function Restored(e: string): Option<string> {
    var at := LastIndexOf(e, '=');
    if at < 0 then None else Some(e[..at] + "@" + e[at + 1..])
  }

  /** Split the local part at the first marker. */
  function DecodeLocal(left: string, domain: string): Option<(string, string)> {
    var m := Find(left, MARK);
    if m < 0 then None
    else match Restored(left[m + |MARK|..])
      case None => None
      case Some(recipient) => Some((left[..m] + "@" + domain, recipient))
  }

  /** The list's posting address and the recipient, if the address has the shape of a bounce address. */
  function DecodeVerp(address: string): Option<(string, string)> {
    var k := LastIndexOf(address, '@');
    if k < 0 then None else DecodeLocal(address[..k], address[k + 1..])
  }

  /** The recipient has an `@`, and no `=` after its first one. */
  predicate Attributable(recipient: string) {
    var k := IndexOf(recipient, '@');
    k >= 0 && '=' !in recipient[k + 1..]
  }

  lemma {:induction false} LastIndexBounds(s: string, c: char, k: nat)
    requires k < |s|
    ensures s[k] == c ==> LastIndexOf(s, c) >= k
    ensures c !in s[k + 1..] ==> LastIndexOf(s, c) <= k
  {
    var last := |s| - 1;
    if k < last {
      assert s[..last][k + 1..] + [s[last]] == s[k + 1..];
      LastIndexBounds(s[..last], c, k);
    }
  }

  /** The marker cannot overlap itself, so the first one is the one that was written. */
  lemma FirstMark(local: string, encoded: string)
    ensures Find(local, MARK) < 0 ==> Find(local + MARK + encoded, MARK) == |local|
    ensures Find(local, MARK) >= 0 ==> 0 <= Find(local + MARK + encoded, MARK) < |local|
  {
    var s := local + MARK + encoded;
    assert OccursAt(s, MARK, |local|);
    var first := Find(s, MARK);
    if Find(local, MARK) < 0 {
      forall i: nat | i < |local| ensures !OccursAt(s, MARK, i) {
        if i + |MARK| <= |local| {
          assert s[i..i + |MARK|] == local[i..i + |MARK|];
          assert !OccursAt(local, MARK, i);
        } else {
          assert s[|local|] == '+' && MARK[|local| - i] != '+';
          assert s[i..i + |MARK|][|local| - i] == '+';
        }
      }
    } else {
      var m := Find(local, MARK);
      assert s[m..m + |MARK|] == local[m..m + |MARK|];
      assert OccursAt(s, MARK, m);
    }
  }

  lemma RestoreSplit(before: string, after: string)
    ensures '=' !in after ==> Restored(before + "=" + after) == Some(before + "@" + after)
    ensures '=' in after ==> Restored(before + "=" + after) != Some(before + "@" + after)
  {
    var e := before + "=" + after;
    assert e[|before|] == '=' && e[|before| + 1..] == after && e[..|before|] == before;
    LastIndexBounds(e, '=', |before|);
    if '=' in after {
      var j :| 0 <= j < |after| && after[j] == '=';
      assert e[|before| + 1 + j] == '=';
      LastIndexBounds(e, '=', |before| + 1 + j);
      assert Restored(e).value[|before|] == '=';
      assert (before + "@" + after)[|before|] == '@';
    }
  }

  /** Undoing the encoding of the recipient part works exactly for attributable recipients. */
  lemma DecodeRecipient(recipient: string)
    ensures Attributable(recipient) <==> Restored(Encode(recipient)) == Some(recipient)
  {
    var k := IndexOf(recipient, '@');
    if k >= 0 {
      RestoreSplit(recipient[..k], recipient[k + 1..]);
      assert recipient == recipient[..k] + "@" + recipient[k + 1..];
    } else if Restored(recipient).Some? {
      assert Restored(recipient).value[LastIndexOf(recipient, '=')] == '@';
    }
  }

  /** Decoding splits the address where it was put together, as long as the domain has no `@`. */
  lemma DecodeSplits(left: string, domain: string)
    requires '@' !in domain
    ensures DecodeVerp(left + "@" + domain) == DecodeLocal(left, domain)
  {
    var address := left + "@" + domain;
    assert address[|left|] == '@' && address[|left| + 1..] == domain && address[..|left|] == left;
    LastIndexBounds(address, '@', |left|);
  }

  /** What decoding reads as the posting address is never longer than the one encoded. */
  lemma DecodedBase(local: string, domain: string, encoded: string)
    ensures var r := DecodeLocal(local + MARK + encoded, domain);
      if Find(local, MARK) < 0 then
        r == match Restored(encoded) case None => None case Some(x) => Some((local + "@" + domain, x))
      else r.Some? ==> |r.value.0| < |local + "@" + domain|
  {
    FirstMark(local, encoded);
    var left := local + MARK + encoded;
    assert left[..|local|] == local && left[|local| + |MARK|..] == encoded;
  }

  /**
   * The exact round trip: decoding gives back the posting address and the recipient if and only if
   * the domain has no `@`, the local part does not contain the marker, and the recipient is attributable.
   */
  lemma VerpRoundTrip(local: string, domain: string, recipient: string)
    ensures DecodeVerp(Verp(local, domain, recipient)) == Some((local + "@" + domain, recipient))
       <==> '@' !in domain && Find(local, MARK) < 0 && Attributable(recipient)
  {
    if '@' in domain {
      ShorterDomain(local, domain, Encode(recipient));
    } else {
      DecodeSplits(local + MARK + Encode(recipient), domain);
      DecodedBase(local, domain, Encode(recipient));
      DecodeRecipient(recipient);
    }
  }

  /** The same, for a whole address. */
  lemma VerpBase(local: string, domain: string, recipient: string)
    requires '@' !in domain
    ensures var r := DecodeVerp(Verp(local, domain, recipient));
      r.Some? ==> if Find(local, MARK) < 0 then r.value.0 == local + "@" + domain
                  else |r.value.0| < |local + "@" + domain|
  {
    DecodeSplits(local + MARK + Encode(recipient), domain);
    DecodedBase(local, domain, Encode(recipient));
  }

  /** A path that decodes to its recipient and to a base no shorter than the list's own is whole. */
  lemma WholeBase(local: string, domain: string, recipient: string, base: string)
    requires '@' !in domain && |base| >= |local + "@" + domain|
    requires DecodeVerp(Verp(local, domain, recipient)) == Some((base, recipient))
    ensures Find(local, MARK) < 0 && base == local + "@" + domain && Attributable(recipient)
  {
    VerpBase(local, domain, recipient);
    VerpRoundTrip(local, domain, recipient);
  }

  lemma ShorterDomain(local: string, domain: string, encoded: string)
    requires '@' in domain
    ensures var r := DecodeVerp(local + MARK + encoded + "@" + domain);
      r.Some? ==> |r.value.0| < |local + "@" + domain|
  {
    var left := local + MARK + encoded;
    var address := left + "@" + domain;
    var k := LastIndexOf(address, '@');
    var j :| 0 <= j < |domain| && domain[j] == '@';
    assert address[|left| + 1 + j] == '@';
    LastIndexBounds(address, '@', |left| + 1 + j);
    assert address[..k] == local + MARK + (encoded + "@" + domain)[..k - |local + MARK|];
    FirstMark(local, (encoded + "@" + domain)[..k - |local + MARK|]);
  }

  lemma FirstIndexIs(s: string, c: char, k: nat)
    requires k < |s| && s[k] == c && forall i :: 0 <= i < k ==> s[i] != c
    ensures IndexOf(s, c) == k
  {
  }

  /** The documented format of a return path. */
  lemma VerpFormat(local: string, domain: string, user: string, host: string)
    requires '@' !in user
    ensures Verp(local, domain, user + "@" + host) == local + "+bounce=" + (user + "=" + host) + "@" + domain
  {
    var recipient := user + "@" + host;
    assert recipient[|user|] == '@' && recipient[..|user|] == user && recipient[|user| + 1..] == host;
    assert forall i :: 0 <= i < |user| ==> recipient[i] == user[i] && user[i] in user;
    FirstIndexIs(recipient, '@', |user|);
  }

  /** Distinct attributable recipients of a list never share a return path. */
  lemma VerpInjective(local: string, domain: string, a: string, b: string)
    requires '@' !in domain && Find(local, MARK) < 0 && Attributable(a) && Attributable(b)
    requires Verp(local, domain, a) == Verp(local, domain, b)
    ensures a == b
  {
    VerpRoundTrip(local, domain, a);
    VerpRoundTrip(local, domain, b);
  }
}
