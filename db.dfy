/**
 * The single DynamoDB table every handler reads and writes (db.ts exports the
 * client `doc` over it). The table is a finite map from (pk, sk) to an item;
 * the secondary index GSI1 is the projection of the items that carry
 * `gsi1pk`/`gsi1sk`. Queries return keys in sort-key order, as DynamoDB does.
 */
module Db {
  import opened Wrappers
  import opened Text
  import opened Keys

  datatype Key = Key(pk: string, sk: string)

  /** The `keys` object of a Web Push subscription. */
  datatype PushKeys = PushKeys(p256dh: Option<string>, auth: Option<string>)

  /** An item's attributes; `None` is an absent attribute. */
  datatype Item = Item(
    entity: Option<string>,
    familyId: Option<string>,
    userSub: Option<string>,
    name: Option<string>,
    role: Option<string>,
    createdAt: Option<string>,
    createdBy: Option<string>,
    inviteHash: Option<string>,
    joinedAt: Option<string>,
    displayName: Option<string>,
    updatedAt: Option<string>,
    eventId: Option<string>,
    atMs: Option<int>,
    mode: Option<string>,
    durationSec: Option<int>,
    note: Option<string>,
    endpoint: Option<string>,
    keys: Option<PushKeys>,
    userAgent: Option<string>,
    gsi1pk: Option<string>,
    gsi1sk: Option<string>)

  const NoAttributes: Item := Item(None, None, None, None, None, None, None, None, None, None, None,
                                   None, None, None, None, None, None, None, None, None, None)

  type Table = map<Key, Item>

  /** JavaScript truthiness of an optional string attribute. */
  predicate Truthy(o: Option<string>) {
    o.Some? && o.value != ""
  }

  // ---------------------------------------------------------------------------
  // The keys each handler addresses
  // ---------------------------------------------------------------------------

  function FamilyMetaKey(familyId: string): Key { Key(FamilyTag(familyId), META) }
  function InviteKey(hash: string): Key { Key(InviteTag(hash), META) }
  function MembershipKey(sub: string, familyId: string): Key { Key(UserTag(sub), FamilyTag(familyId)) }
  function ProfileKey(sub: string): Key { Key(UserTag(sub), PROFILE) }
  function PushKey(sub: string, hash: string): Key { Key(UserTag(sub), PushTag(hash)) }
  function EventKey(familyId: string, ms: int, eventId: string): Key { Key(FamilyTag(familyId), EventTag(ms, eventId)) }

  // ---------------------------------------------------------------------------
  // Key conditions, the index and scans
  // ---------------------------------------------------------------------------

  /** The sort-key part of a KeyConditionExpression. */
  datatype SkCondition = SkEquals(sk: string) | BeginsWith(prefix: string) | Between(lo: string, hi: string)

  predicate SkMatches(c: SkCondition, sk: string) {
    match c
    case SkEquals(s) => sk == s
    case BeginsWith(p) => HasPrefix(sk, p)
    case Between(lo, hi) => LexLe(lo, sk) && LexLe(sk, hi)
  }

  /** DynamoDB refuses, before reading anything, a BETWEEN whose lower bound sorts after its upper bound. */
  predicate ConditionAccepted(c: SkCondition) {
    match c
    case Between(lo, hi) => LexLe(lo, hi)
    case _ => true
  }

  /** The keys a Query on partition `pk` with condition `c` selects. */
  function QueryKeys(t: Table, pk: string, c: SkCondition): (ks: set<Key>)
    ensures forall k :: k in ks <==> k in t && k.pk == pk && SkMatches(c, k.sk)
  {
    set k | k in t && k.pk == pk && SkMatches(c, k.sk)
  }

  /** An item appears in GSI1 under partition `gpk` with a sort key starting with `prefix`. */
  predicate InGsi(it: Item, gpk: string, prefix: string) {
    it.gsi1pk == Some(gpk) && it.gsi1sk.Some? && HasPrefix(it.gsi1sk.value, prefix)
  }

  function GsiKeys(t: Table, gpk: string, prefix: string): (ks: set<Key>)
    ensures forall k :: k in ks <==> k in t && InGsi(t[k], gpk, prefix)
  {
    set k | k in t && InGsi(t[k], gpk, prefix)
  }

  function GsiSortKey(it: Item): string {
    if it.gsi1sk.Some? then it.gsi1sk.value else ""
  }

  /** The keys one page of a Scan covers (`page`) that pass its filter. */
  function ScanKeys(t: Table, page: set<Key>, filter: (Key, Item) -> bool): (ks: set<Key>)
    ensures forall k :: k in ks <==> k in t && k in page && filter(k, t[k])
  {
    set k | k in t && k in page && filter(k, t[k])
  }

  // ---------------------------------------------------------------------------
  // Sequences of keys
  // ---------------------------------------------------------------------------

  predicate Distinct<K(==)>(s: seq<K>) {
    forall i, j :: 0 <= i < j < |s| ==> s[i] != s[j]
  }

  /** `s` lists every element of `ks` exactly once. */
  predicate Enumerates<K(==)>(s: seq<K>, ks: set<K>) {
    Distinct(s) && (forall i :: 0 <= i < |s| ==> s[i] in ks) && (forall k :: k in ks ==> k in s)
  }

  predicate SortedBy<K>(s: seq<K>, rank: K -> string) {
    forall i, j :: 0 <= i < j < |s| ==> LexLe(rank(s[i]), rank(s[j]))
  }

  predicate SortedDescendingBy<K>(s: seq<K>, rank: K -> string) {
    forall i, j :: 0 <= i < j < |s| ==> LexLe(rank(s[j]), rank(s[i]))
  }

  function SortKey(k: Key): string { k.sk }

  function Reverse<K>(s: seq<K>): (r: seq<K>)
    ensures |r| == |s| && forall i :: 0 <= i < |s| ==> r[i] == s[|s| - 1 - i]
  {
    if s == [] then [] else Reverse(s[1..]) + [s[0]]
  }

  lemma ReverseEnumerates<K>(s: seq<K>, ks: set<K>)
    requires Enumerates(s, ks)
    ensures Enumerates(Reverse(s), ks)
  {
    var r := Reverse(s);
    forall k | k in ks ensures k in r {
      var i :| 0 <= i < |s| && s[i] == k;
      assert r[|s| - 1 - i] == k;
    }
  }

  /** A Query's `Limit`: the first `limit` keys, or all of them. */
  function Take<K>(s: seq<K>, limit: Option<nat>): (r: seq<K>)
    ensures r <= s && forall i :: 0 <= i < |r| ==> r[i] == s[i]
    ensures |r| == if limit.Some? && limit.value < |s| then limit.value else |s|
  {
    if limit.Some? && limit.value < |s| then s[..limit.value] else s
  }

  lemma {:induction false} DistinctCardinality<K>(s: seq<K>)
    requires Distinct(s)
    ensures |set x | x in s| == |s|
    decreases |s|
  {
    if s != [] {
      DistinctCardinality(s[1..]);
      assert (set x | x in s) == (set x | x in s[1..]) + {s[0]};
      assert s[0] !in (set x | x in s[1..]);
    }
  }

  /** A listing of a set is as long as the set is large. */
  lemma EnumeratesSize<K>(s: seq<K>, ks: set<K>)
    requires Enumerates(s, ks)
    ensures |s| == |ks|
  {
    DistinctCardinality(s);
    assert (set x | x in s) == ks;
  }

  /** The elements of `s` that satisfy `p`. */
  function Matching(s: seq<Key>, p: Key -> bool): (r: set<Key>)
    ensures forall x :: x in r <==> x in s && p(x)
  {
    set x | x in s && p(x)
  }

  /** Counting the elements of a distinct listing that satisfy `p`, one element at a time. */
  lemma FilterCountStep(s: seq<Key>, i: nat, p: Key -> bool)
    requires Distinct(s) && i < |s|
    ensures |Matching(s[..i + 1], p)| == |Matching(s[..i], p)| + (if p(s[i]) then 1 else 0)
  {
    assert s[..i + 1] == s[..i] + [s[i]];
    assert s[i] !in s[..i];
    if p(s[i]) {
      assert Matching(s[..i + 1], p) == Matching(s[..i], p) + {s[i]};
    } else {
      assert Matching(s[..i + 1], p) == Matching(s[..i], p);
    }
  }

  /** The first `limit` elements of a listing: distinct members, all of them when they fit, the rest after them. */
  lemma TakeOfListing<K>(dir: seq<K>, q: set<K>, limit: Option<nat>)
    requires Enumerates(dir, q)
    ensures var ks := Take(dir, limit);
      Distinct(ks) && (forall k :: k in ks ==> k in q) &&
      (limit.Some? ==> |ks| <= limit.value) &&
      (limit.None? || |q| <= limit.value ==> forall k :: k in q ==> k in ks) &&
      (forall k :: k in q && k !in ks ==> k in dir[|ks|..])
  {
    EnumeratesSize(dir, q);
    var ks := Take(dir, limit);
    forall k | k in q && k !in ks ensures k in dir[|ks|..] {
        var j :| 0 <= j < |dir| && dir[j] == k;
      assert j >= |ks|;
      assert dir[|ks|..][j - |ks|] == k;
    }
  }

  lemma ReverseSortedDescending<K>(s: seq<K>, rank: K -> string)
    requires SortedBy(s, rank)
    ensures SortedDescendingBy(Reverse(s), rank)
  {
    var r := Reverse(s);
    forall i, j | 0 <= i < j < |r| ensures LexLe(rank(r[j]), rank(r[i])) {
      assert r[i] == s[|s| - 1 - i] && r[j] == s[|s| - 1 - j];
    }
  }

  /**
   * What a Query hands back: distinct selected keys, in ascending or
   * descending sort-key order, all of them when they fit in the limit, and
   * otherwise the first ones in that order.
   */
  lemma QueryResult(all: seq<Key>, ks: seq<Key>, q: set<Key>, forward: bool, limit: Option<nat>)
    requires Enumerates(all, q) && SortedBy(all, SortKey)
    requires ks == Take(if forward then all else Reverse(all), limit)
    ensures Distinct(ks) && forall k :: k in ks ==> k in q
    ensures limit.Some? ==> |ks| <= limit.value
    ensures limit.None? || |q| <= limit.value ==> forall k :: k in q ==> k in ks
    ensures forward ==> SortedBy(ks, SortKey)
    ensures !forward ==> SortedDescendingBy(ks, SortKey)
    ensures forall k, i :: k in q && k !in ks && 0 <= i < |ks| ==>
      if forward then LexLe(ks[i].sk, k.sk) else LexLe(k.sk, ks[i].sk)
  {
    if forward {
      TakeOfListing(all, q, limit);
      TakeAscending(all, q, limit);
    } else {
      var dir := Reverse(all);
      ReverseEnumerates(all, q);
      ReverseSortedDescending(all, SortKey);
      TakeOfListing(dir, q, limit);
      TakeDescending(dir, q, limit);
    }
  }

  /** A query on one partition with an exact sort key finds that one key, when the table holds it. */
  lemma PointQuery(t: Table, pk: string, sk: string, all: seq<Key>, ks: seq<Key>)
    requires Enumerates(all, QueryKeys(t, pk, SkEquals(sk)))
    requires ks == Take(all, None)
    ensures |ks| == 0 <==> Key(pk, sk) !in t
    ensures |ks| > 0 ==> ks[0] == Key(pk, sk)
  {
    if Key(pk, sk) in t {
      assert Key(pk, sk) in QueryKeys(t, pk, SkEquals(sk));
    }
    if |ks| > 0 {
      assert ks[0] in QueryKeys(t, pk, SkEquals(sk));
    }
  }

  /** The first keys of an ascending listing are ascending and sort no later than the keys left out. */
  lemma TakeAscending(dir: seq<Key>, q: set<Key>, limit: Option<nat>)
    requires Enumerates(dir, q) && SortedBy(dir, SortKey)
    ensures var ks := Take(dir, limit);
      SortedBy(ks, SortKey) &&
      forall k, i :: k in q && k !in ks && 0 <= i < |ks| ==> LexLe(ks[i].sk, k.sk)
  {
    var ks := Take(dir, limit);
    TakeOfListing(dir, q, limit);
    forall k, i | k in q && k !in ks && 0 <= i < |ks|
      ensures LexLe(ks[i].sk, k.sk)
    {
      var j :| |ks| <= j < |dir| && dir[j] == k;
      assert SortKey(dir[i]) == ks[i].sk && SortKey(dir[j]) == k.sk;
    }
  }

  /** The first keys of a descending listing are descending and sort no earlier than the keys left out. */
  lemma TakeDescending(dir: seq<Key>, q: set<Key>, limit: Option<nat>)
    requires Enumerates(dir, q) && SortedDescendingBy(dir, SortKey)
    ensures var ks := Take(dir, limit);
      SortedDescendingBy(ks, SortKey) &&
      forall k, i :: k in q && k !in ks && 0 <= i < |ks| ==> LexLe(k.sk, ks[i].sk)
  {
    var ks := Take(dir, limit);
    TakeOfListing(dir, q, limit);
    forall k, i | k in q && k !in ks && 0 <= i < |ks|
      ensures LexLe(k.sk, ks[i].sk)
    {
      var j :| |ks| <= j < |dir| && dir[j] == k;
      assert SortKey(dir[i]) == ks[i].sk && SortKey(dir[j]) == k.sk;
    }
  }

  // ---------------------------------------------------------------------------
  // Ordering a key set
  // ---------------------------------------------------------------------------

  /** An element of `s` of least rank. */
  method MinBy<K(==)>(s: set<K>, rank: K -> string) returns (m: K)
    requires s != {}
    ensures m in s && forall k :: k in s ==> LexLe(rank(m), rank(k))
  {
    m :| m in s;
    var rest := s - {m};
    while rest != {}
      invariant rest <= s && m in s
      invariant forall k :: k in s && k !in rest ==> LexLe(rank(m), rank(k))
      decreases |rest|
    {
      var x :| x in rest;
      if LexLess(rank(x), rank(m)) {
        forall k | k in s && k !in rest
          ensures LexLe(rank(x), rank(k))
        {
          LexLeTransitive(rank(x), rank(m), rank(k));
        }
        m := x;
      } else {
        LexLeTotal(rank(m), rank(x));
      }
      rest := rest - {x};
    }
  }

  /** Lists `ks` in non-decreasing rank (selection sort over a set). */
  method SortBy<K(==)>(ks: set<K>, rank: K -> string) returns (rs: seq<K>)
    ensures Enumerates(rs, ks) && SortedBy(rs, rank)
  {
    rs := [];
    var rest := ks;
    while rest != {}
      invariant rest <= ks
      invariant Distinct(rs)
      invariant forall i :: 0 <= i < |rs| ==> rs[i] in ks && rs[i] !in rest
      invariant forall k :: k in ks && k !in rest ==> k in rs
      invariant SortedBy(rs, rank)
      invariant forall i, k :: 0 <= i < |rs| && k in rest ==> LexLe(rank(rs[i]), rank(k))
      decreases |rest|
    {
      var m := MinBy(rest, rank);
      rs := rs + [m];
      rest := rest - {m};
    }
  }

  /** Lists `ks` in some order (the order a Scan or BatchGet hands items back in). */
  method Enumerate<K(==)>(ks: set<K>) returns (rs: seq<K>)
    ensures Enumerates(rs, ks)
  {
    rs := [];
    var rest := ks;
    while rest != {}
      invariant rest <= ks
      invariant Distinct(rs)
      invariant forall i :: 0 <= i < |rs| ==> rs[i] in ks && rs[i] !in rest
      invariant forall k :: k in ks && k !in rest ==> k in rs
      decreases |rest|
    {
      var k :| k in rest;
      rs := rs + [k];
      rest := rest - {k};
    }
  }

  // ---------------------------------------------------------------------------
  // The schema every handler writes
  // ---------------------------------------------------------------------------

  /** `USER#<sub> / FAMILY#<familyId>`: a membership item's key. */
  predicate IsMembershipKey(k: Key) {
    HasPrefix(k.pk, USER_PREFIX) && HasPrefix(k.sk, FAMILY_PREFIX)
  }

  /** A membership names its own user and family, and mirrors into GSI1 as `FAMILY#id / MEMBER#sub`. */
  predicate MembershipShaped(k: Key, it: Item)
    requires IsMembershipKey(k)
  {
    it.familyId == Some(k.sk[|FAMILY_PREFIX|..]) &&
    it.userSub == Some(k.pk[|USER_PREFIX|..]) &&
    it.gsi1pk == Some(k.sk) &&
    it.gsi1sk == Some(MemberTag(k.pk[|USER_PREFIX|..]))
  }

  predicate IsMemberGsiRow(it: Item) {
    it.gsi1sk.Some? && HasPrefix(it.gsi1sk.value, MEMBER_PREFIX)
  }

  predicate IsFamilyMetaKey(k: Key) {
    HasPrefix(k.pk, FAMILY_PREFIX) && k.sk == META
  }

  /**
   * The shapes the handlers write: memberships are well formed, every
   * `MEMBER#` row of GSI1 is a membership, and a family's META item names
   * its own family.
   */
  predicate Schema(t: Table) {
    (forall k :: k in t && IsMembershipKey(k) ==> MembershipShaped(k, t[k])) &&
    (forall k :: k in t && IsMemberGsiRow(t[k]) ==> IsMembershipKey(k)) &&
    (forall k :: k in t && IsFamilyMetaKey(k) ==> t[k].familyId == Some(k.pk[|FAMILY_PREFIX|..]))
  }

  /** Writing an item that fits the schema at its key keeps the schema. */
  lemma SchemaPut(t: Table, k: Key, it: Item)
    requires Schema(t)
    requires IsMembershipKey(k) ==> MembershipShaped(k, it)
    requires IsMemberGsiRow(it) ==> IsMembershipKey(k)
    requires IsFamilyMetaKey(k) ==> it.familyId == Some(k.pk[|FAMILY_PREFIX|..])
    ensures Schema(t[k := it])
  {
  }

  /** A table that lost exactly the keys `gone` and kept every other item is `before - gone`. */
  lemma RemovedExactly(m: Table, before: Table, gone: set<Key>)
    requires forall k :: k in m <==> k in before && k !in gone
    requires forall k :: k in m ==> m[k] == before[k]
    ensures m == before - gone
  {
    assert m.Keys == (before - gone).Keys;
  }

  lemma SchemaRemove(t: Table, gone: set<Key>)
    requires Schema(t)
    ensures Schema(t - gone)
  {
  }

  lemma MembershipKeyParts(sub: string, familyId: string)
    ensures IsMembershipKey(MembershipKey(sub, familyId))
    ensures MembershipKey(sub, familyId).pk[|USER_PREFIX|..] == sub
    ensures MembershipKey(sub, familyId).sk[|FAMILY_PREFIX|..] == familyId
    ensures !IsFamilyMetaKey(MembershipKey(sub, familyId))
  {
    PrefixOfConcat(USER_PREFIX, sub);
    PrefixOfConcat(FAMILY_PREFIX, familyId);
  }

  /** The membership item the create and join handlers write. */
  function MembershipItem(sub: string, familyId: string, role: string, joinedAt: string): Item {
    NoAttributes.(familyId := Some(familyId), userSub := Some(sub), role := Some(role),
                  joinedAt := Some(joinedAt), gsi1pk := Some(FamilyTag(familyId)),
                  gsi1sk := Some(MemberTag(sub)))
  }

  lemma MembershipItemShaped(sub: string, familyId: string, role: string, joinedAt: string)
    ensures IsMembershipKey(MembershipKey(sub, familyId)) &&
      MembershipShaped(MembershipKey(sub, familyId), MembershipItem(sub, familyId, role, joinedAt))
    ensures IsMemberGsiRow(MembershipItem(sub, familyId, role, joinedAt))
  {
    MembershipKeyParts(sub, familyId);
    PrefixOfConcat(MEMBER_PREFIX, sub);
  }

  // ---------------------------------------------------------------------------
  // The client
  // ---------------------------------------------------------------------------

  class Store {
    var table: Table

    constructor (initial: Table)
      ensures table == initial
    {
      table := initial;
    }

    /** GetCommand. */
    function Get(k: Key): (r: Option<Item>)
      reads this
      ensures r.Some? <==> k in table
      ensures r.Some? ==> r.value == table[k]
    {
      if k in table then Some(table[k]) else None
    }

    /** PutCommand without a condition: creates or replaces. */
    method Put(k: Key, it: Item)
      modifies this
      ensures table == old(table)[k := it]
    {
      table := table[k := it];
    }

    /** PutCommand with `attribute_not_exists(pk)`: writes only when no item has key `k`. */
    method PutIfAbsent(k: Key, it: Item) returns (written: bool)
      modifies this
      ensures written <==> k !in old(table)
      ensures table == if written then old(table)[k := it] else old(table)
    {
      written := k !in table;
      if written {
        table := table[k := it];
      }
    }

    /** DeleteCommand: deleting an absent key is a no-op. */
    method Delete(k: Key)
      modifies this
      ensures table == old(table) - {k}
    {
      table := table - {k};
    }

    /**
     * QueryCommand on partition `pk`: `all` is every selected key in ascending
     * sort-key order; the result walks it forwards or backwards
     * (ScanIndexForward) and stops after `limit` keys.
     */
    method Query(pk: string, c: SkCondition, forward: bool, limit: Option<nat>)
      returns (ks: seq<Key>, ghost all: seq<Key>)
      ensures Enumerates(all, QueryKeys(table, pk, c)) && SortedBy(all, SortKey)
      ensures ks == Take(if forward then all else Reverse(all), limit)
    {
      var sorted := SortBy(QueryKeys(table, pk, c), SortKey);
      all := sorted;
      ks := Take(if forward then sorted else Reverse(sorted), limit);
    }

    /** QueryCommand on GSI1: the index rows of partition `gpk` whose sort key starts with `prefix`, ascending. */
    method QueryGsi(gpk: string, prefix: string) returns (ks: seq<Key>)
      ensures Enumerates(ks, GsiKeys(table, gpk, prefix))
      ensures forall i, j :: 0 <= i < j < |ks| ==> LexLe(GsiSortKey(table[ks[i]]), GsiSortKey(table[ks[j]]))
    {
      var t := table;
      var rank := (k: Key) => if k in t then GsiSortKey(t[k]) else "";
      ks := SortBy(GsiKeys(t, gpk, prefix), rank);
    }

    /** One page of a ScanCommand with a FilterExpression: `page` is the part of the table the page covers. */
    method Scan(page: set<Key>, filter: (Key, Item) -> bool) returns (ks: seq<Key>)
      ensures Enumerates(ks, ScanKeys(table, page, filter))
    {
      ks := Enumerate(ScanKeys(table, page, filter));
    }

    /** BatchGetCommand: the requested keys that exist, in no particular order. */
    method BatchGet(requested: set<Key>) returns (found: seq<Key>)
      ensures Enumerates(found, requested * table.Keys)
    {
      found := Enumerate(requested * table.Keys);
    }
  }
}
