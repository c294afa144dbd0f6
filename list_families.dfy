/**
 * list-families.ts: the caller's memberships (`USER#sub`, sort keys starting
 * `FAMILY#`), each joined with its family's META item for the name. The join
 * is shared with me.ts, which repeats it line for line. There is no catch
 * block: a missing sub propagates as a thrown error.
 */
module ListFamilies {
  import opened Wrappers
  import opened Text
  import opened Keys
  import opened Db
  import opened Shared

  const UNKNOWN_NAME := "(unknown)"

  /** The META key requested for a membership: a missing `familyId` renders as `undefined` in the template. */
  function MetaKeyOf(membership: Item): Key {
    FamilyMetaKey(membership.familyId.GetOr("undefined"))
  }

  /** The name a family is listed under: its META item's `name`, or `(unknown)` without a META item or name. */
  function KnownName(t: Table, familyId: Option<string>): string {
    if familyId.Some? && FamilyMetaKey(familyId.value) in t then t[FamilyMetaKey(familyId.value)].name.GetOr(UNKNOWN_NAME)
    else UNKNOWN_NAME
  }

  /** `metas.get(m.familyId)?.name ?? "(unknown)"`. */
  function NameIn(metas: map<Option<string>, Item>, familyId: Option<string>): string {
    if familyId in metas then metas[familyId].name.GetOr(UNKNOWN_NAME) else UNKNOWN_NAME
  }

  function FamilyEntry(membership: Item, name: string): FamilyView {
    FamilyView(membership.familyId, membership.role.GetOr("member"), membership.joinedAt, name)
  }

  /** The response entries: one per membership, in query order, named from `metas`. */
  function Entries(t: Table, ks: seq<Key>, metas: map<Option<string>, Item>): (fs: seq<FamilyView>)
    requires forall k :: k in ks ==> k in t
    ensures |fs| == |ks|
    ensures forall i :: 0 <= i < |ks| ==> fs[i] == FamilyEntry(t[ks[i]], NameIn(metas, t[ks[i]].familyId))
  {
    if ks == [] then [] else [FamilyEntry(t[ks[0]], NameIn(metas, t[ks[0]].familyId))] + Entries(t, ks[1..], metas)
  }

  /** A META item stored under its family's own META key. */
  predicate MetaFor(t: Table, familyId: Option<string>, meta: Item) {
    familyId.Some? && FamilyMetaKey(familyId.value) in t && meta == t[FamilyMetaKey(familyId.value)]
  }

  /**
   * The shared join: the membership query, a BatchGet of the META keys, the
   * map from `familyId` to META item, then one entry per membership. Every
   * entry carries its membership's family id, role (default `member`) and
   * join time; under the schema its name is the family's stored name.
   */
  method FamiliesOf(store: Store, sub: string) returns (families: seq<FamilyView>, ghost ks: seq<Key>)
    ensures Enumerates(ks, QueryKeys(store.table, UserTag(sub), BeginsWith(FAMILY_PREFIX))) && SortedBy(ks, SortKey)
    ensures |families| == |ks|
    ensures forall i :: 0 <= i < |ks| ==>
      families[i].familyId == store.table[ks[i]].familyId &&
      families[i].role == store.table[ks[i]].role.GetOr("member") &&
      families[i].joinedAt == store.table[ks[i]].joinedAt
    ensures Schema(store.table) ==>
      forall i :: 0 <= i < |ks| ==> families[i].name == KnownName(store.table, store.table[ks[i]].familyId)
  {
    var memberships: seq<Key>;
    ghost var all: seq<Key>;
    memberships, all := store.Query(UserTag(sub), BeginsWith(FAMILY_PREFIX), true, None);
    ks := memberships;
    if |memberships| == 0 {
      return [], ks;
    }
    var t := store.table;
    var requested := MetaKeys(t, memberships);
    var found := store.BatchGet(requested);
    var metas := CollectMetas(t, found);
    families := Entries(t, memberships, metas);
    if Schema(t) {
      NamesResolve(t, memberships, found, metas);
    }
  }

  /** The keys of the BatchGet: one META key per membership. */
  function MetaKeys(t: Table, ks: seq<Key>): (requested: set<Key>)
    requires forall k :: k in ks ==> k in t
    ensures forall i :: 0 <= i < |ks| ==> MetaKeyOf(t[ks[i]]) in requested
    ensures forall k :: k in requested ==> IsFamilyMetaKey(k)
  {
    set i | 0 <= i < |ks| :: MetaKeyOf(t[ks[i]])
  }

  /**
   * With the META items of a table that keeps the schema, every
   * membership's entry is named after the family's stored name.
   */
  lemma NamesResolve(t: Table, ks: seq<Key>, found: seq<Key>, metas: map<Option<string>, Item>)
    requires Schema(t)
    requires forall k :: k in ks ==> k in t
    requires Enumerates(found, MetaKeys(t, ks) * t.Keys)
    requires forall k :: k in found ==> t[k].familyId in metas
    requires forall o :: o in metas ==> MetaFor(t, o, metas[o])
    ensures forall i :: 0 <= i < |ks| ==> NameIn(metas, t[ks[i]].familyId) == KnownName(t, t[ks[i]].familyId)
  {
    forall i | 0 <= i < |ks|
      ensures NameIn(metas, t[ks[i]].familyId) == KnownName(t, t[ks[i]].familyId)
    {
      var o := t[ks[i]].familyId;
      if o.Some? && FamilyMetaKey(o.value) in t {
        assert MetaKeyOf(t[ks[i]]) in found;
      }
    }
  }

  /**
   * `for (const item of found) metas.set(item.familyId, item)`: every found
   * item's family id is a key of the map, and when the found items are META
   * items of a table that keeps the schema, each entry is the META item of
   * the family it is keyed by.
   */
  method CollectMetas(t: Table, found: seq<Key>) returns (metas: map<Option<string>, Item>)
    requires forall k :: k in found ==> k in t
    ensures forall k :: k in found ==> t[k].familyId in metas
    ensures Schema(t) && (forall k :: k in found ==> IsFamilyMetaKey(k)) ==>
      forall o :: o in metas ==> MetaFor(t, o, metas[o])
  {
    metas := map[];
    var j := 0;
    while j < |found|
      invariant 0 <= j <= |found|
      invariant forall m :: 0 <= m < j ==> t[found[m]].familyId in metas
      invariant Schema(t) && (forall k :: k in found ==> IsFamilyMetaKey(k)) ==>
        forall o :: o in metas ==> MetaFor(t, o, metas[o])
    {
      var item := t[found[j]];
      if Schema(t) && (forall k :: k in found ==> IsFamilyMetaKey(k)) {
        assert IsFamilyMetaKey(found[j]);
        assert found[j] == FamilyMetaKey(found[j].pk[|FAMILY_PREFIX|..]);
      }
      metas := metas[item.familyId := item];
      j := j + 1;
    }
  }

  /** The handler: the join for the caller; an empty list when they belong to no family. */
  method Handler(store: Store, claimSub: Option<string>) returns (out: Outcome, ghost ks: seq<Key>)
    ensures !Truthy(claimSub) ==> out == Threw(MISSING_SUB)
    ensures Truthy(claimSub) ==>
      out.Is(200) && out.response.body.Families? &&
      Enumerates(ks, QueryKeys(store.table, UserTag(claimSub.value), BeginsWith(FAMILY_PREFIX))) &&
      |out.response.body.families| == |ks|
    ensures Truthy(claimSub) && Schema(store.table) ==>
      forall i :: 0 <= i < |ks| ==>
        out.response.body.families[i] ==
          FamilyEntry(store.table[ks[i]], KnownName(store.table, store.table[ks[i]].familyId))
  {
    var s := GetSub(claimSub);
    if s.Err? {
      return Threw(s.error), [];
    }
    var families;
    families, ks := FamiliesOf(store, s.value);
    return Succeed(Families(families)), ks;
  }

  /**
   * Under the schema the listed memberships are the caller's own, one per
   * family they belong to.
   */
  lemma ListedAreOwnMemberships(t: Table, sub: string, familyId: string)
    requires Schema(t)
    ensures MembershipKey(sub, familyId) in QueryKeys(t, UserTag(sub), BeginsWith(FAMILY_PREFIX)) <==>
            MembershipKey(sub, familyId) in t
    ensures forall k :: k in QueryKeys(t, UserTag(sub), BeginsWith(FAMILY_PREFIX)) ==>
            IsMembershipKey(k) && t[k].userSub == Some(sub)
  {
    MembershipKeyParts(sub, familyId);
    forall k | k in QueryKeys(t, UserTag(sub), BeginsWith(FAMILY_PREFIX))
      ensures IsMembershipKey(k) && t[k].userSub == Some(sub)
    {
      PrefixOfConcat(USER_PREFIX, sub);
    }
  }
}
