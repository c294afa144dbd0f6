/**
 * delete-family.ts: the owner deletes a family. META and the invite mapping
 * are deleted by key; memberships, events and push subscriptions are found
 * by Scans. Each Scan reads one page only: `memberPage`, `eventPage` and
 * `pushPage` are the parts of the table those pages cover.
 */
module DeleteFamily {
  import opened Wrappers
  import opened Text
  import opened Keys
  import opened Db
  import opened Shared

  /** Scanned items with `sk = FAMILY#familyId` whose pk starts with `USER#`: the memberships. */
  function MemberRows(t: Table, page: set<Key>, familyId: string): (ks: set<Key>)
    ensures forall k :: k in ks <==>
      k in t && k in page && k.sk == FamilyTag(familyId) && HasPrefix(k.pk, USER_PREFIX)
  {
    set k | k in t && k in page && k.sk == FamilyTag(familyId) && HasPrefix(k.pk, USER_PREFIX)
  }

  /** Scanned items in partition `FAMILY#familyId` with an `EVENT#` sort key. */
  function EventRows(t: Table, page: set<Key>, familyId: string): (ks: set<Key>)
    ensures forall k :: k in ks <==>
      k in t && k in page && k.pk == FamilyTag(familyId) && HasPrefix(k.sk, EVENT_PREFIX)
  {
    set k | k in t && k in page && k.pk == FamilyTag(familyId) && HasPrefix(k.sk, EVENT_PREFIX)
  }

  /** Scanned `PUSH#` items whose `familyId` is this family, whoever owns them. */
  function PushRows(t: Table, page: set<Key>, familyId: string): (ks: set<Key>)
    ensures forall k :: k in ks <==>
      k in t && k in page && t[k].familyId == Some(familyId) && HasPrefix(k.sk, PUSH_PREFIX)
  {
    set k | k in t && k in page && t[k].familyId == Some(familyId) && HasPrefix(k.sk, PUSH_PREFIX)
  }

  /** The `inviteHash` the family's META carries, if any. */
  function StoredInviteHash(t: Table, familyId: string): Option<string> {
    if FamilyMetaKey(familyId) in t then t[FamilyMetaKey(familyId)].inviteHash else None
  }

  /** The five deletion steps, in the handler's order. */
  function Cascade(t: Table, familyId: string, memberPage: set<Key>, eventPage: set<Key>, pushPage: set<Key>): Table {
    CascadeTail(CascadeHead(t, familyId), familyId, memberPage, eventPage, pushPage)
  }

  /** Steps 1 and 2: META and the invite mapping it names, by key. */
  function CascadeHead(t: Table, familyId: string): Table {
    var hash := StoredInviteHash(t, familyId);
    var t1 := t - {FamilyMetaKey(familyId)};
    if Truthy(hash) then t1 - {InviteKey(hash.value)} else t1
  }

  /** Steps 3 to 5: what the three scans find, in order. */
  function CascadeTail(t2: Table, familyId: string, memberPage: set<Key>, eventPage: set<Key>, pushPage: set<Key>): Table {
    var t3 := t2 - MemberRows(t2, memberPage, familyId);
    var t4 := t3 - EventRows(t3, eventPage, familyId);
    t4 - PushRows(t4, pushPage, familyId)
  }

  /**
   * What the handler does to `t`: 400 without a family id, 404 without a
   * membership, 403 unless the membership's role is `owner`; otherwise the
   * cascade.
   */
  function Delete(t: Table, claimSub: Option<string>, familyField: Option<string>,
                  memberPage: set<Key>, eventPage: set<Key>, pushPage: set<Key>): (r: Step)
    ensures !Truthy(claimSub) ==> r == Step(Threw(MISSING_SUB), t)
    ensures Truthy(claimSub) && Field(familyField) == "" ==> r == Step(Fail(400, "familyId is required"), t)
    ensures !r.out.Is(200) ==> r.table == t
    ensures r.out.Is(404) <==>
      Truthy(claimSub) && Field(familyField) != "" && MembershipKey(claimSub.value, Field(familyField)) !in t
    ensures r.out.Is(403) <==>
      Truthy(claimSub) && Field(familyField) != "" && MembershipKey(claimSub.value, Field(familyField)) in t &&
      t[MembershipKey(claimSub.value, Field(familyField))].role != Some("owner")
    ensures r.out.Is(200) <==>
      Truthy(claimSub) && Field(familyField) != "" && MembershipKey(claimSub.value, Field(familyField)) in t &&
      t[MembershipKey(claimSub.value, Field(familyField))].role == Some("owner")
    ensures r.out.Is(200) ==>
      r.out.response.body == Done("Family deleted successfully") &&
      r.table == Cascade(t, Field(familyField), memberPage, eventPage, pushPage)
  {
    var s := GetSub(claimSub);
    if s.Err? then Step(Threw(s.error), t)
    else
      var sub := s.value;
      var familyId := Field(familyField);
      if familyId == "" then Step(Fail(400, "familyId is required"), t)
      else
        var key := MembershipKey(sub, familyId);
        if key !in t then Step(Fail(404, "You are not a member of this family"), t)
        else if t[key].role != Some("owner") then Step(Fail(403, "Only the owner can delete the family"), t)
        else Step(Succeed(Done("Family deleted successfully")), Cascade(t, familyId, memberPage, eventPage, pushPage))
  }

  /**
   * A family whose META is already gone is still deleted: the cascade skips
   * the invite mapping, so every invite mapping in the table survives.
   */
  lemma CascadeWithoutMeta(t: Table, familyId: string, memberPage: set<Key>, eventPage: set<Key>, pushPage: set<Key>)
    requires FamilyMetaKey(familyId) !in t
    ensures Cascade(t, familyId, memberPage, eventPage, pushPage) == CascadeTail(t, familyId, memberPage, eventPage, pushPage)
    ensures forall h :: InviteKey(h) in t ==> InviteKey(h) in Cascade(t, familyId, memberPage, eventPage, pushPage)
  {
    assert CascadeHead(t, familyId) == t;
    forall h | InviteKey(h) in t
      ensures InviteKey(h) in Cascade(t, familyId, memberPage, eventPage, pushPage)
    {
      var k := InviteKey(h);
      assert k.pk[0] == 'I' && k.sk == META;
      assert FamilyTag(familyId)[0] == 'F' && USER_PREFIX[0] == 'U' && PUSH_PREFIX[0] == 'P';
    }
  }

  /** The cascade only deletes: every item left is an item that was there, unchanged. */
  lemma CascadeOnlyDeletes(t: Table, familyId: string, memberPage: set<Key>, eventPage: set<Key>, pushPage: set<Key>)
    ensures var r := Cascade(t, familyId, memberPage, eventPage, pushPage);
      forall k :: k in r ==> k in t && r[k] == t[k]
    ensures Schema(t) ==> Schema(Cascade(t, familyId, memberPage, eventPage, pushPage))
  {
    var r := Cascade(t, familyId, memberPage, eventPage, pushPage);
    if Schema(t) {
      assert r == t - (t.Keys - r.Keys);
      SchemaRemove(t, t.Keys - r.Keys);
    }
  }

  /**
   * META and the invite mapping it names are gone, and so is every
   * membership, event and family subscription the scanned pages covered.
   */
  lemma CascadeDeletes(t: Table, familyId: string, memberPage: set<Key>, eventPage: set<Key>, pushPage: set<Key>)
    ensures var r := Cascade(t, familyId, memberPage, eventPage, pushPage);
      FamilyMetaKey(familyId) !in r &&
      (Truthy(StoredInviteHash(t, familyId)) ==> InviteKey(StoredInviteHash(t, familyId).value) !in r)
    ensures var r := Cascade(t, familyId, memberPage, eventPage, pushPage);
      forall k :: k in r && k.sk == FamilyTag(familyId) && HasPrefix(k.pk, USER_PREFIX) ==> k !in memberPage
    ensures var r := Cascade(t, familyId, memberPage, eventPage, pushPage);
      forall k :: k in r && k.pk == FamilyTag(familyId) && HasPrefix(k.sk, EVENT_PREFIX) ==> k !in eventPage
    ensures var r := Cascade(t, familyId, memberPage, eventPage, pushPage);
      forall k :: k in r && r[k].familyId == Some(familyId) && HasPrefix(k.sk, PUSH_PREFIX) ==> k !in pushPage
  {
    CascadeOnlyDeletes(t, familyId, memberPage, eventPage, pushPage);
  }

  /** When each page covers the whole table, nothing of the family's memberships, events or subscriptions survives. */
  lemma CascadeCompleteOnFullPages(t: Table, familyId: string, memberPage: set<Key>, eventPage: set<Key>, pushPage: set<Key>)
    requires t.Keys <= memberPage && t.Keys <= eventPage && t.Keys <= pushPage
    ensures var r := Cascade(t, familyId, memberPage, eventPage, pushPage);
      forall k :: k in r ==>
        !(k.sk == FamilyTag(familyId) && HasPrefix(k.pk, USER_PREFIX)) &&
        !(k.pk == FamilyTag(familyId) && HasPrefix(k.sk, EVENT_PREFIX)) &&
        !(r[k].familyId == Some(familyId) && HasPrefix(k.sk, PUSH_PREFIX))
  {
    CascadeOnlyDeletes(t, familyId, memberPage, eventPage, pushPage);
    CascadeDeletes(t, familyId, memberPage, eventPage, pushPage);
  }

  /** Items of other families, and other items of users, are untouched. */
  lemma CascadeSparesOthers(t: Table, familyId: string, memberPage: set<Key>, eventPage: set<Key>, pushPage: set<Key>)
    ensures var r := Cascade(t, familyId, memberPage, eventPage, pushPage);
      forall k :: k in t && k !in r ==>
        k == FamilyMetaKey(familyId) ||
        (Truthy(StoredInviteHash(t, familyId)) && k == InviteKey(StoredInviteHash(t, familyId).value)) ||
        k.sk == FamilyTag(familyId) || k.pk == FamilyTag(familyId) || t[k].familyId == Some(familyId)
  {
  }

  // ---------------------------------------------------------------------------
  // The handler and its three scan loops
  // ---------------------------------------------------------------------------

  /** Step 3: scan `sk = FAMILY#familyId` and delete the items whose pk starts with `USER#`. */
  method DeleteMemberships(store: Store, page: set<Key>, familyId: string)
    modifies store
    ensures store.table == old(store.table) - MemberRows(old(store.table), page, familyId)
  {
    var items := store.table;
    var ks := store.Scan(page, (k: Key, it: Item) => k.sk == FamilyTag(familyId));
    var i := 0;
    while i < |ks|
      invariant 0 <= i <= |ks|
      invariant forall k :: k in store.table <==> k in items && !(k in ks[..i] && HasPrefix(k.pk, USER_PREFIX))
      invariant forall k :: k in store.table ==> store.table[k] == items[k]
    {
      if HasPrefix(ks[i].pk, USER_PREFIX) {
        store.Delete(ks[i]);
      }
      assert ks[..i + 1] == ks[..i] + [ks[i]];
      i := i + 1;
    }
    assert ks[..i] == ks;
    RemovedExactly(store.table, items, MemberRows(items, page, familyId));
  }

  /** Step 4: scan the family's `EVENT#` items and delete each. */
  method DeleteEvents(store: Store, page: set<Key>, familyId: string)
    modifies store
    ensures store.table == old(store.table) - EventRows(old(store.table), page, familyId)
  {
    var items := store.table;
    var ks := store.Scan(page, (k: Key, it: Item) => k.pk == FamilyTag(familyId) && HasPrefix(k.sk, EVENT_PREFIX));
    var i := 0;
    while i < |ks|
      invariant 0 <= i <= |ks|
      invariant forall k :: k in store.table <==> k in items && k !in ks[..i]
      invariant forall k :: k in store.table ==> store.table[k] == items[k]
    {
      store.Delete(ks[i]);
      assert ks[..i + 1] == ks[..i] + [ks[i]];
      i := i + 1;
    }
    assert ks[..i] == ks;
    RemovedExactly(store.table, items, EventRows(items, page, familyId));
  }

  /** Step 5: scan the `PUSH#` items with this `familyId` and delete each. */
  method DeletePushSubscriptions(store: Store, page: set<Key>, familyId: string)
    modifies store
    ensures store.table == old(store.table) - PushRows(old(store.table), page, familyId)
  {
    var items := store.table;
    var ks := store.Scan(page, (k: Key, it: Item) => it.familyId == Some(familyId) && HasPrefix(k.sk, PUSH_PREFIX));
    var i := 0;
    while i < |ks|
      invariant 0 <= i <= |ks|
      invariant forall k :: k in store.table <==> k in items && k !in ks[..i]
      invariant forall k :: k in store.table ==> store.table[k] == items[k]
    {
      store.Delete(ks[i]);
      assert ks[..i + 1] == ks[..i] + [ks[i]];
      i := i + 1;
    }
    assert ks[..i] == ks;
    RemovedExactly(store.table, items, PushRows(items, page, familyId));
  }

  method Handler(store: Store, claimSub: Option<string>, familyField: Option<string>,
                 memberPage: set<Key>, eventPage: set<Key>, pushPage: set<Key>) returns (out: Outcome)
    modifies store
    ensures Step(out, store.table) == Delete(old(store.table), claimSub, familyField, memberPage, eventPage, pushPage)
  {
    ghost var t0 := store.table;
    var s := GetSub(claimSub);
    if s.Err? {
      return Threw(s.error);
    }
    var sub := s.value;
    var familyId := Field(familyField);
    if familyId == "" {
      return Fail(400, "familyId is required");
    }
    var key := MembershipKey(sub, familyId);
    var memberships: seq<Key>;
    ghost var all: seq<Key>;
    memberships, all := store.Query(UserTag(sub), SkEquals(FamilyTag(familyId)), true, None);
    PointQuery(store.table, UserTag(sub), FamilyTag(familyId), all, memberships);
    if |memberships| == 0 {
      return Fail(404, "You are not a member of this family");
    }
    if store.table[memberships[0]].role != Some("owner") {
      return Fail(403, "Only the owner can delete the family");
    }
    assert Delete(t0, claimSub, familyField, memberPage, eventPage, pushPage)
      == Step(Succeed(Done("Family deleted successfully")), Cascade(t0, familyId, memberPage, eventPage, pushPage));
    RunCascade(store, familyId, memberPage, eventPage, pushPage);
    return Succeed(Done("Family deleted successfully"));
  }

  /** The five deletions of an owner's request, steps 1 to 5. */
  method RunCascade(store: Store, familyId: string, memberPage: set<Key>, eventPage: set<Key>, pushPage: set<Key>)
    modifies store
    ensures store.table == Cascade(old(store.table), familyId, memberPage, eventPage, pushPage)
  {
    ghost var t0 := store.table;
    var meta := store.Get(FamilyMetaKey(familyId));
    var inviteHash := if meta.Some? then meta.value.inviteHash else None;
    assert inviteHash == StoredInviteHash(t0, familyId);
    store.Delete(FamilyMetaKey(familyId));
    if Truthy(inviteHash) {
      store.Delete(InviteKey(inviteHash.value));
    }
    ghost var t2 := store.table;
    assert t2 == CascadeHead(t0, familyId);
    DeleteMemberships(store, memberPage, familyId);
    DeleteEvents(store, eventPage, familyId);
    DeletePushSubscriptions(store, pushPage, familyId);
    assert store.table == CascadeTail(t2, familyId, memberPage, eventPage, pushPage);
  }
}
