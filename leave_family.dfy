/**
 * leave-family.ts: a non-owner leaves a family; the membership goes, and so
 * do the caller's push subscriptions registered for that family.
 */
module LeaveFamily {
  import opened Wrappers
  import opened Text
  import opened Keys
  import opened Db
  import opened Shared

  const OWNER_CANNOT_LEAVE := "Owner cannot leave. Delete the family or transfer ownership first."

  /** The caller's `PUSH#` items whose `familyId` is the family being left. */
  function FamilyPushes(t: Table, sub: string, familyId: string): (ks: set<Key>)
    ensures forall k :: k in ks <==>
      k in t && k.pk == UserTag(sub) && HasPrefix(k.sk, PUSH_PREFIX) && t[k].familyId == Some(familyId)
  {
    set k | k in t && k.pk == UserTag(sub) && HasPrefix(k.sk, PUSH_PREFIX) && t[k].familyId == Some(familyId)
  }

  /**
   * What the handler does to `t`: 400 without a family id, 404 without a
   * membership, 400 for the owner; otherwise the membership is deleted and
   * then every push subscription of the caller for that family.
   */
  function Leave(t: Table, claimSub: Option<string>, familyField: Option<string>): (r: Step)
    ensures !Truthy(claimSub) ==> r == Step(Threw(MISSING_SUB), t)
    ensures Truthy(claimSub) && Field(familyField) == "" ==> r == Step(Fail(400, "familyId is required"), t)
    ensures !r.out.Is(200) ==> r.table == t
    ensures r.out.Is(404) <==>
      Truthy(claimSub) && Field(familyField) != "" && MembershipKey(claimSub.value, Field(familyField)) !in t
    ensures Truthy(claimSub) && Field(familyField) != "" &&
            MembershipKey(claimSub.value, Field(familyField)) in t &&
            t[MembershipKey(claimSub.value, Field(familyField))].role == Some("owner")
        ==> r == Step(Fail(400, OWNER_CANNOT_LEAVE), t)
    ensures r.out.Is(200) <==>
      Truthy(claimSub) && Field(familyField) != "" && MembershipKey(claimSub.value, Field(familyField)) in t &&
      t[MembershipKey(claimSub.value, Field(familyField))].role != Some("owner")
    ensures r.out.Is(200) ==> r.table == Left(t, claimSub.value, Field(familyField))
  {
    var s := GetSub(claimSub);
    if s.Err? then Step(Threw(s.error), t)
    else
      var sub := s.value;
      var familyId := Field(familyField);
      if familyId == "" then Step(Fail(400, "familyId is required"), t)
      else
        var key := MembershipKey(sub, familyId);
        if key !in t then Step(Fail(404, "You are not a member of this family"), t)
        else if t[key].role == Some("owner") then Step(Fail(400, OWNER_CANNOT_LEAVE), t)
        else Step(Succeed(Done("Left the family successfully")), Left(t, sub, familyId))
  }

  /** Leaving deletes only the caller's own items, and keeps their subscriptions for other families. */
  lemma LeaveTouchesOnlyCaller(t: Table, claimSub: Option<string>, familyField: Option<string>)
    requires Leave(t, claimSub, familyField).out.Is(200)
    ensures var r := Leave(t, claimSub, familyField);
      forall k :: k in t && k !in r.table ==> k.pk == UserTag(claimSub.value)
    ensures var r := Leave(t, claimSub, familyField);
      forall k :: k in r.table ==> k in t && r.table[k] == t[k]
    ensures var r := Leave(t, claimSub, familyField);
      MembershipKey(claimSub.value, Field(familyField)) !in r.table
    ensures var r := Leave(t, claimSub, familyField);
      forall k :: k in t && HasPrefix(k.sk, PUSH_PREFIX) && t[k].familyId != Some(Field(familyField)) ==> k in r.table
  {
    AfterLeaving(t, claimSub.value, Field(familyField));
  }

  /** The table once the membership and the family's subscriptions of the caller are gone. */
  function Left(t: Table, sub: string, familyId: string): Table {
    var t1 := t - {MembershipKey(sub, familyId)};
    t1 - FamilyPushes(t1, sub, familyId)
  }

  lemma AfterLeaving(t: Table, sub: string, familyId: string)
    ensures forall k :: k in t && k !in Left(t, sub, familyId) ==> k.pk == UserTag(sub)
    ensures forall k :: k in Left(t, sub, familyId) ==> k in t && Left(t, sub, familyId)[k] == t[k]
    ensures MembershipKey(sub, familyId) !in Left(t, sub, familyId)
    ensures forall k :: k in t && HasPrefix(k.sk, PUSH_PREFIX) && t[k].familyId != Some(familyId) ==> k in Left(t, sub, familyId)
  {
    assert HasPrefix(MembershipKey(sub, familyId).sk, FAMILY_PREFIX);
    forall k | k in t && HasPrefix(k.sk, PUSH_PREFIX)
      ensures k != MembershipKey(sub, familyId)
    {
      assert k.sk[0] == 'P';
    }
  }

  /** The second half of the handler: query the caller's `PUSH#` items and delete those for `familyId`. */
  method PrunePushes(store: Store, sub: string, familyId: string)
    modifies store
    ensures store.table == old(store.table) - FamilyPushes(old(store.table), sub, familyId)
  {
    var pushes: seq<Key>;
    ghost var all: seq<Key>;
    pushes, all := store.Query(UserTag(sub), BeginsWith(PUSH_PREFIX), true, None);
    ghost var items := store.table;
    DeleteOfFamily(store, pushes, familyId);
    assert forall k :: k in items ==> (k in pushes <==> k.pk == UserTag(sub) && HasPrefix(k.sk, PUSH_PREFIX));
    RemovedExactly(store.table, items, FamilyPushes(items, sub, familyId));
  }

  /** The loop: each listed item whose `familyId` is the family is deleted. */
  method DeleteOfFamily(store: Store, ks: seq<Key>, familyId: string)
    requires forall k :: k in ks ==> k in store.table
    modifies store
    ensures forall k :: k in store.table <==> k in old(store.table) && !(k in ks && old(store.table)[k].familyId == Some(familyId))
    ensures forall k :: k in store.table ==> store.table[k] == old(store.table)[k]
  {
    var items := store.table;
    var i := 0;
    while i < |ks|
      invariant 0 <= i <= |ks|
      invariant forall k :: k in store.table <==> k in items && !(k in ks[..i] && items[k].familyId == Some(familyId))
      invariant forall k :: k in store.table ==> store.table[k] == items[k]
    {
      var k := ks[i];
      if items[k].familyId == Some(familyId) {
        store.Delete(k);
      }
      assert ks[..i + 1] == ks[..i] + [k];
      i := i + 1;
    }
    assert ks[..i] == ks;
  }

  /** The handler: the membership query, the delete, then the loop over the caller's `PUSH#` items. */
  method Handler(store: Store, claimSub: Option<string>, familyField: Option<string>) returns (out: Outcome)
    modifies store
    ensures Step(out, store.table) == Leave(old(store.table), claimSub, familyField)
  {
    var s := GetSub(claimSub);
    if s.Err? {
      return Threw(s.error);
    }
    var sub := s.value;
    var familyId := Field(familyField);
    if familyId == "" {
      return Fail(400, "familyId is required");
    }
    var key := MembershipKey(sub, familyId);
    var memberships: seq<Key>;
    ghost var all: seq<Key>;
    memberships, all := store.Query(UserTag(sub), SkEquals(FamilyTag(familyId)), true, None);
    PointQuery(store.table, UserTag(sub), FamilyTag(familyId), all, memberships);
    if |memberships| == 0 {
      return Fail(404, "You are not a member of this family");
    }
    var membership := store.table[memberships[0]];
    if membership.role == Some("owner") {
      return Fail(400, OWNER_CANNOT_LEAVE);
    }
    store.Delete(key);
    PrunePushes(store, sub, familyId);
    return Succeed(Done("Left the family successfully"));
  }
}
