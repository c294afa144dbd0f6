/**
 * list-family-members.ts: the members of a family, read from GSI1
 * (`FAMILY#id`, sort keys starting `MEMBER#`), and whether the caller owns
 * the family. There is no catch block: a missing sub or a failed membership
 * check propagates as a thrown error.
 */
module ListFamilyMembers {
  import opened Wrappers
  import opened Text
  import opened Keys
  import opened Db
  import opened Shared
  import opened Authz

  function MemberOf(it: Item): MemberView {
    MemberView(it.userSub, it.role, it.joinedAt, it.displayName)
  }

  /** The response entries, one per index row, in index order. */
  function MemberViews(t: Table, ks: seq<Key>): (ms: seq<MemberView>)
    requires forall k :: k in ks ==> k in t
    ensures |ms| == |ks| && forall i :: 0 <= i < |ks| ==> ms[i] == MemberOf(t[ks[i]])
  {
    if ks == [] then [] else [MemberOf(t[ks[0]])] + MemberViews(t, ks[1..])
  }

  /** `members.find(m => m.sub === sub)?.role === "owner"`. */
  function IsOwnerIn(members: seq<MemberView>, sub: string): (owner: bool)
    ensures owner <==> exists i :: 0 <= i < |members| && members[i].sub == Some(sub) &&
                                  members[i].role == Some("owner") &&
                                  forall j :: 0 <= j < i ==> members[j].sub != Some(sub)
  {
    if members == [] then false
    else if members[0].sub == Some(sub) then
      members[0].role == Some("owner")
    else
      var owner := IsOwnerIn(members[1..], sub);
      if owner then
        var i :| 0 <= i < |members[1..]| && members[1..][i].sub == Some(sub) &&
                 members[1..][i].role == Some("owner") &&
                 forall j :: 0 <= j < i ==> members[1..][j].sub != Some(sub);
        assert members[i + 1] == members[1..][i];
        owner
      else owner
  }

  /**
   * The handler. It reads only: the ghost `ks` is the index rows the query
   * returned, every `MEMBER#` row of the family's GSI1 partition in sort-key
   * order. The body lists them, with `isOwner` only when there is at least one.
   */
  method Handler(store: Store, claimSub: Option<string>, familyParam: Option<string>)
    returns (out: Outcome, ghost ks: seq<Key>)
    ensures !Truthy(claimSub) ==> out == Threw(MISSING_SUB)
    ensures Truthy(claimSub) && !Truthy(familyParam) ==> out == Fail(400, "familyId is required")
    ensures Truthy(claimSub) && Truthy(familyParam) && MembershipKey(claimSub.value, familyParam.value) !in store.table
            ==> out == Threw(FORBIDDEN_NOT_MEMBER)
    ensures out.Is(200) <==>
      Truthy(claimSub) && Truthy(familyParam) && MembershipKey(claimSub.value, familyParam.value) in store.table
    ensures out.Is(200) ==>
      Enumerates(ks, GsiKeys(store.table, FamilyTag(familyParam.value), MEMBER_PREFIX)) &&
      (forall i, j :: 0 <= i < j < |ks| ==> LexLe(GsiSortKey(store.table[ks[i]]), GsiSortKey(store.table[ks[j]]))) &&
      out.response.body ==
        Members(if ks == [] then None else Some(IsOwnerIn(MemberViews(store.table, ks), claimSub.value)),
                MemberViews(store.table, ks))
  {
    var s := GetSub(claimSub);
    if s.Err? {
      return Threw(s.error), [];
    }
    var sub := s.value;
    if !Truthy(familyParam) {
      return Fail(400, "familyId is required"), [];
    }
    var familyId := familyParam.value;
    var member := AssertFamilyMember(store.table, sub, familyId);
    if member.Err? {
      return Threw(member.error), [];
    }
    var rows := store.QueryGsi(FamilyTag(familyId), MEMBER_PREFIX);
    if |rows| == 0 {
      return Succeed(Members(None, [])), rows;
    }
    var members := MemberViews(store.table, rows);
    var isOwner := IsOwnerIn(members, sub);
    return Succeed(Members(Some(isOwner), members)), rows;
  }

  /**
   * Under the schema the index query finds exactly the family's membership
   * items: push subscriptions mirrored into the same GSI1 partition and
   * other families' members are not listed.
   */
  lemma MembersAreMemberships(t: Table, familyId: string, k: Key)
    requires Schema(t)
    ensures k in GsiKeys(t, FamilyTag(familyId), MEMBER_PREFIX) <==>
            k in t && IsMembershipKey(k) && k.sk == FamilyTag(familyId)
  {
    if k in t && IsMembershipKey(k) && k.sk == FamilyTag(familyId) {
      PrefixOfConcat(MEMBER_PREFIX, k.pk[|USER_PREFIX|..]);
    }
  }

  /** Under the schema the caller's own index row is their membership item. */
  lemma OwnRowIsMembership(t: Table, familyId: string, sub: string, k: Key)
    requires Schema(t)
    requires k in GsiKeys(t, FamilyTag(familyId), MEMBER_PREFIX) && t[k].userSub == Some(sub)
    ensures k == MembershipKey(sub, familyId)
  {
    assert IsMembershipKey(k);
    assert k.pk == USER_PREFIX + k.pk[|USER_PREFIX|..];
    assert k.sk == FamilyTag(familyId);
  }

  /**
   * For a member, `isOwner` is exactly whether their own membership has the
   * `owner` role: under the schema the first row carrying their sub is that
   * membership.
   */
  lemma IsOwnerMeansOwnerRole(t: Table, familyId: string, sub: string, ks: seq<Key>)
    requires Schema(t)
    requires MembershipKey(sub, familyId) in t
    requires Enumerates(ks, GsiKeys(t, FamilyTag(familyId), MEMBER_PREFIX))
    ensures IsOwnerIn(MemberViews(t, ks), sub) <==> t[MembershipKey(sub, familyId)].role == Some("owner")
  {
    var mk := MembershipKey(sub, familyId);
    MembershipKeyParts(sub, familyId);
    MembersAreMemberships(t, familyId, mk);
    var i :| 0 <= i < |ks| && ks[i] == mk;
    var ms := MemberViews(t, ks);
    forall j | 0 <= j < |ms| && ms[j].sub == Some(sub)
      ensures j == i
    {
      OwnRowIsMembership(t, familyId, sub, ks[j]);
    }
    OwnerOfSoleRow(ms, sub, i);
  }

  /** When row `i` is the only one carrying `sub`, `isOwner` is that row's role. */
  lemma OwnerOfSoleRow(ms: seq<MemberView>, sub: string, i: nat)
    requires i < |ms| && ms[i].sub == Some(sub)
    requires forall j :: 0 <= j < |ms| && ms[j].sub == Some(sub) ==> j == i
    ensures IsOwnerIn(ms, sub) <==> ms[i].role == Some("owner")
  {
    if ms[i].role == Some("owner") {
      assert forall j :: 0 <= j < i ==> ms[j].sub != Some(sub);
    }
  }
}
