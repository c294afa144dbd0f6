/** `assertFamilyMember`: the membership check in front of every family-scoped handler. */
module Authz {
  import opened Wrappers
  import opened Db
  import opened Shared

  const FORBIDDEN_NOT_MEMBER: Error := Error("FORBIDDEN_NOT_MEMBER", Some("FORBIDDEN"))

  /** Reads `USER#sub / FAMILY#familyId`; succeeds when an item is there, throws FORBIDDEN otherwise. */
  function AssertFamilyMember(t: Table, sub: string, familyId: string): (r: Result<(), Error>)
    ensures r.Ok? <==> MembershipKey(sub, familyId) in t
    ensures r.Err? ==> r.error == FORBIDDEN_NOT_MEMBER && r.error.code == Some("FORBIDDEN")
  {
    if MembershipKey(sub, familyId) in t then Ok(()) else Err(FORBIDDEN_NOT_MEMBER)
  }

  /** Only the caller's own membership key matters: two tables that agree on it give the same answer. */
  lemma OnlyOwnMembershipMatters(t1: Table, t2: Table, sub: string, familyId: string)
    requires MembershipKey(sub, familyId) in t1 <==> MembershipKey(sub, familyId) in t2
    ensures AssertFamilyMember(t1, sub, familyId) == AssertFamilyMember(t2, sub, familyId)
  {
  }

  /** Any item at the membership key admits the caller, whatever its role. */
  lemma AnyRoleAdmits(t: Table, sub: string, familyId: string, it: Item)
    ensures AssertFamilyMember(t[MembershipKey(sub, familyId) := it], sub, familyId).Ok?
  {
  }
}
