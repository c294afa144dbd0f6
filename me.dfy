/**
 * me.ts: the caller's identity claims and the families they belong to. An
 * absent or empty `sub` claim is not an error here: the family list is then
 * empty and the table is not read.
 */
module Me {
  import opened Wrappers
  import opened Keys
  import opened Db
  import opened Shared
  import opened ListFamilies

  /** The JWT claims the response echoes (`cognito:username` is `username`). */
  datatype Claims = Claims(sub: Option<string>, email: Option<string>, username: Option<string>,
                           iss: Option<string>, aud: Option<string>)

  /**
   * The handler. It always answers 200 with the claims as given; the ghost
   * `ks` is the caller's membership keys, empty without a sub.
   */
  method Handler(store: Store, claims: Claims) returns (out: Outcome, ghost ks: seq<Key>)
    ensures out.Is(200) && out.response.body.Identity?
    ensures var b := out.response.body;
      b.sub == claims.sub && b.email == claims.email && b.username == claims.username &&
      b.iss == claims.iss && b.aud == claims.aud
    ensures !Truthy(claims.sub) ==> ks == [] && out.response.body.families == []
    ensures Truthy(claims.sub) ==>
      Enumerates(ks, QueryKeys(store.table, UserTag(claims.sub.value), BeginsWith(FAMILY_PREFIX))) &&
      |out.response.body.families| == |ks|
    ensures Truthy(claims.sub) && Schema(store.table) ==>
      forall i :: 0 <= i < |ks| ==>
        out.response.body.families[i] ==
          FamilyEntry(store.table[ks[i]], KnownName(store.table, store.table[ks[i]].familyId))
  {
    var sub := claims.sub.GetOr("");
    var families: seq<FamilyView> := [];
    ks := [];
    if sub != "" {
      families, ks := FamiliesOf(store, sub);
    }
    return Succeed(Identity(claims.sub, claims.email, claims.username, claims.iss, claims.aud, families)), ks;
  }
}
