/**
 * update-profile.ts: saves the caller's display name in `USER#sub / PROFILE`
 * and copies it onto each of the caller's membership items.
 */
module UpdateProfile {
  import opened Wrappers
  import opened Text
  import opened Keys
  import opened Db
  import opened Shared

  /** The longest display name accepted, in JavaScript string length. */
  const MAX_DISPLAY_NAME: nat := 30

  function ProfileItem(sub: string, displayName: string, now: string): Item {
    NoAttributes.(entity := Some("USER_PROFILE"), userSub := Some(sub), displayName := Some(displayName),
                  updatedAt := Some(now))
  }

  /** `gsi || fallback` for an optional string attribute. */
  function OrElse(gsi: Option<string>, fallback: string): (r: Option<string>)
    ensures Truthy(gsi) ==> r == gsi
    ensures !Truthy(gsi) ==> r == Some(fallback)
  {
    if Truthy(gsi) then gsi else Some(fallback)
  }

  /**
   * The membership as it is put back: every attribute kept, the display name
   * set, and missing or empty GSI1 keys filled in as `FAMILY#id` / `MEMBER#sub`.
   */
  function Rewrite(it: Item, displayName: string, sub: string): (r: Item)
    requires it.familyId.Some?
    ensures r.displayName == Some(displayName)
    ensures r.gsi1pk == OrElse(it.gsi1pk, FamilyTag(it.familyId.value))
    ensures r.gsi1sk == OrElse(it.gsi1sk, MemberTag(sub))
    ensures r.(displayName := it.displayName, gsi1pk := it.gsi1pk, gsi1sk := it.gsi1sk) == it
  {
    it.(displayName := Some(displayName),
        gsi1pk := OrElse(it.gsi1pk, FamilyTag(it.familyId.value)),
        gsi1sk := OrElse(it.gsi1sk, MemberTag(sub)))
  }

  /** The items the loop rewrites: the caller's `FAMILY#` items that carry a family id. */
  predicate Rewritten(t: Table, sub: string, k: Key)
    requires k in t
  {
    k.pk == UserTag(sub) && HasPrefix(k.sk, FAMILY_PREFIX) && Truthy(t[k].familyId)
  }

  /** The table after the write-through loop. */
  function WriteThrough(t: Table, sub: string, displayName: string): (r: Table)
    ensures r.Keys == t.Keys
    ensures forall k :: k in t ==> r[k] == if Rewritten(t, sub, k) then Rewrite(t[k], displayName, sub) else t[k]
  {
    map k | k in t :: if Rewritten(t, sub, k) then Rewrite(t[k], displayName, sub) else t[k]
  }

  /**
   * What the handler does to `t`: 400 for a blank name or one longer than 30,
   * otherwise the PROFILE put followed by the write-through.
   */
  function Update(t: Table, claimSub: Option<string>, nameField: Option<string>, now: string): (r: Step)
    ensures !Truthy(claimSub) ==> r == Step(Threw(MISSING_SUB), t)
    ensures r.out.Is(400) <==> Truthy(claimSub) && (Field(nameField) == "" || Utf16Length(Field(nameField)) > MAX_DISPLAY_NAME)
    ensures !r.out.Is(200) ==> r.table == t
    ensures r.out.Is(200) <==> Truthy(claimSub) && Field(nameField) != "" && Utf16Length(Field(nameField)) <= MAX_DISPLAY_NAME
    ensures r.out.Is(200) ==>
      r.out.response.body == ProfileSaved(Field(nameField)) &&
      r.table == WriteThrough(t[ProfileKey(claimSub.value) := ProfileItem(claimSub.value, Field(nameField), now)],
                              claimSub.value, Field(nameField))
  {
    var s := GetSub(claimSub);
    if s.Err? then Step(Threw(s.error), t)
    else
      var sub := s.value;
      var displayName := Field(nameField);
      if displayName == "" then Step(Fail(400, "displayName is required"), t)
      else if Utf16Length(displayName) > MAX_DISPLAY_NAME then Step(Fail(400, "displayName must be 30 characters or less"), t)
      else
        var t1 := t[ProfileKey(sub) := ProfileItem(sub, displayName, now)];
        Step(Succeed(ProfileSaved(displayName)), WriteThrough(t1, sub, displayName))
  }

  /**
   * After a successful update the profile holds the name, every membership of
   * the caller that names its family carries it, and nothing of any other
   * user changed.
   */
  lemma UpdateEffect(t: Table, claimSub: Option<string>, nameField: Option<string>, now: string)
    requires Update(t, claimSub, nameField, now).out.Is(200)
    ensures var r := Update(t, claimSub, nameField, now);
      r.table.Keys == t.Keys + {ProfileKey(claimSub.value)} &&
      r.table[ProfileKey(claimSub.value)] == ProfileItem(claimSub.value, Field(nameField), now)
    ensures var r := Update(t, claimSub, nameField, now);
      forall k :: k in t && k.pk == UserTag(claimSub.value) && HasPrefix(k.sk, FAMILY_PREFIX) && Truthy(t[k].familyId) ==>
        r.table[k].displayName == Some(Field(nameField)) &&
        r.table[k].(displayName := t[k].displayName, gsi1pk := t[k].gsi1pk, gsi1sk := t[k].gsi1sk) == t[k]
    ensures var r := Update(t, claimSub, nameField, now);
      forall k :: k in t && k.pk != UserTag(claimSub.value) ==> r.table[k] == t[k]
  {
    var sub := claimSub.value;
    var t1 := t[ProfileKey(sub) := ProfileItem(sub, Field(nameField), now)];
    assert !Rewritten(t1, sub, ProfileKey(sub)) by {
      assert ProfileKey(sub).sk[0] == 'P';
    }
    forall k | k in t && k.pk == UserTag(sub) && HasPrefix(k.sk, FAMILY_PREFIX)
      ensures k != ProfileKey(sub)
    {
      assert k.sk[0] == 'F';
    }
  }

  /** The write-through keeps every membership well formed, and the profile is no membership. */
  lemma UpdateKeepsSchema(t: Table, claimSub: Option<string>, nameField: Option<string>, now: string)
    requires Schema(t)
    ensures Schema(Update(t, claimSub, nameField, now).table)
  {
    var r := Update(t, claimSub, nameField, now);
    if r.out.Is(200) {
      var sub, displayName := claimSub.value, Field(nameField);
      assert !IsMembershipKey(ProfileKey(sub)) by {
        assert ProfileKey(sub).sk[0] == 'P';
      }
      SchemaPut(t, ProfileKey(sub), ProfileItem(sub, displayName, now));
      WriteThroughKeepsSchema(t[ProfileKey(sub) := ProfileItem(sub, displayName, now)], sub, displayName);
    }
  }

  /** Rewriting the caller's memberships keeps the schema. */
  lemma WriteThroughKeepsSchema(t: Table, sub: string, displayName: string)
    requires Schema(t)
    ensures Schema(WriteThrough(t, sub, displayName))
  {
    var r := WriteThrough(t, sub, displayName);
    forall k | k in r && Rewritten(t, sub, k)
      ensures IsMembershipKey(k) ==> MembershipShaped(k, r[k])
      ensures IsMemberGsiRow(r[k]) ==> IsMembershipKey(k)
      ensures !IsFamilyMetaKey(k)
    {
      RewriteKeepsShape(t, sub, displayName, k);
    }
  }

  /** One rewritten membership still fits the schema at its key. */
  lemma RewriteKeepsShape(t: Table, sub: string, displayName: string, k: Key)
    requires Schema(t) && k in t && Rewritten(t, sub, k)
    ensures var it := Rewrite(t[k], displayName, sub);
      (IsMembershipKey(k) ==> MembershipShaped(k, it)) &&
      (IsMemberGsiRow(it) ==> IsMembershipKey(k)) &&
      !IsFamilyMetaKey(k)
  {
    assert HasPrefix(k.pk, USER_PREFIX) by {
      PrefixOfConcat(USER_PREFIX, sub);
    }
    assert !IsFamilyMetaKey(k) by {
      assert k.pk[0] == 'U';
    }
  }

  /** The handler: the PROFILE put, the membership query, then one put per membership that names its family. */
  method Handler(store: Store, claimSub: Option<string>, nameField: Option<string>, now: string) returns (out: Outcome)
    modifies store
    ensures Step(out, store.table) == Update(old(store.table), claimSub, nameField, now)
  {
    var s := GetSub(claimSub);
    if s.Err? {
      return Threw(s.error);
    }
    var sub := s.value;
    var displayName := Field(nameField);
    if displayName == "" {
      return Fail(400, "displayName is required");
    }
    if Utf16Length(displayName) > MAX_DISPLAY_NAME {
      return Fail(400, "displayName must be 30 characters or less");
    }
    store.Put(ProfileKey(sub), ProfileItem(sub, displayName, now));
    WriteThroughMemberships(store, sub, displayName);
    return Succeed(ProfileSaved(displayName));
  }

  /** The loop over the caller's `FAMILY#` items. */
  method WriteThroughMemberships(store: Store, sub: string, displayName: string)
    modifies store
    ensures store.table == WriteThrough(old(store.table), sub, displayName)
  {
    var ks: seq<Key>;
    ghost var all: seq<Key>;
    ks, all := store.Query(UserTag(sub), BeginsWith(FAMILY_PREFIX), true, None);
    var items := store.table;
    assert forall k :: k in items ==> (k in ks <==> k.pk == UserTag(sub) && HasPrefix(k.sk, FAMILY_PREFIX));
    RewriteEach(store, ks, sub, displayName);
    RewriteListedIsWriteThrough(items, ks, sub, displayName);
  }

  /** The loop body, once per listed key: the item read back and put again, rewritten, when it names its family. */
  method RewriteEach(store: Store, ks: seq<Key>, sub: string, displayName: string)
    requires forall k :: k in ks ==> k in store.table
    modifies store
    ensures store.table == RewriteListed(old(store.table), ks, sub, displayName)
  {
    var items := store.table;
    ghost var done: seq<Key> := [];
    assert RewriteListed(items, done, sub, displayName) == items;
    var i := 0;
    while i < |ks|
      invariant 0 <= i <= |ks| && done == ks[..i]
      invariant store.table == RewriteListed(items, done, sub, displayName)
    {
      var membership := items[ks[i]];
      RewriteListedSnoc(items, done, ks[i], sub, displayName);
      if Truthy(membership.familyId) {
        store.Put(ks[i], Rewrite(membership, displayName, sub));
      }
      done := done + [ks[i]];
      i := i + 1;
    }
    assert done == ks;
  }

  /** Listing exactly the caller's `FAMILY#` keys rewrites what the write-through rewrites. */
  lemma RewriteListedIsWriteThrough(t: Table, ks: seq<Key>, sub: string, displayName: string)
    requires forall k :: k in t ==> (k in ks <==> k.pk == UserTag(sub) && HasPrefix(k.sk, FAMILY_PREFIX))
    ensures RewriteListed(t, ks, sub, displayName) == WriteThrough(t, sub, displayName)
  {
  }

  /** `t` with the listed items that name their family rewritten. */
  function RewriteListed(t: Table, listed: seq<Key>, sub: string, displayName: string): (r: Table)
    ensures r.Keys == t.Keys
  {
    map k | k in t :: if k in listed && Truthy(t[k].familyId) then Rewrite(t[k], displayName, sub) else t[k]
  }

  /** Listing one more key rewrites that item alone, when it names its family. */
  lemma RewriteListedSnoc(t: Table, listed: seq<Key>, x: Key, sub: string, displayName: string)
    requires x in t
    ensures RewriteListed(t, listed + [x], sub, displayName) ==
      if Truthy(t[x].familyId) then RewriteListed(t, listed, sub, displayName)[x := Rewrite(t[x], displayName, sub)]
      else RewriteListed(t, listed, sub, displayName)
  {
  }
}
