/**
 * push-subscribe.ts: stores the caller's Web Push subscription for one family
 * under `USER#sub / PUSH#<first 32 hex digits of sha256(endpoint)>`, mirrored
 * into GSI1 under the family. SHA-256 and the clock are inputs.
 */
module PushSubscribe {
  import opened Wrappers
  import opened Text
  import opened Keys
  import opened Db
  import opened Shared
  import opened Authz

  /** The `subscription` object of the request body, as the browser's PushSubscription serialises it. */
  datatype Subscription = Subscription(endpoint: Option<string>, keys: Option<PushKeys>)

  /** An endpoint, a `p256dh` key and an `auth` secret, each a non-empty string. */
  predicate Usable(subscription: Option<Subscription>) {
    subscription.Some? && Truthy(subscription.value.endpoint) &&
    subscription.value.keys.Some? &&
    Truthy(subscription.value.keys.value.p256dh) && Truthy(subscription.value.keys.value.auth)
  }

  /** The sort-key suffix of a subscription: the first 32 characters of the hex SHA-256 of its endpoint. */
  function EndpointHash(sha256: string -> string, endpoint: string): (h: string)
    ensures h <= sha256(endpoint) && |h| <= 32
    ensures |sha256(endpoint)| >= 32 ==> |h| == 32
  {
    Prefix(sha256(endpoint), 32)
  }

  function PushItem(sub: string, familyId: string, hash: string, endpoint: string, keys: PushKeys,
                    userAgent: Option<string>, now: string): Item {
    NoAttributes.(entity := Some("PUSH_SUB"), userSub := Some(sub), familyId := Some(familyId),
                  endpoint := Some(endpoint), keys := Some(keys), userAgent := userAgent, createdAt := Some(now),
                  gsi1pk := Some(FamilyTag(familyId)), gsi1sk := Some(PushGsiTag(sub, hash)))
  }

  /**
   * What the handler does to `t`: 400 without a family id or a usable
   * subscription, 403 for a caller who is not a member, otherwise one
   * unconditional put that creates or replaces the record of this endpoint.
   */
  function Subscribe(t: Table, claimSub: Option<string>, familyField: Option<string>,
                     subscription: Option<Subscription>, userAgent: Option<string>,
                     sha256: string -> string, now: string): (r: Step)
    ensures !Truthy(claimSub) ==> r == Step(Fail(500, MISSING_SUB.message), t)
    ensures !r.out.Is(200) ==> r.table == t
    ensures r.out.Is(400) <==> Truthy(claimSub) && (Field(familyField) == "" || !Usable(subscription))
    ensures r.out.Is(403) <==>
      Truthy(claimSub) && Field(familyField) != "" && Usable(subscription) &&
      MembershipKey(claimSub.value, Field(familyField)) !in t
    ensures r.out.Is(200) <==>
      Truthy(claimSub) && Field(familyField) != "" && Usable(subscription) &&
      MembershipKey(claimSub.value, Field(familyField)) in t
    ensures r.out.Is(200) ==>
      var endpoint := subscription.value.endpoint.value;
      r.out.response.body == Success &&
      r.table == t[PushKey(claimSub.value, EndpointHash(sha256, endpoint)) :=
                   PushItem(claimSub.value, Field(familyField), EndpointHash(sha256, endpoint), endpoint,
                            subscription.value.keys.value, userAgent, now)]
  {
    var s := GetSub(claimSub);
    if s.Err? then Step(Caught(s.error), t)
    else
      var sub := s.value;
      var familyId := Field(familyField);
      if familyId == "" then Step(Fail(400, "familyId is required"), t)
      else if !Usable(subscription) then Step(Fail(400, "subscription is invalid"), t)
      else
        var member := AssertFamilyMember(t, sub, familyId);
        if member.Err? then Step(Caught(member.error), t)
        else
          var endpoint := subscription.value.endpoint.value;
          var hash := EndpointHash(sha256, endpoint);
          var item := PushItem(sub, familyId, hash, endpoint, subscription.value.keys.value, userAgent, now);
          Step(Succeed(Success), t[PushKey(sub, hash) := item])
  }

  /**
   * A stored subscription is where the other handlers look for it: among the
   * caller's `PUSH#` items with the family's id (leave-family, send-push-to-user),
   * in the family's GSI1 partition under `USER#sub#PUSH#`, and never among
   * the `MEMBER#` rows the member list reads.
   */
  lemma SubscriptionIsFound(t: Table, claimSub: Option<string>, familyField: Option<string>,
                            subscription: Option<Subscription>, userAgent: Option<string>,
                            sha256: string -> string, now: string)
    requires Subscribe(t, claimSub, familyField, subscription, userAgent, sha256, now).out.Is(200)
    ensures var r := Subscribe(t, claimSub, familyField, subscription, userAgent, sha256, now);
      var key := PushKey(claimSub.value, EndpointHash(sha256, subscription.value.endpoint.value));
      key in QueryKeys(r.table, UserTag(claimSub.value), BeginsWith(PUSH_PREFIX)) &&
      r.table[key].familyId == Some(Field(familyField)) &&
      key in GsiKeys(r.table, FamilyTag(Field(familyField)), UserTag(claimSub.value) + "#" + PUSH_PREFIX) &&
      !IsMemberGsiRow(r.table[key])
  {
    var endpoint := subscription.value.endpoint.value;
    var hash := EndpointHash(sha256, endpoint);
    StoredPushIsFound(t, claimSub.value, Field(familyField), hash,
                      PushItem(claimSub.value, Field(familyField), hash, endpoint, subscription.value.keys.value, userAgent, now));
  }

  /** The same, for one subscription record put at its key. */
  lemma StoredPushIsFound(t: Table, sub: string, familyId: string, hash: string, item: Item)
    requires item.familyId == Some(familyId) && item.gsi1pk == Some(FamilyTag(familyId)) &&
             item.gsi1sk == Some(PushGsiTag(sub, hash))
    ensures var r := t[PushKey(sub, hash) := item];
      PushKey(sub, hash) in QueryKeys(r, UserTag(sub), BeginsWith(PUSH_PREFIX)) &&
      PushKey(sub, hash) in GsiKeys(r, FamilyTag(familyId), UserTag(sub) + "#" + PUSH_PREFIX) &&
      !IsMemberGsiRow(item)
  {
    PrefixOfConcat(PUSH_PREFIX, hash);
    PrefixOfConcat(UserTag(sub) + "#" + PUSH_PREFIX, hash);
    assert PushGsiTag(sub, hash) == (UserTag(sub) + "#" + PUSH_PREFIX) + hash;
    assert PushGsiTag(sub, hash)[0] == 'U' && MEMBER_PREFIX[0] == 'M';
  }

  /**
   * Subscribing the same endpoint again, for the same family or another one,
   * replaces the record instead of adding one: a browser endpoint holds at
   * most one subscription per user, for the family subscribed last.
   */
  lemma ResubscribeReplaces(t: Table, claimSub: Option<string>, family1: Option<string>, family2: Option<string>,
                            subscription: Option<Subscription>, userAgent: Option<string>,
                            sha256: string -> string, now1: string, now2: string)
    requires Subscribe(t, claimSub, family1, subscription, userAgent, sha256, now1).out.Is(200)
    requires var t1 := Subscribe(t, claimSub, family1, subscription, userAgent, sha256, now1).table;
      Subscribe(t1, claimSub, family2, subscription, userAgent, sha256, now2).out.Is(200)
    ensures var t1 := Subscribe(t, claimSub, family1, subscription, userAgent, sha256, now1).table;
      var t2 := Subscribe(t1, claimSub, family2, subscription, userAgent, sha256, now2).table;
      var key := PushKey(claimSub.value, EndpointHash(sha256, subscription.value.endpoint.value));
      t2.Keys == t1.Keys && t2[key].familyId == Some(Field(family2)) &&
      forall k :: k in t1 && k != key ==> t2[k] == t1[k]
  {
  }

  /** A subscription record is neither a membership nor a META item, so storing one keeps the schema. */
  lemma SubscribeKeepsSchema(t: Table, claimSub: Option<string>, familyField: Option<string>,
                             subscription: Option<Subscription>, userAgent: Option<string>,
                             sha256: string -> string, now: string)
    requires Schema(t)
    ensures Schema(Subscribe(t, claimSub, familyField, subscription, userAgent, sha256, now).table)
  {
    var r := Subscribe(t, claimSub, familyField, subscription, userAgent, sha256, now);
    if r.out.Is(200) {
      var sub, endpoint := claimSub.value, subscription.value.endpoint.value;
      var hash := EndpointHash(sha256, endpoint);
      var item := PushItem(sub, Field(familyField), hash, endpoint, subscription.value.keys.value, userAgent, now);
      assert PushKey(sub, hash).sk[0] == 'P' && FAMILY_PREFIX[0] == 'F' && META[0] == 'M';
      assert PushGsiTag(sub, hash)[0] == 'U' && MEMBER_PREFIX[0] == 'M';
      SchemaPut(t, PushKey(sub, hash), item);
    }
  }

  /** The handler: validation, the membership check, then the put. */
  method Handler(store: Store, claimSub: Option<string>, familyField: Option<string>,
                 subscription: Option<Subscription>, userAgent: Option<string>,
                 sha256: string -> string, now: string) returns (out: Outcome)
    modifies store
    ensures Step(out, store.table) ==
            Subscribe(old(store.table), claimSub, familyField, subscription, userAgent, sha256, now)
  {
    var s := GetSub(claimSub);
    if s.Err? {
      return Caught(s.error);
    }
    var sub := s.value;
    var familyId := Field(familyField);
    if familyId == "" {
      return Fail(400, "familyId is required");
    }
    if !Usable(subscription) {
      return Fail(400, "subscription is invalid");
    }
    var member := AssertFamilyMember(store.table, sub, familyId);
    if member.Err? {
      return Caught(member.error);
    }
    var endpoint := subscription.value.endpoint.value;
    var hash := EndpointHash(sha256, endpoint);
    store.Put(PushKey(sub, hash), PushItem(sub, familyId, hash, endpoint, subscription.value.keys.value, userAgent, now));
    return Succeed(Success);
  }
}
