/**
 * send-push-to-user.ts: a family's owner sends a reminder to every push
 * subscription of another member. Delivery is an input function; a
 * subscription the push service reports gone (404/410) is deleted.
 * There is no catch block: a missing sub or a failed membership check
 * propagates as a thrown error.
 */
module SendPushToUser {
  import opened Wrappers
  import opened Text
  import opened Keys
  import opened Db
  import opened Shared
  import opened Authz
  import opened WebPush

  const DEFAULT_MESSAGE := "手洗いしなさい！"
  const NOT_OWNER := "Only owner can send notifications"
  const NO_SUBSCRIPTIONS := "No push subscriptions found for target user"

  function Reminder(message: string): Notification {
    Notification("🧼 手洗いリマインド", message, "/wash/")
  }

  /** The target's `PUSH#` items: all of them, whichever family each was registered for. */
  function TargetPushes(t: Table, target: string): set<Key> {
    QueryKeys(t, UserTag(target), BeginsWith(PUSH_PREFIX))
  }

  /** The subscriptions among `ks` the notification reaches. */
  function ReachedAmong(t: Table, ks: set<Key>, n: Notification, deliver: (Item, Notification) -> Delivery): (r: set<Key>)
    ensures forall k :: k in r <==> k in ks && k in t && deliver(t[k], n).Delivered?
  {
    set k | k in ks && k in t && deliver(t[k], n).Delivered?
  }

  /** The subscriptions among `ks` the push service reports gone. */
  function GoneAmong(t: Table, ks: set<Key>, n: Notification, deliver: (Item, Notification) -> Delivery): (r: set<Key>)
    ensures forall k :: k in r <==> k in ks && k in t && Gone(deliver(t[k], n))
  {
    set k | k in ks && k in t && Gone(deliver(t[k], n))
  }

  /**
   * The sending part, once both memberships are checked: with no
   * subscription the answer says so; otherwise one send per subscription,
   * the count of deliveries and of failures, and the gone subscriptions
   * deleted. Deliveries and failures add up to the number of subscriptions.
   */
  function Dispatch(t: Table, target: string, message: string, deliver: (Item, Notification) -> Delivery): (r: Step)
    ensures r.out.Is(200) && r.out.response.body.PushSent?
    ensures TargetPushes(t, target) == {} ==> r == Step(Succeed(PushSent(0, None, Some(NO_SUBSCRIPTIONS))), t)
    ensures TargetPushes(t, target) != {} ==>
      var pushes := TargetPushes(t, target);
      var body := r.out.response.body;
      body.failed.Some? && body.notice.None? &&
      body.sent + body.failed.value == |pushes| &&
      body.sent == |ReachedAmong(t, pushes, Reminder(message), deliver)| &&
      r.table == t - GoneAmong(t, pushes, Reminder(message), deliver)
    ensures forall k :: k in t && k !in r.table ==> k in TargetPushes(t, target)
    ensures forall k :: k in r.table ==> k in t && r.table[k] == t[k]
  {
    var pushes := TargetPushes(t, target);
    if pushes == {} then Step(Succeed(PushSent(0, None, Some(NO_SUBSCRIPTIONS))), t)
    else
      var n := Reminder(message);
      var reached := ReachedAmong(t, pushes, n, deliver);
      SubsetCard(reached, pushes);
      Step(Succeed(PushSent(|reached|, Some(|pushes| - |reached|), None)), t - GoneAmong(t, pushes, n, deliver))
  }

  /**
   * What the handler does to `t`: 400 without a family id or target, 403
   * when the sender is a member but not the owner, a thrown error when the
   * sender or the target is not a member, otherwise the dispatch.
   */
  function Send(t: Table, claimSub: Option<string>, familyField: Option<string>, targetField: Option<string>,
                messageField: Option<string>, deliver: (Item, Notification) -> Delivery): (r: Step)
    ensures !Truthy(claimSub) ==> r == Step(Threw(MISSING_SUB), t)
    ensures r.out.Is(400) <==> Truthy(claimSub) && (Field(familyField) == "" || Field(targetField) == "")
  {
    var s := GetSub(claimSub);
    if s.Err? then Step(Threw(s.error), t)
    else
      var sub := s.value;
      var familyId, target := Field(familyField), Field(targetField);
      if familyId == "" then Step(Fail(400, "familyId is required"), t)
      else if target == "" then Step(Fail(400, "targetSub is required"), t)
      else
        var sender := AssertFamilyMember(t, sub, familyId);
        if sender.Err? then Step(Threw(sender.error), t)
        else if t[MembershipKey(sub, familyId)].role != Some("owner") then Step(Fail(403, NOT_OWNER), t)
        else
          var receiver := AssertFamilyMember(t, target, familyId);
          if receiver.Err? then Step(Threw(receiver.error), t)
          else Dispatch(t, target, Trim(messageField.GetOr(DEFAULT_MESSAGE)), deliver)
  }

  /**
   * Only the family's owner gets past the checks, and only towards another
   * member of the same family; every refusal leaves the table as it was.
   */
  lemma OnlyOwnerSends(t: Table, claimSub: Option<string>, familyField: Option<string>, targetField: Option<string>,
                       messageField: Option<string>, deliver: (Item, Notification) -> Delivery)
    ensures var r := Send(t, claimSub, familyField, targetField, messageField, deliver);
      r.out.Is(403) <==>
        Truthy(claimSub) && Field(familyField) != "" && Field(targetField) != "" &&
        MembershipKey(claimSub.value, Field(familyField)) in t &&
        t[MembershipKey(claimSub.value, Field(familyField))].role != Some("owner")
    ensures var r := Send(t, claimSub, familyField, targetField, messageField, deliver);
      r.out.Is(200) <==>
        Truthy(claimSub) && Field(familyField) != "" && Field(targetField) != "" &&
        MembershipKey(claimSub.value, Field(familyField)) in t &&
        t[MembershipKey(claimSub.value, Field(familyField))].role == Some("owner") &&
        MembershipKey(Field(targetField), Field(familyField)) in t
    ensures var r := Send(t, claimSub, familyField, targetField, messageField, deliver);
      !r.out.Is(200) ==> r.table == t
  {
  }

  /**
   * A send changes nothing but the target's gone `PUSH#` items, and those
   * it deletes whichever family they were registered for.
   */
  lemma SendDeletesOnlyTargetPushes(t: Table, claimSub: Option<string>, familyField: Option<string>, targetField: Option<string>,
                                    messageField: Option<string>, deliver: (Item, Notification) -> Delivery)
    ensures var r := Send(t, claimSub, familyField, targetField, messageField, deliver);
      forall k :: k in t && k !in r.table ==> k.pk == UserTag(Field(targetField)) && HasPrefix(k.sk, PUSH_PREFIX)
    ensures var r := Send(t, claimSub, familyField, targetField, messageField, deliver);
      forall k :: k in r.table ==> k in t && r.table[k] == t[k]
  {
    SendIsDispatchOrNothing(t, claimSub, familyField, targetField, messageField, deliver);
  }

  /** Every path of the handler but the dispatch leaves the table as it was. */
  lemma SendIsDispatchOrNothing(t: Table, claimSub: Option<string>, familyField: Option<string>, targetField: Option<string>,
                                messageField: Option<string>, deliver: (Item, Notification) -> Delivery)
    ensures var r := Send(t, claimSub, familyField, targetField, messageField, deliver);
      r.table == t || r == Dispatch(t, Field(targetField), Trim(messageField.GetOr(DEFAULT_MESSAGE)), deliver)
  {
    var familyId, target := Field(familyField), Field(targetField);
    var r := Send(t, claimSub, familyField, targetField, messageField, deliver);
    if !Truthy(claimSub) || familyId == "" || target == "" {
      assert r.table == t;
    } else if MembershipKey(claimSub.value, familyId) !in t {
      assert AssertFamilyMember(t, claimSub.value, familyId).Err?;
    } else if t[MembershipKey(claimSub.value, familyId)].role != Some("owner") {
      assert r.table == t;
    } else if MembershipKey(target, familyId) !in t {
      assert AssertFamilyMember(t, target, familyId).Err?;
    } else {
      assert AssertFamilyMember(t, claimSub.value, familyId).Ok? && AssertFamilyMember(t, target, familyId).Ok?;
    }
  }

  lemma SubsetCard(a: set<Key>, b: set<Key>)
    requires a <= b
    ensures |a| <= |b|
  {
    assert b == a + (b - a);
  }

  /** A gone subscription is never counted as delivered, so everything deleted was counted as a failure. */
  lemma GoneAreFailures(t: Table, ks: set<Key>, n: Notification, deliver: (Item, Notification) -> Delivery)
    ensures ReachedAmong(t, ks, n, deliver) * GoneAmong(t, ks, n, deliver) == {}
  {
  }

  /**
   * The loop over the subscriptions: one send each, a count of deliveries
   * and of failures, and a delete for each one reported gone.
   */
  method DeliverAll(store: Store, ks: seq<Key>, ghost q: set<Key>, n: Notification, deliver: (Item, Notification) -> Delivery)
    returns (sent: nat, failed: nat)
    requires Enumerates(ks, q) && q <= store.table.Keys
    modifies store
    ensures sent == |ReachedAmong(old(store.table), q, n, deliver)|
    ensures sent + failed == |q|
    ensures store.table == old(store.table) - GoneAmong(old(store.table), q, n, deliver)
  {
    var items := store.table;
    var reached := (k: Key) => k in items && deliver(items[k], n).Delivered?;
    sent, failed := 0, 0;
    ghost var done: seq<Key> := [];
    assert items - GoneListed(items, done, n, deliver) == items;
    var i := 0;
    while i < |ks|
      invariant 0 <= i <= |ks| && done == ks[..i]
      invariant sent == |Matching(done, reached)|
      invariant sent + failed == i
      invariant store.table == items - GoneListed(items, done, n, deliver)
    {
      var k := ks[i];
      var d := deliver(items[k], n);
      assert reached(k) <==> d.Delivered?;
      FilterCountStep(ks, i, reached);
      assert ks[..i + 1] == done + [k];
      GoneListedSnoc(items, done, k, n, deliver);
      if d.Delivered? {
        sent := sent + 1;
      } else {
        if Gone(d) {
          store.Delete(k);
        }
        failed := failed + 1;
      }
      done := done + [k];
      i := i + 1;
    }
    assert done == ks;
    assert Matching(ks, reached) == ReachedAmong(items, q, n, deliver);
    assert GoneListed(items, ks, n, deliver) == GoneAmong(items, q, n, deliver);
    EnumeratesSize(ks, q);
  }

  /** The listed subscriptions the push service reports gone. */
  function GoneListed(t: Table, listed: seq<Key>, n: Notification, deliver: (Item, Notification) -> Delivery): set<Key> {
    set k | k in listed && k in t && Gone(deliver(t[k], n))
  }

  /** Sending to one more subscription deletes it alone, when it is gone. */
  lemma GoneListedSnoc(t: Table, listed: seq<Key>, x: Key, n: Notification, deliver: (Item, Notification) -> Delivery)
    requires x in t
    ensures t - GoneListed(t, listed + [x], n, deliver) ==
      if Gone(deliver(t[x], n)) then (t - GoneListed(t, listed, n, deliver)) - {x} else t - GoneListed(t, listed, n, deliver)
  {
    if Gone(deliver(t[x], n)) {
      assert GoneListed(t, listed + [x], n, deliver) == GoneListed(t, listed, n, deliver) + {x};
    } else {
      assert GoneListed(t, listed + [x], n, deliver) == GoneListed(t, listed, n, deliver);
    }
  }

  /** The handler: validation, the two membership checks, the owner check, the query, then the loop. */
  method Handler(store: Store, claimSub: Option<string>, familyField: Option<string>, targetField: Option<string>,
                 messageField: Option<string>, deliver: (Item, Notification) -> Delivery) returns (out: Outcome)
    modifies store
    ensures Step(out, store.table) == Send(old(store.table), claimSub, familyField, targetField, messageField, deliver)
  {
    var s := GetSub(claimSub);
    if s.Err? {
      return Threw(s.error);
    }
    var sub := s.value;
    var familyId, target := Field(familyField), Field(targetField);
    var message := Trim(messageField.GetOr(DEFAULT_MESSAGE));
    if familyId == "" {
      return Fail(400, "familyId is required");
    }
    if target == "" {
      return Fail(400, "targetSub is required");
    }
    var sender := AssertFamilyMember(store.table, sub, familyId);
    if sender.Err? {
      return Threw(sender.error);
    }
    var memberships: seq<Key>;
    ghost var all: seq<Key>;
    memberships, all := store.Query(UserTag(sub), SkEquals(FamilyTag(familyId)), true, None);
    PointQuery(store.table, UserTag(sub), FamilyTag(familyId), all, memberships);
    if store.table[memberships[0]].role != Some("owner") {
      return Fail(403, NOT_OWNER);
    }
    var receiver := AssertFamilyMember(store.table, target, familyId);
    if receiver.Err? {
      return Threw(receiver.error);
    }
    out := DispatchAll(store, target, message, deliver);
  }

  /** The query of the target's `PUSH#` items and the loop over them. */
  method DispatchAll(store: Store, target: string, message: string, deliver: (Item, Notification) -> Delivery)
    returns (out: Outcome)
    modifies store
    ensures Step(out, store.table) == Dispatch(old(store.table), target, message, deliver)
  {
    var pushes: seq<Key>;
    ghost var all: seq<Key>;
    pushes, all := store.Query(UserTag(target), BeginsWith(PUSH_PREFIX), true, None);
    ghost var q := TargetPushes(store.table, target);
    if |pushes| == 0 {
      assert q == {};
      return Succeed(PushSent(0, None, Some(NO_SUBSCRIPTIONS)));
    }
    assert pushes[0] in q;
    var sent, failed := DeliverAll(store, pushes, q, Reminder(message), deliver);
    return Succeed(PushSent(sent, Some(failed), None));
  }
}
