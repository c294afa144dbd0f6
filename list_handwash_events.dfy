/**
 * list-handwash-events.ts: one page of a family's events in a time window,
 * oldest or newest first. The clock is an input; `from`, `to` and `limit`
 * arrive as numbers (absent or empty parameters are `None`).
 */
module ListHandwashEvents {
  import opened Wrappers
  import opened Text
  import opened Keys
  import opened Db
  import opened Shared
  import opened Authz
  import opened CreateHandwashEvent

  const DEFAULT_LIMIT: nat := 50
  const MAX_LIMIT: nat := 200
  /** The default window: the seven days before now. */
  const WEEK_MS: int := 7 * 24 * 60 * 60 * 1000

  /** `qs.limit ? Math.min(200, Math.max(1, Number(qs.limit))) : 50`. */
  function EffectiveLimit(limit: Option<int>): (n: nat)
    ensures 1 <= n <= MAX_LIMIT
    ensures limit.None? ==> n == DEFAULT_LIMIT
    ensures limit.Some? && 1 <= limit.value <= MAX_LIMIT ==> n == limit.value
    ensures limit.Some? && limit.value < 1 ==> n == 1
    ensures limit.Some? && limit.value > MAX_LIMIT ==> n == MAX_LIMIT
  {
    match limit
    case None => DEFAULT_LIMIT
    case Some(l) => if l < 1 then 1 else if l > MAX_LIMIT then MAX_LIMIT else l
  }

  /** `qs.asc === "1" || qs.asc === "true"`: anything else lists newest first. */
  predicate Ascending(asc: Option<string>) {
    asc == Some("1") || asc == Some("true")
  }

  /** The sort-key condition of the window `[from, to]`. */
  function Window(from: int, to: int): SkCondition {
    Between(EventFromKey(from), EventToKey(to))
  }

  /** The response entries, one per listed item, in listing order. */
  function Views(t: Table, ks: seq<Key>): (vs: seq<EventView>)
    requires forall k :: k in ks ==> k in t
    ensures |vs| == |ks| && forall i :: 0 <= i < |ks| ==> vs[i] == ViewOf(t[ks[i]])
  {
    if ks == [] then [] else [ViewOf(t[ks[0]])] + Views(t, ks[1..])
  }

  /**
   * The handler. It reads only: the ghost `ks` is the page of keys the query
   * returned. A window whose lower bound sorts after its upper bound is
   * refused by DynamoDB, and the catch block answers 500 with its message.
   * On 200 the page holds keys of the family's partition inside the window,
   * no more than the limit, in sort-key order (ascending or descending),
   * complete when the window fits the limit, and every key left out lies
   * beyond the page in that order.
   */
  method Handler(store: Store, claimSub: Option<string>, familyField: Option<string>,
                 from: Option<int>, to: Option<int>, limit: Option<int>, asc: Option<string>, nowMs: int)
    returns (out: Outcome, ghost ks: seq<Key>)
    ensures !Truthy(claimSub) ==> out == Fail(500, MISSING_SUB.message)
    ensures out.Is(400) <==> Truthy(claimSub) && Field(familyField) == ""
    ensures out.Is(403) <==>
      Truthy(claimSub) && Field(familyField) != "" && MembershipKey(claimSub.value, Field(familyField)) !in store.table
    ensures Truthy(claimSub) && Field(familyField) != "" && MembershipKey(claimSub.value, Field(familyField)) in store.table &&
            !ConditionAccepted(Window(from.GetOr(nowMs - WEEK_MS), to.GetOr(nowMs))) ==>
      out == Fail(500, BETWEEN_REVERSED.message)
    ensures out.Is(200) <==>
      Truthy(claimSub) && Field(familyField) != "" && MembershipKey(claimSub.value, Field(familyField)) in store.table &&
      ConditionAccepted(Window(from.GetOr(nowMs - WEEK_MS), to.GetOr(nowMs)))
    ensures out.Is(200) ==>
      var q := QueryKeys(store.table, FamilyTag(Field(familyField)),
                         Window(from.GetOr(nowMs - WEEK_MS), to.GetOr(nowMs)));
      var n := EffectiveLimit(limit);
      Distinct(ks) && (forall k :: k in ks ==> k in q) && |ks| <= n &&
      (|q| <= n ==> forall k :: k in q ==> k in ks) &&
      (Ascending(asc) ==> SortedBy(ks, SortKey)) &&
      (!Ascending(asc) ==> SortedDescendingBy(ks, SortKey)) &&
      (forall k, i :: k in q && k !in ks && 0 <= i < |ks| ==>
         if Ascending(asc) then LexLe(ks[i].sk, k.sk) else LexLe(k.sk, ks[i].sk)) &&
      out.response.body == Events(Views(store.table, ks))
  {
    var s := GetSub(claimSub);
    if s.Err? {
      return Caught(s.error), [];
    }
    var sub := s.value;
    var familyId := Field(familyField);
    if familyId == "" {
      return Fail(400, "familyId is required"), [];
    }
    var member := AssertFamilyMember(store.table, sub, familyId);
    if member.Err? {
      return Caught(member.error), [];
    }
    var lo := from.GetOr(nowMs - WEEK_MS);
    var hi := to.GetOr(nowMs);
    var n := EffectiveLimit(limit);
    var forward := Ascending(asc);
    if !ConditionAccepted(Window(lo, hi)) {
      return Caught(BETWEEN_REVERSED), [];
    }
    var page: seq<Key>;
    ghost var all: seq<Key>;
    page, all := store.Query(FamilyTag(familyId), Window(lo, hi), forward, Some(n));
    QueryResult(all, page, QueryKeys(store.table, FamilyTag(familyId), Window(lo, hi)), forward, Some(n));
    return Succeed(Events(Views(store.table, page))), page;
  }

  /**
   * For events stored under their own timestamp with a `randomUUID` id, the
   * window is a time window: such an event of the family is selected exactly
   * when its timestamp lies between the clamped bounds.
   */
  lemma WindowIsTimeRange(t: Table, familyId: string, from: int, to: int, k: Key)
    requires from < PAD_BOUND && to < PAD_BOUND
    requires k in t && k.pk == FamilyTag(familyId) && EventKeyed(k, t[k]) && IsUuidText(t[k].eventId.value)
    ensures k in QueryKeys(t, FamilyTag(familyId), Window(from, to)) <==>
            ClampToZero(from) <= t[k].atMs.value <= ClampToZero(to)
  {
    EventKeyInRange(from, to, t[k].atMs.value, t[k].eventId.value);
  }

  /**
   * DynamoDB accepts the window query exactly when the clamped `from` is not
   * later than the clamped `to`; a reversed window is answered with 500.
   */
  lemma WindowAcceptedIff(from: int, to: int)
    requires from < PAD_BOUND && to < PAD_BOUND
    ensures ConditionAccepted(Window(from, to)) <==> ClampToZero(from) <= ClampToZero(to)
  {
    WindowBoundsOrdered(from, to);
  }

  /** A page in ascending sort-key order lists such events oldest first, a descending one newest first. */
  lemma {:induction false} ListingIsChronological(t: Table, ks: seq<Key>)
    requires forall i :: 0 <= i < |ks| ==> ks[i] in t && t[ks[i]].atMs.Some? && EventKeyed(ks[i], t[ks[i]])
    ensures SortedBy(ks, SortKey) ==>
      forall i, j :: 0 <= i < j < |ks| ==> t[ks[i]].atMs.value <= t[ks[j]].atMs.value
    ensures SortedDescendingBy(ks, SortKey) ==>
      forall i, j :: 0 <= i < j < |ks| ==> t[ks[i]].atMs.value >= t[ks[j]].atMs.value
  {
    forall i, j | 0 <= i < j < |ks|
      ensures LexLe(ks[i].sk, ks[j].sk) ==> t[ks[i]].atMs.value <= t[ks[j]].atMs.value
      ensures LexLe(ks[j].sk, ks[i].sk) ==> t[ks[j]].atMs.value <= t[ks[i]].atMs.value
    {
      var a, b := t[ks[i]], t[ks[j]];
      EventOrderIsTimeOrder(a.atMs.value, a.eventId.value, b.atMs.value, b.eventId.value);
      EventOrderIsTimeOrder(b.atMs.value, b.eventId.value, a.atMs.value, a.eventId.value);
    }
  }
}
