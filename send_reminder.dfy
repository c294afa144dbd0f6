/**
 * send-reminder.ts: the scheduled reminder job. It scans every push
 * subscription, groups them by family, and for each family reminds the
 * subscribers who have not recorded a hand wash since midnight JST today;
 * subscriptions the push service reports gone are deleted. The clock, the
 * scan's pages and delivery are inputs; the job's result is its three
 * counters (sent, skipped, errors), which the source only logs.
 */
module SendReminder {
  import opened Wrappers
  import opened Text
  import opened Keys
  import opened Db
  import opened WebPush
  import opened CreateHandwashEvent
  import opened ListHandwashEvents

  const JST_OFFSET_MS: int := 9 * 60 * 60 * 1000
  const DAY_MS: int := 24 * 60 * 60 * 1000

  const REMINDER: Notification := Notification("🧼 手洗いリマインド", "今日の手洗い、忘れてない？", "/")

  /** `getTodayStartJST()`: the latest JST midnight at or before `nowMs`, in epoch milliseconds. */
  function TodayStartJst(nowMs: int): (start: int)
    ensures (start + JST_OFFSET_MS) % DAY_MS == 0
    ensures start <= nowMs < start + DAY_MS
  {
    var days := (nowMs + JST_OFFSET_MS) / DAY_MS;
    assert (days * DAY_MS) % DAY_MS == 0;
    days * DAY_MS - JST_OFFSET_MS
  }

  predicate IsPushSub(it: Item) {
    it.entity == Some("PUSH_SUB")
  }

  /** The keys the scan's pages cover, together. */
  function Covered(pages: seq<set<Key>>): (ks: set<Key>)
    ensures forall i :: 0 <= i < |pages| ==> pages[i] <= ks
  {
    if pages == [] then {} else Covered(pages[..|pages| - 1]) + pages[|pages| - 1]
  }

  /**
   * `getAllPushSubscriptions()`: one filtered scan per page, the items
   * appended in page order. Every `PUSH_SUB` item of the pages is found,
   * and nothing else.
   */
  method ScanAll(store: Store, pages: seq<set<Key>>) returns (subs: seq<Key>)
    ensures forall k :: k in subs <==> k in store.table && k in Covered(pages) && IsPushSub(store.table[k])
  {
    subs := [];
    var i := 0;
    while i < |pages|
      invariant 0 <= i <= |pages|
      invariant forall k :: k in subs <==> k in store.table && k in Covered(pages[..i]) && IsPushSub(store.table[k])
    {
      var found := store.Scan(pages[i], (k: Key, it: Item) => IsPushSub(it));
      assert pages[..i + 1][..i] == pages[..i];
      subs := subs + found;
      i := i + 1;
    }
    assert pages[..i] == pages;
  }

  // ---------------------------------------------------------------------------
  // Grouping by family
  // ---------------------------------------------------------------------------

  /** The families of `subs` in order of first appearance (a Map's insertion order). */
  function FamilyOrder(snapshot: Table, subs: seq<Key>): (order: seq<Option<string>>)
    requires forall k :: k in subs ==> k in snapshot
    ensures Distinct(order)
    ensures forall f :: f in order <==> exists k :: k in subs && snapshot[k].familyId == f
  {
    if subs == [] then []
    else
      var init := FamilyOrder(snapshot, subs[..|subs| - 1]);
      var f := snapshot[subs[|subs| - 1]].familyId;
      assert forall k :: k in subs <==> k in subs[..|subs| - 1] || k == subs[|subs| - 1];
      if f in init then init else init + [f]
  }

  /** The subscriptions of family `f`, in scan order. */
  function OfFamily(snapshot: Table, subs: seq<Key>, f: Option<string>): (group: seq<Key>)
    requires forall k :: k in subs ==> k in snapshot
    ensures forall k :: k in group <==> k in subs && snapshot[k].familyId == f
    ensures |group| <= |subs|
    ensures (forall k :: k in subs ==> snapshot[k].familyId != f) ==> group == []
  {
    if subs == [] then []
    else
      var init := OfFamily(snapshot, subs[..|subs| - 1], f);
      var last := subs[|subs| - 1];
      assert forall k :: k in subs <==> k in subs[..|subs| - 1] || k == last;
      if snapshot[last].familyId == f then init + [last] else init
  }

  /** The sizes of the groups of `order`, added up. */
  function SumSizes(snapshot: Table, subs: seq<Key>, order: seq<Option<string>>): nat
    requires forall k :: k in subs ==> k in snapshot
  {
    if order == [] then 0
    else SumSizes(snapshot, subs, order[..|order| - 1]) + |OfFamily(snapshot, subs, order[|order| - 1])|
  }

  /**
   * The grouping loop: `familyMap.get(fid) ?? set(fid, [])`, then push.
   * The map's keys are the families in first-appearance order, and each
   * group is that family's subscriptions in scan order.
   */
  method GroupByFamily(snapshot: Table, subs: seq<Key>) returns (order: seq<Option<string>>, groups: map<Option<string>, seq<Key>>)
    requires forall k :: k in subs ==> k in snapshot
    ensures order == FamilyOrder(snapshot, subs)
    ensures forall f :: f in groups <==> f in order
    ensures forall f :: f in groups ==> groups[f] == OfFamily(snapshot, subs, f)
  {
    order, groups := [], map[];
    var i := 0;
    while i < |subs|
      invariant 0 <= i <= |subs|
      invariant order == FamilyOrder(snapshot, subs[..i])
      invariant forall f :: f in groups <==> f in order
      invariant forall f :: f in groups ==> groups[f] == OfFamily(snapshot, subs[..i], f)
    {
      var f := snapshot[subs[i]].familyId;
      ghost var order0, groups0 := order, groups;
      var prior := if f in groups then groups[f] else [];
      if f !in groups {
        order := order + [f];
      }
      groups := groups[f := prior + [subs[i]]];
      GroupStep(snapshot, subs, i, order0, groups0, order, groups);
      i := i + 1;
    }
    assert subs[..i] == subs;
  }

  /** One turn of the grouping loop keeps its invariant: order and groups describe one more subscription. */
  lemma GroupStep(snapshot: Table, subs: seq<Key>, i: nat, order: seq<Option<string>>, groups: map<Option<string>, seq<Key>>,
                  order': seq<Option<string>>, groups': map<Option<string>, seq<Key>>)
    requires forall k :: k in subs ==> k in snapshot
    requires i < |subs|
    requires order == FamilyOrder(snapshot, subs[..i])
    requires forall f :: f in groups <==> f in order
    requires forall f :: f in groups ==> groups[f] == OfFamily(snapshot, subs[..i], f)
    requires var f := snapshot[subs[i]].familyId;
      order' == (if f in groups then order else order + [f]) &&
      groups' == groups[f := (if f in groups then groups[f] else []) + [subs[i]]]
    ensures order' == FamilyOrder(snapshot, subs[..i + 1])
    ensures forall f :: f in groups' <==> f in order'
    ensures forall f :: f in groups' ==> groups'[f] == OfFamily(snapshot, subs[..i + 1], f)
  {
    var f := snapshot[subs[i]].familyId;
    GroupSnoc(snapshot, subs, i);
    assert (if f in groups then groups[f] else []) == OfFamily(snapshot, subs[..i], f);
    forall g | g in groups'
      ensures groups'[g] == OfFamily(snapshot, subs[..i + 1], g)
    {
      if g != f {
        assert g in groups;
      }
    }
  }

  /** Scanning one more subscription: its family joins the order if new, and its group grows by it alone. */
  lemma GroupSnoc(snapshot: Table, subs: seq<Key>, i: nat)
    requires forall k :: k in subs ==> k in snapshot
    requires i < |subs|
    ensures var f := snapshot[subs[i]].familyId; var order := FamilyOrder(snapshot, subs[..i]);
      FamilyOrder(snapshot, subs[..i + 1]) == if f in order then order else order + [f]
    ensures forall g :: OfFamily(snapshot, subs[..i + 1], g) ==
                        (if snapshot[subs[i]].familyId == g then OfFamily(snapshot, subs[..i], g) + [subs[i]]
                         else OfFamily(snapshot, subs[..i], g))
  {
    assert subs[..i + 1][..i] == subs[..i];
  }

  /** Adding one subscription to the scan adds one to the group sizes of any distinct family list that has its family. */
  lemma {:induction false} SumSizesSnoc(snapshot: Table, subs: seq<Key>, x: Key, order: seq<Option<string>>)
    requires forall k :: k in subs + [x] ==> k in snapshot
    requires Distinct(order)
    ensures SumSizes(snapshot, subs + [x], order) ==
            SumSizes(snapshot, subs, order) + if snapshot[x].familyId in order then 1 else 0
    decreases |order|
  {
    if order != [] {
      var init, h := order[..|order| - 1], order[|order| - 1];
      assert Distinct(init);
      SumSizesSnoc(snapshot, subs, x, init);
      assert (subs + [x])[..|subs|] == subs;
      assert snapshot[x].familyId in order <==> snapshot[x].familyId in init || h == snapshot[x].familyId;
      assert h !in init;
    }
  }

  /** Every scanned subscription lands in exactly one group: the group sizes add up to the scan's length. */
  lemma {:induction false} GroupsCoverEverySubscription(snapshot: Table, subs: seq<Key>)
    requires forall k :: k in subs ==> k in snapshot
    ensures SumSizes(snapshot, subs, FamilyOrder(snapshot, subs)) == |subs|
    decreases |subs|
  {
    if subs != [] {
      var init, x := subs[..|subs| - 1], subs[|subs| - 1];
      assert subs == init + [x];
      var order := FamilyOrder(snapshot, init);
      GroupsCoverEverySubscription(snapshot, init);
      SumSizesSnoc(snapshot, init, x, order);
      var f := snapshot[x].familyId;
      if f !in order {
        assert (order + [f])[..|order|] == order;
        assert OfFamily(snapshot, subs, f) == [x];
      }
    }
  }

  // ---------------------------------------------------------------------------
  // Who washed today
  // ---------------------------------------------------------------------------

  /** The event range `getTodayWashedUsers` queries: family `f` from `from` up to `to`. */
  function WashWindow(t: Table, f: Option<string>, from: int, to: int): set<Key> {
    QueryKeys(t, FamilyTag(f.GetOr("undefined")), Window(from, to))
  }

  /** The non-empty `createdBy` values of the events in the window. */
  function Washed(t: Table, f: Option<string>, from: int, to: int): (users: set<string>)
    ensures forall u :: u in users <==> u != "" && exists k :: k in WashWindow(t, f, from, to) && t[k].createdBy == Some(u)
  {
    set k | k in WashWindow(t, f, from, to) && Truthy(t[k].createdBy) :: t[k].createdBy.value
  }

  /** `getTodayWashedUsers(familyId, todayStart)`: the query, then the loop that collects the creators. */
  method TodayWashedUsers(store: Store, f: Option<string>, from: int, to: int) returns (washed: set<string>)
    ensures washed == Washed(store.table, f, from, to)
  {
    var ks: seq<Key>;
    ghost var all: seq<Key>;
    ks, all := store.Query(FamilyTag(f.GetOr("undefined")), Window(from, to), true, None);
    assert ks == all;
    washed := {};
    var i := 0;
    while i < |ks|
      invariant 0 <= i <= |ks|
      invariant forall u :: u in washed <==> u != "" && exists j :: 0 <= j < i && store.table[ks[j]].createdBy == Some(u)
    {
      var item := store.table[ks[i]];
      if Truthy(item.createdBy) {
        washed := washed + {item.createdBy.value};
      }
      i := i + 1;
    }
    forall u | u in Washed(store.table, f, from, to)
      ensures u in washed
    {
      var k :| k in WashWindow(store.table, f, from, to) && store.table[k].createdBy == Some(u);
      var j :| 0 <= j < |ks| && ks[j] == k;
    }
  }

  /** `k` is an event of the family, recorded by `u` at a time between the clamped bounds. */
  predicate WashedBetween(t: Table, familyId: string, from: int, to: int, u: string, k: Key) {
    k in t && k.pk == FamilyTag(familyId) && HasPrefix(k.sk, EVENT_PREFIX) && t[k].createdBy == Some(u) &&
    t[k].atMs.Some? && ClampToZero(from) <= t[k].atMs.value <= ClampToZero(to)
  }

  /**
   * For a family whose `EVENT#` items are stored under their own timestamps
   * with `randomUUID` ids, the users skipped are exactly those who recorded
   * an event between the clamped bounds of the window.
   */
  lemma WashedMeansWashedInWindow(t: Table, familyId: string, from: int, to: int, u: string)
    requires from < PAD_BOUND && to < PAD_BOUND
    requires forall k :: k in t && k.pk == FamilyTag(familyId) && HasPrefix(k.sk, EVENT_PREFIX) ==>
      EventKeyed(k, t[k]) && IsUuidText(t[k].eventId.value)
    ensures u in Washed(t, Some(familyId), from, to) <==> u != "" && exists k :: WashedBetween(t, familyId, from, to, u, k)
  {
    assert EventFromKey(from) == EVENT_PREFIX + (Pad13(from) + "#");
    assert EventToKey(to) == EVENT_PREFIX + (Pad13(to) + "#" + [MAX_BMP]);
    forall k | k in WashWindow(t, Some(familyId), from, to)
      ensures HasPrefix(k.sk, EVENT_PREFIX)
    {
      LexBetweenKeepsPrefix(EVENT_PREFIX, Pad13(from) + "#", Pad13(to) + "#" + [MAX_BMP], k.sk);
    }
    forall k | k in t && k.pk == FamilyTag(familyId) && HasPrefix(k.sk, EVENT_PREFIX)
      ensures k in WashWindow(t, Some(familyId), from, to) <==> ClampToZero(from) <= t[k].atMs.value <= ClampToZero(to)
    {
      WindowIsTimeRange(t, familyId, from, to, k);
    }
    if u in Washed(t, Some(familyId), from, to) {
      var k :| k in WashWindow(t, Some(familyId), from, to) && t[k].createdBy == Some(u);
      assert WashedBetween(t, familyId, from, to, u, k);
    }
    if u != "" && exists k :: WashedBetween(t, familyId, from, to, u, k) {
      var k :| WashedBetween(t, familyId, from, to, u, k);
      assert k in WashWindow(t, Some(familyId), from, to);
    }
  }

  // ---------------------------------------------------------------------------
  // Reminding
  // ---------------------------------------------------------------------------

  datatype Tally = Tally(sent: nat, skipped: nat, errors: nat) {
    function Plus(other: Tally): Tally { Tally(sent + other.sent, skipped + other.skipped, errors + other.errors) }
  }

  /** The counters and the table after some of the job. */
  datatype Run = Run(tally: Tally, table: Table)

  /** `washedUsers.has(userSub)`. */
  predicate Skipped(sub: Item, washed: set<string>) {
    sub.userSub.Some? && sub.userSub.value in washed
  }

  /** A subscription of `subs` that is not skipped and that the push service reports gone. */
  predicate GoneUnwashed(snapshot: Table, subs: seq<Key>, washed: set<string>, deliver: (Item, Notification) -> Delivery, k: Key)
    requires forall k :: k in subs ==> k in snapshot
  {
    k in subs && !Skipped(snapshot[k], washed) && Gone(deliver(snapshot[k], REMINDER))
  }

  /** One subscription's turn: skipped, sent, or an error, deleted when the push service says it is gone. */
  function RemindOne(prev: Run, k: Key, sub: Item, washed: set<string>, deliver: (Item, Notification) -> Delivery): (r: Run)
    ensures r.tally.sent + r.tally.skipped + r.tally.errors == prev.tally.sent + prev.tally.skipped + prev.tally.errors + 1
    ensures r.table == if !Skipped(sub, washed) && Gone(deliver(sub, REMINDER)) then prev.table - {k} else prev.table
  {
    if Skipped(sub, washed) then Run(prev.tally.(skipped := prev.tally.skipped + 1), prev.table)
    else
      var d := deliver(sub, REMINDER);
      if d.Delivered? then Run(prev.tally.(sent := prev.tally.sent + 1), prev.table)
      else Run(prev.tally.(errors := prev.tally.errors + 1), if Gone(d) then prev.table - {k} else prev.table)
  }

  /**
   * One family's loop, over the items as the scan read them: a washed user
   * is skipped, any other subscription gets one send; every subscription is
   * counted once, and exactly the gone unwashed ones are deleted.
   */
  function Remind(t: Table, snapshot: Table, subs: seq<Key>, washed: set<string>,
                  deliver: (Item, Notification) -> Delivery): (r: Run)
    requires forall k :: k in subs ==> k in snapshot
    ensures r.tally.sent + r.tally.skipped + r.tally.errors == |subs|
  {
    if subs == [] then Run(Tally(0, 0, 0), t)
    else
      var init, k := subs[..|subs| - 1], subs[|subs| - 1];
      RemindOne(Remind(t, snapshot, init, washed, deliver), k, snapshot[k], washed, deliver)
  }

  /** A family's pass deletes exactly its gone unwashed subscriptions and leaves every other item as it was. */
  lemma {:induction false} RemindDeletesGoneUnwashed(t: Table, snapshot: Table, subs: seq<Key>, washed: set<string>,
                                                     deliver: (Item, Notification) -> Delivery)
    requires forall k :: k in subs ==> k in snapshot
    ensures var r := Remind(t, snapshot, subs, washed, deliver);
      forall x :: x in r.table <==> x in t && !GoneUnwashed(snapshot, subs, washed, deliver, x)
    ensures var r := Remind(t, snapshot, subs, washed, deliver);
      forall x :: x in r.table ==> r.table[x] == t[x]
  {
    if subs != [] {
      var init, k := subs[..|subs| - 1], subs[|subs| - 1];
      RemindDeletesGoneUnwashed(t, snapshot, init, washed, deliver);
      var prev := Remind(t, snapshot, init, washed, deliver);
      var r := Remind(t, snapshot, subs, washed, deliver);
      assert r.table == if GoneUnwashed(snapshot, subs, washed, deliver, k) then prev.table - {k} else prev.table;
      forall x
        ensures x in r.table <==> x in t && !GoneUnwashed(snapshot, subs, washed, deliver, x)
      {
        if x != k {
          assert x in subs <==> x in init;
        }
      }
    } else {
      assert Remind(t, snapshot, subs, washed, deliver).table == t;
    }
  }

  /** How many of `subs` belong to a user who washed today. */
  function WashedCount(snapshot: Table, subs: seq<Key>, washed: set<string>): (n: nat)
    requires forall k :: k in subs ==> k in snapshot
    ensures n <= |subs|
  {
    if subs == [] then 0
    else WashedCount(snapshot, subs[..|subs| - 1], washed) + if Skipped(snapshot[subs[|subs| - 1]], washed) then 1 else 0
  }

  /**
   * A family's pass skips exactly the subscriptions of users who washed
   * today, and sends to every other one (counted as sent or as an error).
   */
  lemma {:induction false} RemindSkipsExactlyTheWashed(t: Table, snapshot: Table, subs: seq<Key>, washed: set<string>,
                                                       deliver: (Item, Notification) -> Delivery)
    requires forall k :: k in subs ==> k in snapshot
    ensures var r := Remind(t, snapshot, subs, washed, deliver);
      r.tally.skipped == WashedCount(snapshot, subs, washed) &&
      r.tally.sent + r.tally.errors == |subs| - WashedCount(snapshot, subs, washed)
  {
    if subs != [] {
      RemindSkipsExactlyTheWashed(t, snapshot, subs[..|subs| - 1], washed, deliver);
    }
  }

  /** One family's turn: its washed users read from the table as it now is, then its group reminded. */
  function FamilyTurn(prev: Run, snapshot: Table, subs: seq<Key>, f: Option<string>, todayStart: int,
                      clock: Option<string> -> int, deliver: (Item, Notification) -> Delivery): (r: Run)
    requires forall k :: k in subs ==> k in snapshot
    ensures r.tally.sent + r.tally.skipped + r.tally.errors ==
            prev.tally.sent + prev.tally.skipped + prev.tally.errors + |OfFamily(snapshot, subs, f)|
  {
    var washed := Washed(prev.table, f, todayStart, clock(f));
    var g := Remind(prev.table, snapshot, OfFamily(snapshot, subs, f), washed, deliver);
    Run(prev.tally.Plus(g.tally), g.table)
  }

  /**
   * The loop over the families: each family's washed users are read from
   * the table as it is when the family's turn comes, then its group is
   * reminded. `clock(f)` is `Date.now()` at that moment.
   */
  function RemindAll(t: Table, snapshot: Table, subs: seq<Key>, order: seq<Option<string>>, todayStart: int,
                     clock: Option<string> -> int, deliver: (Item, Notification) -> Delivery): (r: Run)
    requires forall k :: k in subs ==> k in snapshot
    ensures r.tally.sent + r.tally.skipped + r.tally.errors == SumSizes(snapshot, subs, order)
  {
    if order == [] then Run(Tally(0, 0, 0), t)
    else
      var prev := RemindAll(t, snapshot, subs, order[..|order| - 1], todayStart, clock, deliver);
      FamilyTurn(prev, snapshot, subs, order[|order| - 1], todayStart, clock, deliver)
  }

  /**
   * The whole job deletes nothing but scanned subscriptions the push service
   * reported gone, and changes no item it keeps.
   */
  lemma {:induction false} RemindAllOnlyDeletesGone(t: Table, snapshot: Table, subs: seq<Key>, order: seq<Option<string>>,
                                                    todayStart: int, clock: Option<string> -> int,
                                                    deliver: (Item, Notification) -> Delivery)
    requires forall k :: k in subs ==> k in snapshot
    ensures var r := RemindAll(t, snapshot, subs, order, todayStart, clock, deliver);
      forall k :: k in r.table ==> k in t && r.table[k] == t[k]
    ensures var r := RemindAll(t, snapshot, subs, order, todayStart, clock, deliver);
      forall k :: k in t && k !in r.table ==> k in subs && Gone(deliver(snapshot[k], REMINDER))
    decreases |order|
  {
    if order != [] {
      var f := order[|order| - 1];
      RemindAllOnlyDeletesGone(t, snapshot, subs, order[..|order| - 1], todayStart, clock, deliver);
      var prev := RemindAll(t, snapshot, subs, order[..|order| - 1], todayStart, clock, deliver);
      var group := OfFamily(snapshot, subs, f);
      RemindDeletesGoneUnwashed(prev.table, snapshot, group, Washed(prev.table, f, todayStart, clock(f)), deliver);
    }
  }

  /** One family's loop: skip, send, count, and delete on 404/410. */
  method RemindGroup(store: Store, snapshot: Table, subs: seq<Key>, washed: set<string>,
                     deliver: (Item, Notification) -> Delivery) returns (tally: Tally)
    requires forall k :: k in subs ==> k in snapshot
    modifies store
    ensures Run(tally, store.table) == Remind(old(store.table), snapshot, subs, washed, deliver)
  {
    tally := Tally(0, 0, 0);
    ghost var t0 := store.table;
    var i := 0;
    while i < |subs|
      invariant 0 <= i <= |subs|
      invariant Run(tally, store.table) == Remind(t0, snapshot, subs[..i], washed, deliver)
    {
      var k := subs[i];
      var sub := snapshot[k];
      assert subs[..i + 1][..i] == subs[..i];
      if Skipped(sub, washed) {
        tally := tally.(skipped := tally.skipped + 1);
      } else {
        var d := deliver(sub, REMINDER);
        if d.Delivered? {
          tally := tally.(sent := tally.sent + 1);
        } else {
          tally := tally.(errors := tally.errors + 1);
          if Gone(d) {
            store.Delete(k);
          }
        }
      }
      i := i + 1;
    }
    assert subs[..i] == subs;
  }

  /** One family's turn of the job: who washed today, then the family's loop. */
  method FamilyPass(store: Store, snapshot: Table, subs: seq<Key>, group: seq<Key>, f: Option<string>, todayStart: int,
                    clock: Option<string> -> int, deliver: (Item, Notification) -> Delivery) returns (g: Tally)
    requires forall k :: k in subs ==> k in snapshot
    requires group == OfFamily(snapshot, subs, f)
    modifies store
    ensures var r := Remind(old(store.table), snapshot, group, Washed(old(store.table), f, todayStart, clock(f)), deliver);
      g == r.tally && store.table == r.table
  {
    var washed := TodayWashedUsers(store, f, todayStart, clock(f));
    g := RemindGroup(store, snapshot, group, washed, deliver);
  }

  /**
   * The job: the scan, the grouping, then one pass per family. Every
   * scanned subscription is counted exactly once as sent, skipped or an
   * error, and the only items removed are scanned subscriptions the push
   * service reported gone.
   */
  method Handler(store: Store, pages: seq<set<Key>>, nowMs: int, clock: Option<string> -> int,
                 deliver: (Item, Notification) -> Delivery) returns (tally: Tally, ghost subs: seq<Key>)
    modifies store
    ensures forall k :: k in subs <==> k in old(store.table) && k in Covered(pages) && IsPushSub(old(store.table)[k])
    ensures tally.sent + tally.skipped + tally.errors == |subs|
    ensures Run(tally, store.table) ==
            RemindAll(old(store.table), old(store.table), subs, FamilyOrder(old(store.table), subs),
                      TodayStartJst(nowMs), clock, deliver)
  {
    var todayStart := TodayStartJst(nowMs);
    var found := ScanAll(store, pages);
    subs := found;
    var snapshot := store.table;
    var order, groups := GroupByFamily(snapshot, found);
    tally := RemindFamilies(store, snapshot, found, order, groups, todayStart, clock, deliver);
    GroupsCoverEverySubscription(snapshot, found);
  }

  /** The loop over the families, in the grouping's order. */
  method RemindFamilies(store: Store, snapshot: Table, found: seq<Key>, order: seq<Option<string>>,
                        groups: map<Option<string>, seq<Key>>, todayStart: int,
                        clock: Option<string> -> int, deliver: (Item, Notification) -> Delivery) returns (tally: Tally)
    requires forall k :: k in found ==> k in snapshot
    requires forall f :: f in groups <==> f in order
    requires forall f :: f in groups ==> groups[f] == OfFamily(snapshot, found, f)
    modifies store
    ensures Run(tally, store.table) == RemindAll(old(store.table), snapshot, found, order, todayStart, clock, deliver)
  {
    ghost var t0 := store.table;
    tally := Tally(0, 0, 0);
    ghost var done: seq<Option<string>> := [];
    var i := 0;
    while i < |order|
      invariant 0 <= i <= |order| && done == order[..i]
      invariant Run(tally, store.table) == RemindAll(t0, snapshot, found, done, todayStart, clock, deliver)
    {
      var f := order[i];
      RemindAllSnoc(t0, snapshot, found, done, f, todayStart, clock, deliver);
      tally := NextFamily(store, tally, snapshot, found, f, groups[f], todayStart, clock, deliver);
      assert order[..i + 1] == done + [f];
      done := done + [f];
      i := i + 1;
    }
    assert done == order;
  }

  /** One turn of the loop over the families: the running counters and the table move on by that family's turn. */
  method NextFamily(store: Store, tally: Tally, snapshot: Table, found: seq<Key>, f: Option<string>, group: seq<Key>,
                    todayStart: int, clock: Option<string> -> int, deliver: (Item, Notification) -> Delivery)
    returns (next: Tally)
    requires forall k :: k in found ==> k in snapshot
    requires group == OfFamily(snapshot, found, f)
    modifies store
    ensures Run(next, store.table) == FamilyTurn(Run(tally, old(store.table)), snapshot, found, f, todayStart, clock, deliver)
  {
    FamilyTurnIsPass(Run(tally, store.table), snapshot, found, f, todayStart, clock, deliver);
    var g := FamilyPass(store, snapshot, found, group, f, todayStart, clock, deliver);
    next := tally.Plus(g);
  }

  lemma RemindAllSnoc(t: Table, snapshot: Table, subs: seq<Key>, order: seq<Option<string>>, f: Option<string>, todayStart: int,
                      clock: Option<string> -> int, deliver: (Item, Notification) -> Delivery)
    requires forall k :: k in subs ==> k in snapshot
    ensures RemindAll(t, snapshot, subs, order + [f], todayStart, clock, deliver)
      == FamilyTurn(RemindAll(t, snapshot, subs, order, todayStart, clock, deliver), snapshot, subs, f, todayStart, clock, deliver)
  {
    assert (order + [f])[..|order|] == order;
  }

  lemma FamilyTurnIsPass(prev: Run, snapshot: Table, subs: seq<Key>, f: Option<string>, todayStart: int,
                         clock: Option<string> -> int, deliver: (Item, Notification) -> Delivery)
    requires forall k :: k in subs ==> k in snapshot
    ensures var g := Remind(prev.table, snapshot, OfFamily(snapshot, subs, f), Washed(prev.table, f, todayStart, clock(f)), deliver);
      FamilyTurn(prev, snapshot, subs, f, todayStart, clock, deliver) == Run(prev.tally.Plus(g.tally), g.table)
  {
  }
}
