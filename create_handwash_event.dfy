/**
 * create-handwash-event.ts: records one hand-washing event in the family's
 * partition under a time-ordered sort key. `Date.now()` and `randomUUID()`
 * are inputs. Errors are caught: FORBIDDEN becomes 403, anything else 500.
 */
module CreateHandwashEvent {
  import opened Wrappers
  import opened Text
  import opened Keys
  import opened Db
  import opened Shared
  import opened Authz

  /** The longest note kept, in JavaScript string length. */
  const MAX_NOTE: nat := 200

  /** `body.note != null ? String(body.note).slice(0, 200) : undefined`. */
  function NoteOf(noteField: Option<string>): (note: Option<string>)
    ensures note.Some? <==> noteField.Some?
    ensures note.Some? ==> note.value <= noteField.value && Utf16Length(note.value) <= MAX_NOTE
    ensures note.Some? && Utf16Length(noteField.value) <= MAX_NOTE ==> note == noteField
  {
    match noteField
    case None => None
    case Some(n) =>
      if Utf16Length(n) <= MAX_NOTE then
        TruncateShortIsIdentity(n, MAX_NOTE);
        Some(TruncateUtf16(n, MAX_NOTE))
      else Some(TruncateUtf16(n, MAX_NOTE))
  }

  function EventItem(familyId: string, eventId: string, nowMs: int, sub: string,
                     mode: Option<string>, durationSec: Option<int>, note: Option<string>): Item {
    NoAttributes.(entity := Some("HANDWASH_EVENT"), familyId := Some(familyId), eventId := Some(eventId),
                  atMs := Some(nowMs), createdBy := Some(sub), mode := mode, durationSec := durationSec, note := note)
  }

  /**
   * An event item stored under the key its own timestamp and id give, with a
   * timestamp `pad13` renders faithfully.
   */
  predicate EventKeyed(k: Key, it: Item) {
    it.atMs.Some? && it.eventId.Some? && 0 <= it.atMs.value < PAD_BOUND &&
    k.sk == EventTag(it.atMs.value, it.eventId.value)
  }

  /**
   * What the handler does to `t`: 400 without a family id, 403 for a caller
   * who is not a member, otherwise one unconditional put at
   * `FAMILY#familyId / EVENT#pad13(nowMs)#eventId`.
   */
  function CreateEvent(t: Table, claimSub: Option<string>, familyField: Option<string>, mode: Option<string>,
                       durationSec: Option<int>, noteField: Option<string>, nowMs: int, eventId: string): (r: Step)
    ensures !Truthy(claimSub) ==> r == Step(Fail(500, MISSING_SUB.message), t)
    ensures Truthy(claimSub) && Field(familyField) == "" ==> r == Step(Fail(400, "familyId is required"), t)
    ensures !r.out.Is(200) ==> r.table == t
    ensures r.out.Is(403) <==>
      Truthy(claimSub) && Field(familyField) != "" && MembershipKey(claimSub.value, Field(familyField)) !in t
    ensures r.out.Is(200) <==>
      Truthy(claimSub) && Field(familyField) != "" && MembershipKey(claimSub.value, Field(familyField)) in t
    ensures r.out.Is(200) ==>
      var key := EventKey(Field(familyField), nowMs, eventId);
      r.table == t[key := EventItem(Field(familyField), eventId, nowMs, claimSub.value, mode, durationSec, NoteOf(noteField))] &&
      r.out.response.body == EventCreated(ViewOf(r.table[key]))
  {
    var s := GetSub(claimSub);
    if s.Err? then Step(Caught(s.error), t)
    else
      var sub := s.value;
      var familyId := Field(familyField);
      if familyId == "" then Step(Fail(400, "familyId is required"), t)
      else
        var note := NoteOf(noteField);
        var member := AssertFamilyMember(t, sub, familyId);
        if member.Err? then Step(Caught(member.error), t)
        else
          var item := EventItem(familyId, eventId, nowMs, sub, mode, durationSec, note);
          Step(Succeed(EventCreated(ViewOf(item))), t[EventKey(familyId, nowMs, eventId) := item])
  }

  /** Events are neither memberships nor META items, so recording one keeps the schema. */
  lemma CreateEventKeepsSchema(t: Table, claimSub: Option<string>, familyField: Option<string>, mode: Option<string>,
                               durationSec: Option<int>, noteField: Option<string>, nowMs: int, eventId: string)
    requires Schema(t)
    ensures Schema(CreateEvent(t, claimSub, familyField, mode, durationSec, noteField, nowMs, eventId).table)
  {
    var r := CreateEvent(t, claimSub, familyField, mode, durationSec, noteField, nowMs, eventId);
    if r.out.Is(200) {
      var familyId := Field(familyField);
      var key := EventKey(familyId, nowMs, eventId);
      assert key.pk[0] == 'F' && key.sk[0] == 'E';
      assert !IsFamilyMetaKey(key) by {
        assert META[0] == 'M';
      }
      SchemaPut(t, key, EventItem(familyId, eventId, nowMs, claimSub.value, mode, durationSec, NoteOf(noteField)));
    }
  }

  /** The event written for a timestamp in [0, 10^13) is keyed by that timestamp and its id. */
  lemma CreatedEventIsKeyed(t: Table, claimSub: Option<string>, familyField: Option<string>, mode: Option<string>,
                            durationSec: Option<int>, noteField: Option<string>, nowMs: int, eventId: string)
    requires 0 <= nowMs < PAD_BOUND
    requires CreateEvent(t, claimSub, familyField, mode, durationSec, noteField, nowMs, eventId).out.Is(200)
    ensures var r := CreateEvent(t, claimSub, familyField, mode, durationSec, noteField, nowMs, eventId);
      var key := EventKey(Field(familyField), nowMs, eventId);
      key in r.table && EventKeyed(key, r.table[key]) && r.table[key].createdBy == claimSub &&
      r.table[key].eventId == Some(eventId) && r.table[key].atMs == Some(nowMs)
  {
  }

  /** Submitting twice with fresh ids leaves two events: the put never overwrites an earlier event. */
  lemma RepeatedSubmissionsAccumulate(t: Table, claimSub: Option<string>, familyField: Option<string>, mode: Option<string>,
                                      durationSec: Option<int>, noteField: Option<string>,
                                      ms1: int, id1: string, ms2: int, id2: string)
    requires id1 != id2
    requires CreateEvent(t, claimSub, familyField, mode, durationSec, noteField, ms1, id1).out.Is(200)
    ensures var t1 := CreateEvent(t, claimSub, familyField, mode, durationSec, noteField, ms1, id1).table;
      var r2 := CreateEvent(t1, claimSub, familyField, mode, durationSec, noteField, ms2, id2);
      r2.out.Is(200) &&
      EventKey(Field(familyField), ms1, id1) in r2.table && EventKey(Field(familyField), ms2, id2) in r2.table &&
      EventKey(Field(familyField), ms1, id1) != EventKey(Field(familyField), ms2, id2)
  {
    var familyId := Field(familyField);
    EventTagSeparatesIds(ms1, id1, ms2, id2);
    var key := MembershipKey(claimSub.value, familyId);
    assert key.pk[0] == 'U' && EventKey(familyId, ms1, id1).pk[0] == 'F';
  }

  /** The handler: validation, the membership check, then the put. */
  method Handler(store: Store, claimSub: Option<string>, familyField: Option<string>, mode: Option<string>,
                 durationSec: Option<int>, noteField: Option<string>, nowMs: int, eventId: string) returns (out: Outcome)
    modifies store
    ensures Step(out, store.table) ==
            CreateEvent(old(store.table), claimSub, familyField, mode, durationSec, noteField, nowMs, eventId)
  {
    var s := GetSub(claimSub);
    if s.Err? {
      return Caught(s.error);
    }
    var sub := s.value;
    var familyId := Field(familyField);
    if familyId == "" {
      return Fail(400, "familyId is required");
    }
    var note := NoteOf(noteField);
    var member := AssertFamilyMember(store.table, sub, familyId);
    if member.Err? {
      return Caught(member.error);
    }
    var item := EventItem(familyId, eventId, nowMs, sub, mode, durationSec, note);
    store.Put(EventKey(familyId, nowMs, eventId), item);
    return Succeed(EventCreated(ViewOf(item)));
  }
}
