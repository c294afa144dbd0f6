/**
 * Properties of the handlers taken together, as a family is used: the code
 * a create answers with admits other users, deleting the family revokes it,
 * and an event just recorded is found by the listing and by the reminder's
 * "washed today" query.
 */
module Scenarios {
  import opened Wrappers
  import opened Text
  import opened Keys
  import opened Db
  import opened Shared
  import CreateFamily
  import JoinFamily
  import DeleteFamily
  import ListFamilies
  import CreateHandwashEvent
  import ListHandwashEvents
  import SendReminder

  /** The invite code as `makeInviteCode` returns it is already normalised: the join handler reads it unchanged. */
  lemma InviteCodeIsNormal(randomBase64: string)
    ensures JoinFamily.NormalizeCode(Some(CreateFamily.MakeInviteCode(randomBase64))) == CreateFamily.MakeInviteCode(randomBase64)
  {
    var code := CreateFamily.MakeInviteCode(randomBase64);
    CodeIsNormal(code);
  }

  /** Text of upper-case letters, digits and dashes is its own normal form. */
  lemma CodeIsNormal(code: string)
    requires forall i :: 0 <= i < |code| ==> IsUpperAlnum(code[i]) || code[i] == '-'
    ensures JoinFamily.NormalizeCode(Some(code)) == code
  {
    assert "" + code + "" == code;
    JoinFamily.NormalizeVariant("", code, "", code);
  }

  /**
   * Any other signed-in user who enters the code a successful create answered
   * with joins that family as a `member`.
   */
  lemma CreatedCodeAdmitsOthers(t: Table, owner: string, nameField: Option<string>, familyId: string,
                                randomBase64: string, sha256: string -> string, now: string,
                                joiner: string, joinedAt: string)
    requires CreateFamily.Create(t, Some(owner), nameField, familyId, randomBase64, sha256, now).out.Is(200)
    requires familyId != "" && joiner != "" && joiner != owner
    requires MembershipKey(joiner, familyId) !in t
    ensures var t1 := CreateFamily.Create(t, Some(owner), nameField, familyId, randomBase64, sha256, now).table;
      var code := CreateFamily.MakeInviteCode(randomBase64);
      JoinFamily.Join(t1, Some(joiner), Some(code), sha256, joinedAt) ==
        Step(Succeed(Joined(familyId)), t1[MembershipKey(joiner, familyId) := MembershipItem(joiner, familyId, "member", joinedAt)])
  {
    var t1 := CreateFamily.Create(t, Some(owner), nameField, familyId, randomBase64, sha256, now).table;
    var code := CreateFamily.MakeInviteCode(randomBase64);
    var key := MembershipKey(joiner, familyId);
    assert key != MembershipKey(owner, familyId) by {
      assert UserTag(joiner)[|USER_PREFIX|..] == joiner && UserTag(owner)[|USER_PREFIX|..] == owner;
    }
    CreateFamily.DistinctKeyKinds(joiner, familyId, sha256(code));
    CreatedAddsOnlyItsKeys(t, owner, nameField, familyId, randomBase64, sha256, now, key);
    CreatedInviteResolves(t, owner, nameField, familyId, randomBase64, sha256, now);
    InviteCodeIsNormal(randomBase64);
    JoinAdmits(t1, joiner, Some(code), sha256, joinedAt, familyId);
  }

  /** After a successful create the code's hash resolves to the family. */
  lemma CreatedInviteResolves(t: Table, owner: string, nameField: Option<string>, familyId: string,
                              randomBase64: string, sha256: string -> string, now: string)
    requires CreateFamily.Create(t, Some(owner), nameField, familyId, randomBase64, sha256, now).out.Is(200)
    ensures var t1 := CreateFamily.Create(t, Some(owner), nameField, familyId, randomBase64, sha256, now).table;
      JoinFamily.InvitedFamily(t1, sha256(CreateFamily.MakeInviteCode(randomBase64))) == Some(familyId)
  {
    CreateFamily.CreateSucceeds(t, Some(owner), nameField, familyId, randomBase64, sha256, now);
  }

  /** A key that was absent and is none of the three a create writes is still absent after it. */
  lemma CreatedAddsOnlyItsKeys(t: Table, owner: string, nameField: Option<string>, familyId: string,
                               randomBase64: string, sha256: string -> string, now: string, k: Key)
    requires CreateFamily.Create(t, Some(owner), nameField, familyId, randomBase64, sha256, now).out.Is(200)
    requires k !in t && k != FamilyMetaKey(familyId) && k != MembershipKey(owner, familyId)
    requires k != InviteKey(sha256(CreateFamily.MakeInviteCode(randomBase64)))
    ensures k !in CreateFamily.Create(t, Some(owner), nameField, familyId, randomBase64, sha256, now).table
  {
    CreateFamily.CreateSucceeds(t, Some(owner), nameField, familyId, randomBase64, sha256, now);
  }

  /** A code that resolves to a family the caller is not yet in admits the caller. */
  lemma JoinAdmits(t: Table, joiner: string, codeField: Option<string>, sha256: string -> string, joinedAt: string,
                   familyId: string)
    requires joiner != "" && familyId != "" && JoinFamily.NormalizeCode(codeField) != ""
    requires JoinFamily.InvitedFamily(t, sha256(JoinFamily.NormalizeCode(codeField))) == Some(familyId)
    requires MembershipKey(joiner, familyId) !in t
    ensures JoinFamily.Join(t, Some(joiner), codeField, sha256, joinedAt) ==
      Step(Succeed(Joined(familyId)), t[MembershipKey(joiner, familyId) := MembershipItem(joiner, familyId, "member", joinedAt)])
  {
  }

  /** The creator entering their own code is told they already joined. */
  lemma OwnCodeConflicts(t: Table, owner: string, nameField: Option<string>, familyId: string,
                         randomBase64: string, sha256: string -> string, now: string, joinedAt: string)
    requires CreateFamily.Create(t, Some(owner), nameField, familyId, randomBase64, sha256, now).out.Is(200)
    requires familyId != ""
    ensures var t1 := CreateFamily.Create(t, Some(owner), nameField, familyId, randomBase64, sha256, now).table;
      JoinFamily.Join(t1, Some(owner), Some(CreateFamily.MakeInviteCode(randomBase64)), sha256, joinedAt).out.Is(409)
  {
    var t1 := CreateFamily.Create(t, Some(owner), nameField, familyId, randomBase64, sha256, now).table;
    CreatedFamilyIsOwned(t, owner, nameField, familyId, randomBase64, sha256, now);
    CreatedInviteResolves(t, owner, nameField, familyId, randomBase64, sha256, now);
    InviteCodeIsNormal(randomBase64);
    JoinConflicts(t1, owner, Some(CreateFamily.MakeInviteCode(randomBase64)), sha256, joinedAt, familyId);
  }

  /** A code that resolves to a family the caller already belongs to is answered with 409. */
  lemma JoinConflicts(t: Table, joiner: string, codeField: Option<string>, sha256: string -> string, joinedAt: string,
                      familyId: string)
    requires joiner != "" && familyId != "" && JoinFamily.NormalizeCode(codeField) != ""
    requires JoinFamily.InvitedFamily(t, sha256(JoinFamily.NormalizeCode(codeField))) == Some(familyId)
    requires MembershipKey(joiner, familyId) in t
    ensures JoinFamily.Join(t, Some(joiner), codeField, sha256, joinedAt).out.Is(409)
  {
  }

  /** After a create, the family is listed under the name it was created with. */
  lemma CreatedFamilyIsNamed(t: Table, owner: string, nameField: Option<string>, familyId: string,
                             randomBase64: string, sha256: string -> string, now: string)
    requires CreateFamily.Create(t, Some(owner), nameField, familyId, randomBase64, sha256, now).out.Is(200)
    ensures var t1 := CreateFamily.Create(t, Some(owner), nameField, familyId, randomBase64, sha256, now).table;
      MembershipKey(owner, familyId) in t1 && t1[MembershipKey(owner, familyId)].familyId == Some(familyId) &&
      t1[MembershipKey(owner, familyId)].role == Some("owner") &&
      ListFamilies.KnownName(t1, Some(familyId)) == Field(nameField)
  {
    CreatedFamilyIsOwned(t, owner, nameField, familyId, randomBase64, sha256, now);
    CreatedMetaIsNamed(t, owner, nameField, familyId, randomBase64, sha256, now);
  }

  /** A successful create stores the family's META under the name given. */
  lemma CreatedMetaIsNamed(t: Table, owner: string, nameField: Option<string>, familyId: string,
                           randomBase64: string, sha256: string -> string, now: string)
    requires CreateFamily.Create(t, Some(owner), nameField, familyId, randomBase64, sha256, now).out.Is(200)
    ensures var t1 := CreateFamily.Create(t, Some(owner), nameField, familyId, randomBase64, sha256, now).table;
      FamilyMetaKey(familyId) in t1 && t1[FamilyMetaKey(familyId)].name == Some(Field(nameField))
  {
    CreateFamily.CreateSucceeds(t, Some(owner), nameField, familyId, randomBase64, sha256, now);
  }

  /**
   * Once the owner deletes the family, its invite code no longer resolves:
   * anyone entering it is told the code was not found.
   */
  lemma DeletedFamilyRevokesCode(t: Table, owner: string, nameField: Option<string>, familyId: string,
                                 randomBase64: string, sha256: string -> string, now: string,
                                 memberPage: set<Key>, eventPage: set<Key>, pushPage: set<Key>,
                                 joiner: string, joinedAt: string)
    requires CreateFamily.Create(t, Some(owner), nameField, familyId, randomBase64, sha256, now).out.Is(200)
    requires familyId != "" && !IsJsWhitespace(familyId[0]) && !IsJsWhitespace(familyId[|familyId| - 1])
    requires sha256(CreateFamily.MakeInviteCode(randomBase64)) != "" && joiner != ""
    ensures var t1 := CreateFamily.Create(t, Some(owner), nameField, familyId, randomBase64, sha256, now).table;
      var d := DeleteFamily.Delete(t1, Some(owner), Some(familyId), memberPage, eventPage, pushPage);
      d.out.Is(200) &&
      JoinFamily.Join(d.table, Some(joiner), Some(CreateFamily.MakeInviteCode(randomBase64)), sha256, joinedAt).out.Is(404)
  {
    var t1 := CreateFamily.Create(t, Some(owner), nameField, familyId, randomBase64, sha256, now).table;
    var code := CreateFamily.MakeInviteCode(randomBase64);
    CreatedFamilyIsOwned(t, owner, nameField, familyId, randomBase64, sha256, now);
    PlainIdIsField(familyId);
    OwnerDeleteDropsInvite(t1, owner, familyId, sha256(code), memberPage, eventPage, pushPage);
    var d := DeleteFamily.Delete(t1, Some(owner), Some(familyId), memberPage, eventPage, pushPage);
    InviteCodeIsNormal(randomBase64);
    UnknownCodeNotFound(d.table, joiner, code, sha256, joinedAt);
  }

  /** A successful create leaves the caller as owner, with the META naming the code's hash. */
  lemma CreatedFamilyIsOwned(t: Table, owner: string, nameField: Option<string>, familyId: string,
                             randomBase64: string, sha256: string -> string, now: string)
    requires CreateFamily.Create(t, Some(owner), nameField, familyId, randomBase64, sha256, now).out.Is(200)
    ensures var t1 := CreateFamily.Create(t, Some(owner), nameField, familyId, randomBase64, sha256, now).table;
      MembershipKey(owner, familyId) in t1 && t1[MembershipKey(owner, familyId)] == MembershipItem(owner, familyId, "owner", now) &&
      DeleteFamily.StoredInviteHash(t1, familyId) == Some(sha256(CreateFamily.MakeInviteCode(randomBase64)))
  {
    CreateFamily.CreateSucceeds(t, Some(owner), nameField, familyId, randomBase64, sha256, now);
  }

  /** An id without surrounding whitespace reads back unchanged as a request field. */
  lemma PlainIdIsField(familyId: string)
    requires familyId != "" && !IsJsWhitespace(familyId[0]) && !IsJsWhitespace(familyId[|familyId| - 1])
    ensures Field(Some(familyId)) == familyId
  {
    assert "" + familyId + "" == familyId;
    TrimPadded("", familyId, "");
  }

  /** A code whose hash maps to no family is answered with 404. */
  lemma UnknownCodeNotFound(t: Table, joiner: string, code: string, sha256: string -> string, joinedAt: string)
    requires joiner != "" && JoinFamily.NormalizeCode(Some(code)) == code && code != ""
    requires JoinFamily.InvitedFamily(t, sha256(code)) == None
    ensures JoinFamily.Join(t, Some(joiner), Some(code), sha256, joinedAt).out.Is(404)
  {
  }

  /** The owner's delete succeeds and removes the invite mapping the family's META names. */
  lemma OwnerDeleteDropsInvite(t: Table, owner: string, familyId: string, hash: string,
                               memberPage: set<Key>, eventPage: set<Key>, pushPage: set<Key>)
    requires owner != "" && familyId != "" && Field(Some(familyId)) == familyId && hash != ""
    requires MembershipKey(owner, familyId) in t && t[MembershipKey(owner, familyId)].role == Some("owner")
    requires DeleteFamily.StoredInviteHash(t, familyId) == Some(hash)
    ensures var d := DeleteFamily.Delete(t, Some(owner), Some(familyId), memberPage, eventPage, pushPage);
      d.out.Is(200) && JoinFamily.InvitedFamily(d.table, hash) == None
  {
    DeleteFamily.CascadeDeletes(t, familyId, memberPage, eventPage, pushPage);
  }

  /**
   * An event just recorded at `nowMs` is listed by any query window whose
   * bounds enclose `nowMs`, and by no window that ends before it.
   */
  lemma RecordedEventIsListed(t: Table, sub: string, familyId: string, mode: Option<string>, durationSec: Option<int>,
                              noteField: Option<string>, nowMs: int, eventId: string, from: int, to: int)
    requires 0 <= nowMs < PAD_BOUND && from < PAD_BOUND && to < PAD_BOUND && IsUuidText(eventId)
    requires CreateHandwashEvent.CreateEvent(t, Some(sub), Some(familyId), mode, durationSec, noteField, nowMs, eventId).out.Is(200)
    ensures var t1 := CreateHandwashEvent.CreateEvent(t, Some(sub), Some(familyId), mode, durationSec, noteField, nowMs, eventId).table;
      var f := Field(Some(familyId));
      (EventKey(f, nowMs, eventId) in QueryKeys(t1, FamilyTag(f), ListHandwashEvents.Window(from, to)) <==>
       ClampToZero(from) <= nowMs <= ClampToZero(to))
  {
    var f := Field(Some(familyId));
    CreateHandwashEvent.CreatedEventIsKeyed(t, Some(sub), Some(familyId), mode, durationSec, noteField, nowMs, eventId);
    var t1 := CreateHandwashEvent.CreateEvent(t, Some(sub), Some(familyId), mode, durationSec, noteField, nowMs, eventId).table;
    ListHandwashEvents.WindowIsTimeRange(t1, f, from, to, EventKey(f, nowMs, eventId));
  }

  /**
   * A user who recorded an event since midnight JST is among the washed
   * users the reminder job reads later that day, so their subscriptions are
   * skipped.
   */
  lemma RecordedTodayIsSkipped(t: Table, sub: string, familyId: string, mode: Option<string>, durationSec: Option<int>,
                               noteField: Option<string>, nowMs: int, eventId: string, laterMs: int)
    requires 0 <= SendReminder.TodayStartJst(laterMs) <= nowMs <= laterMs < PAD_BOUND && IsUuidText(eventId)
    requires CreateHandwashEvent.CreateEvent(t, Some(sub), Some(familyId), mode, durationSec, noteField, nowMs, eventId).out.Is(200)
    ensures var t1 := CreateHandwashEvent.CreateEvent(t, Some(sub), Some(familyId), mode, durationSec, noteField, nowMs, eventId).table;
      sub in SendReminder.Washed(t1, Some(Field(Some(familyId))), SendReminder.TodayStartJst(laterMs), laterMs)
  {
    var f := Field(Some(familyId));
    var start := SendReminder.TodayStartJst(laterMs);
    RecordedEventIsListed(t, sub, familyId, mode, durationSec, noteField, nowMs, eventId, start, laterMs);
    CreateHandwashEvent.CreatedEventIsKeyed(t, Some(sub), Some(familyId), mode, durationSec, noteField, nowMs, eventId);
    var t1 := CreateHandwashEvent.CreateEvent(t, Some(sub), Some(familyId), mode, durationSec, noteField, nowMs, eventId).table;
    assert EventKey(f, nowMs, eventId) in SendReminder.WashWindow(t1, Some(f), start, laterMs);
  }
}
