/**
 * create-family.ts: makes a family, its invite mapping and the creator's
 * owner membership. The family id (randomUUID), the random bytes of the
 * invite code (as their base64 text), SHA-256 and the ISO clock are inputs.
 */
module CreateFamily {
  import opened Wrappers
  import opened Text
  import opened Keys
  import opened Db
  import opened Shared

  // ---------------------------------------------------------------------------
  // makeInviteCode
  // ---------------------------------------------------------------------------

  /** `replace(/[^A-Z0-9]/gi, "")`: keeps the ASCII letters and digits, in order. */
  function KeepAlnum(s: string): (r: string)
    ensures |r| <= |s|
    ensures forall i :: 0 <= i < |r| ==> IsAsciiAlnum(r[i])
  {
    if s == [] then []
    else (if IsAsciiAlnum(s[0]) then [s[0]] else []) + KeepAlnum(s[1..])
  }

  lemma {:induction false} KeepAlnumKeepsAlnumText(s: string)
    requires forall i :: 0 <= i < |s| ==> IsAsciiAlnum(s[i])
    ensures KeepAlnum(s) == s
    decreases |s|
  {
    if s != [] {
      KeepAlnumKeepsAlnumText(s[1..]);
    }
  }

  /** The upper-cased letters and digits of the random text. */
  function RawCode(randomBase64: string): (raw: string)
    ensures forall i :: 0 <= i < |raw| ==> IsUpperAlnum(raw[i])
  {
    ToUpperAscii(KeepAlnum(randomBase64))
  }

  /** Character `i` of `(raw + "XXXXXXXX").slice(0, 8)`. */
  function CodeChar(raw: string, i: nat): char {
    if i < |raw| then raw[i] else 'X'
  }

  /** `makeInviteCode()`: `AAAA-BBBB` from the first eight letters or digits, padded with `X`. */
  function MakeInviteCode(randomBase64: string): (code: string)
    ensures |code| == 9 && code[4] == '-'
    ensures forall i :: 0 <= i < 4 ==> code[i] == CodeChar(RawCode(randomBase64), i)
    ensures forall i :: 5 <= i < 9 ==> code[i] == CodeChar(RawCode(randomBase64), i - 1)
    ensures forall i :: 0 <= i < 9 && i != 4 ==> IsUpperAlnum(code[i])
  {
    var raw := RawCode(randomBase64);
    var padded := Prefix(raw + "XXXXXXXX", 8);
    assert forall i :: 0 <= i < 8 ==> padded[i] == CodeChar(raw, i);
    Prefix(padded, 4) + "-" + padded[4..8]
  }

  /** When the random text has eight letters or digits, the code is exactly those, split by `-`. */
  lemma InviteCodeFromLongRaw(randomBase64: string)
    requires |RawCode(randomBase64)| >= 8
    ensures MakeInviteCode(randomBase64) == RawCode(randomBase64)[..4] + "-" + RawCode(randomBase64)[4..8]
  {
    var raw := RawCode(randomBase64);
    var code := MakeInviteCode(randomBase64);
    var expected := raw[..4] + "-" + raw[4..8];
    assert |expected| == 9;
    forall i | 0 <= i < 9 ensures code[i] == expected[i] {
    }
  }

  /** Six random bytes encode to eight base64 characters; when all eight are letters or digits the code is their upper-cased form. */
  lemma InviteCodeFromAlnumBase64(randomBase64: string)
    requires |randomBase64| == 8 && forall i :: 0 <= i < 8 ==> IsAsciiAlnum(randomBase64[i])
    ensures MakeInviteCode(randomBase64) == ToUpperAscii(randomBase64[..4]) + "-" + ToUpperAscii(randomBase64[4..])
  {
    KeepAlnumKeepsAlnumText(randomBase64);
    InviteCodeFromLongRaw(randomBase64);
    var raw := RawCode(randomBase64);
    assert raw[..4] == ToUpperAscii(randomBase64[..4]);
    assert raw[4..8] == ToUpperAscii(randomBase64[4..]);
  }

  // ---------------------------------------------------------------------------
  // The three items
  // ---------------------------------------------------------------------------

  function FamilyMetaItem(familyId: string, name: string, now: string, sub: string, inviteHash: string): Item {
    NoAttributes.(familyId := Some(familyId), name := Some(name), createdAt := Some(now),
                  createdBy := Some(sub), inviteHash := Some(inviteHash))
  }

  function InviteItem(familyId: string, now: string): Item {
    NoAttributes.(familyId := Some(familyId), createdAt := Some(now))
  }

  // ---------------------------------------------------------------------------
  // The handler
  // ---------------------------------------------------------------------------

  /**
   * What the handler does to table `t`: 400 for a blank name; otherwise the
   * conditional META put, the conditional INVITE put and the unconditional
   * owner membership put, in that order, each failed condition throwing.
   */
  function Create(t: Table, claimSub: Option<string>, nameField: Option<string>, familyId: string,
                  randomBase64: string, sha256: string -> string, now: string): (r: Step)
    ensures !Truthy(claimSub) ==> r == Step(Threw(MISSING_SUB), t)
    ensures Truthy(claimSub) && Field(nameField) == "" ==> r == Step(Fail(400, "name is required"), t)
    ensures r.out.Threw? && Truthy(claimSub) ==> r.out.error == CONDITION_FAILED
    ensures r.out.Is(200) || r.out.Is(400) || r.out.Threw?
  {
    var s := GetSub(claimSub);
    if s.Err? then Step(Threw(s.error), t)
    else
      var sub := s.value;
      var name := Field(nameField);
      if name == "" then Step(Fail(400, "name is required"), t)
      else
        var code := MakeInviteCode(randomBase64);
        var hash := sha256(code);
        var metaKey := FamilyMetaKey(familyId);
        var inviteKey := InviteKey(hash);
        if metaKey in t then Step(Threw(CONDITION_FAILED), t)
        else
          var t1 := t[metaKey := FamilyMetaItem(familyId, name, now, sub, hash)];
          if inviteKey in t1 then Step(Threw(CONDITION_FAILED), t1)
          else
            var t2 := t1[inviteKey := InviteItem(familyId, now)];
            Step(Succeed(FamilyCreated(familyId, name, code)),
                 t2[MembershipKey(sub, familyId) := MembershipItem(sub, familyId, "owner", now)])
  }

  /** Create succeeds exactly when there is a subject and a name and neither the META nor the INVITE key is taken. */
  lemma CreateSucceedsIff(t: Table, claimSub: Option<string>, nameField: Option<string>, familyId: string,
                          randomBase64: string, sha256: string -> string, now: string)
    ensures Create(t, claimSub, nameField, familyId, randomBase64, sha256, now).out.Is(200) <==>
      Truthy(claimSub) && Field(nameField) != "" &&
      FamilyMetaKey(familyId) !in t && InviteKey(sha256(MakeInviteCode(randomBase64))) !in t
  {
    if Truthy(claimSub) && Field(nameField) != "" {
      DistinctKeyKinds(claimSub.value, familyId, sha256(MakeInviteCode(randomBase64)));
    }
  }

  /** A successful create answers with the name and the code whose hash it stored, and adds exactly the three items. */
  lemma CreateSucceeds(t: Table, claimSub: Option<string>, nameField: Option<string>, familyId: string,
                       randomBase64: string, sha256: string -> string, now: string)
    requires Create(t, claimSub, nameField, familyId, randomBase64, sha256, now).out.Is(200)
    ensures var r := Create(t, claimSub, nameField, familyId, randomBase64, sha256, now);
      var code := MakeInviteCode(randomBase64);
      var hash := sha256(code);
      var sub := claimSub.value;
      r.out.response.body == FamilyCreated(familyId, Field(nameField), code)
    ensures var r := Create(t, claimSub, nameField, familyId, randomBase64, sha256, now);
      var hash := sha256(MakeInviteCode(randomBase64));
      r.table.Keys == t.Keys + {FamilyMetaKey(familyId), InviteKey(hash), MembershipKey(claimSub.value, familyId)}
    ensures var r := Create(t, claimSub, nameField, familyId, randomBase64, sha256, now);
      var hash := sha256(MakeInviteCode(randomBase64));
      r.table[FamilyMetaKey(familyId)].inviteHash == Some(hash) &&
      r.table[FamilyMetaKey(familyId)].name == Some(Field(nameField)) &&
      r.table[InviteKey(hash)].familyId == Some(familyId)
    ensures var r := Create(t, claimSub, nameField, familyId, randomBase64, sha256, now);
      r.table[MembershipKey(claimSub.value, familyId)] == MembershipItem(claimSub.value, familyId, "owner", now)
    ensures var r := Create(t, claimSub, nameField, familyId, randomBase64, sha256, now);
      forall k :: k in t && k != MembershipKey(claimSub.value, familyId) ==> r.table[k] == t[k]
  {
    var r := Create(t, claimSub, nameField, familyId, randomBase64, sha256, now);
    var sub, name := claimSub.value, Field(nameField);
    var code := MakeInviteCode(randomBase64);
    var hash := sha256(code);
    DistinctKeyKinds(sub, familyId, hash);
    assert FamilyMetaKey(familyId) !in t && InviteKey(hash) !in t;
    assert r.table == ThreePuts(t, sub, familyId, name, now, hash);
    ThreePutsEffect(t, sub, familyId, name, now, hash);
  }

  /**
   * A taken META key throws before any write. A taken INVITE key throws after
   * the META put, which is not undone: the family's META is left behind
   * without its invite mapping or an owner membership.
   */
  lemma CreateFailsPartway(t: Table, claimSub: Option<string>, nameField: Option<string>, familyId: string,
                           randomBase64: string, sha256: string -> string, now: string)
    requires Truthy(claimSub) && Field(nameField) != ""
    ensures var r := Create(t, claimSub, nameField, familyId, randomBase64, sha256, now);
      FamilyMetaKey(familyId) in t ==> r == Step(Threw(CONDITION_FAILED), t)
    ensures var r := Create(t, claimSub, nameField, familyId, randomBase64, sha256, now);
      var hash := sha256(MakeInviteCode(randomBase64));
      FamilyMetaKey(familyId) !in t && InviteKey(hash) in t ==>
        r.out == Threw(CONDITION_FAILED) &&
        r.table == t[FamilyMetaKey(familyId) := FamilyMetaItem(familyId, Field(nameField), now, claimSub.value, hash)] &&
        (MembershipKey(claimSub.value, familyId) !in t ==> MembershipKey(claimSub.value, familyId) !in r.table)
  {
    DistinctKeyKinds(claimSub.value, familyId, sha256(MakeInviteCode(randomBase64)));
  }

  /** The table after the META, INVITE and membership puts of one create. */
  function ThreePuts(t: Table, sub: string, familyId: string, name: string, now: string, hash: string): Table {
    t[FamilyMetaKey(familyId) := FamilyMetaItem(familyId, name, now, sub, hash)]
     [InviteKey(hash) := InviteItem(familyId, now)]
     [MembershipKey(sub, familyId) := MembershipItem(sub, familyId, "owner", now)]
  }

  /** The three puts on fresh META and INVITE keys add exactly those items and the owner's membership. */
  lemma ThreePutsEffect(t: Table, sub: string, familyId: string, name: string, now: string, hash: string)
    requires FamilyMetaKey(familyId) !in t && InviteKey(hash) !in t
    ensures var r := ThreePuts(t, sub, familyId, name, now, hash);
      r.Keys == t.Keys + {FamilyMetaKey(familyId), InviteKey(hash), MembershipKey(sub, familyId)} &&
      r[FamilyMetaKey(familyId)] == FamilyMetaItem(familyId, name, now, sub, hash) &&
      r[InviteKey(hash)] == InviteItem(familyId, now) &&
      r[MembershipKey(sub, familyId)] == MembershipItem(sub, familyId, "owner", now) &&
      forall k :: k in t && k != MembershipKey(sub, familyId) ==> r[k] == t[k]
  {
    DistinctKeyKinds(sub, familyId, hash);
  }

  /** The META, INVITE and membership keys of one create are three different keys. */
  lemma DistinctKeyKinds(sub: string, familyId: string, hash: string)
    ensures FamilyMetaKey(familyId) != InviteKey(hash)
    ensures MembershipKey(sub, familyId) != InviteKey(hash)
    ensures MembershipKey(sub, familyId) != FamilyMetaKey(familyId)
  {
    assert FamilyMetaKey(familyId).pk[0] == 'F' && InviteKey(hash).pk[0] == 'I';
    assert MembershipKey(sub, familyId).pk[0] == 'U';
  }

  /** Create writes only items that fit the schema. */
  lemma CreateKeepsSchema(t: Table, claimSub: Option<string>, nameField: Option<string>, familyId: string,
                          randomBase64: string, sha256: string -> string, now: string)
    requires Schema(t)
    ensures Schema(Create(t, claimSub, nameField, familyId, randomBase64, sha256, now).table)
  {
    var r := Create(t, claimSub, nameField, familyId, randomBase64, sha256, now);
    if Truthy(claimSub) && Field(nameField) != "" && FamilyMetaKey(familyId) !in t {
      var sub := claimSub.value;
      var hash := sha256(MakeInviteCode(randomBase64));
      var t1 := t[FamilyMetaKey(familyId) := FamilyMetaItem(familyId, Field(nameField), now, sub, hash)];
      MetaPutKeepsSchema(t, familyId, Field(nameField), now, sub, hash);
      if InviteKey(hash) !in t1 {
        var t2 := t1[InviteKey(hash) := InviteItem(familyId, now)];
        InvitePutKeepsSchema(t1, hash, familyId, now);
        MembershipItemShaped(sub, familyId, "owner", now);
        SchemaPut(t2, MembershipKey(sub, familyId), MembershipItem(sub, familyId, "owner", now));
      }
    }
  }

  lemma MetaPutKeepsSchema(t: Table, familyId: string, name: string, now: string, sub: string, hash: string)
    ensures Schema(t) ==> Schema(t[FamilyMetaKey(familyId) := FamilyMetaItem(familyId, name, now, sub, hash)])
  {
    PrefixOfConcat(FAMILY_PREFIX, familyId);
    if Schema(t) {
      SchemaPut(t, FamilyMetaKey(familyId), FamilyMetaItem(familyId, name, now, sub, hash));
    }
  }

  lemma InvitePutKeepsSchema(t: Table, hash: string, familyId: string, now: string)
    ensures Schema(t) ==> Schema(t[InviteKey(hash) := InviteItem(familyId, now)])
  {
    assert InviteKey(hash).pk[0] == 'I';
    if Schema(t) {
      SchemaPut(t, InviteKey(hash), InviteItem(familyId, now));
    }
  }

  /** The handler: the three puts against the store, as `Create` describes. */
  method Handler(store: Store, claimSub: Option<string>, nameField: Option<string>, familyId: string,
                 randomBase64: string, sha256: string -> string, now: string) returns (out: Outcome)
    modifies store
    ensures Step(out, store.table) == Create(old(store.table), claimSub, nameField, familyId, randomBase64, sha256, now)
  {
    var s := GetSub(claimSub);
    if s.Err? {
      return Threw(s.error);
    }
    var sub := s.value;
    var name := Field(nameField);
    if name == "" {
      return Fail(400, "name is required");
    }
    var code := MakeInviteCode(randomBase64);
    var hash := sha256(code);
    var written := store.PutIfAbsent(FamilyMetaKey(familyId), FamilyMetaItem(familyId, name, now, sub, hash));
    if !written {
      return Threw(CONDITION_FAILED);
    }
    written := store.PutIfAbsent(InviteKey(hash), InviteItem(familyId, now));
    if !written {
      return Threw(CONDITION_FAILED);
    }
    store.Put(MembershipKey(sub, familyId), MembershipItem(sub, familyId, "owner", now));
    return Succeed(FamilyCreated(familyId, name, code));
  }
}
