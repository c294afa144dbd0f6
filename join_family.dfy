/**
 * join-family.ts: resolves an invite code to its family through the
 * `INVITE#hash / META` mapping and adds a `member` membership, unless the
 * caller already has one.
 */
module JoinFamily {
  import opened Wrappers
  import opened Text
  import opened Keys
  import opened Db
  import opened Shared

  /** `String(body.inviteCode ?? "").trim().toUpperCase()`. */
  function NormalizeCode(codeField: Option<string>): string {
    ToUpperAscii(Trim(codeField.GetOr("")))
  }

  /** The `familyId` the invite mapping for `hash` holds, if any. */
  function InvitedFamily(t: Table, hash: string): Option<string> {
    if InviteKey(hash) in t then t[InviteKey(hash)].familyId else None
  }

  /**
   * What the handler does to `t`: 400 for a blank code, 404 when the code's
   * hash maps to no family, 409 when the conditional membership put finds an
   * item already there, otherwise a new `member` membership.
   */
  function Join(t: Table, claimSub: Option<string>, codeField: Option<string>,
                sha256: string -> string, now: string): (r: Step)
    ensures !Truthy(claimSub) ==> r == Step(Threw(MISSING_SUB), t)
    ensures !r.out.Is(200) ==> r.table == t
    ensures r.out.Is(400) <==> Truthy(claimSub) && NormalizeCode(codeField) == ""
    ensures r.out.Is(404) <==>
      Truthy(claimSub) && NormalizeCode(codeField) != "" &&
      !Truthy(InvitedFamily(t, sha256(NormalizeCode(codeField))))
    ensures r.out.Is(409) <==>
      Truthy(claimSub) && NormalizeCode(codeField) != "" &&
      Truthy(InvitedFamily(t, sha256(NormalizeCode(codeField)))) &&
      MembershipKey(claimSub.value, InvitedFamily(t, sha256(NormalizeCode(codeField))).value) in t
    ensures r.out.Is(200) ==>
      var familyId := InvitedFamily(t, sha256(NormalizeCode(codeField))).value;
      r.out.response.body == Joined(familyId) &&
      MembershipKey(claimSub.value, familyId) !in t &&
      r.table == t[MembershipKey(claimSub.value, familyId) := MembershipItem(claimSub.value, familyId, "member", now)]
  {
    var s := GetSub(claimSub);
    if s.Err? then Step(Threw(s.error), t)
    else JoinWithCode(t, s.value, NormalizeCode(codeField), sha256, now)
  }

  /** The handler once the caller is known, on the normalised code. */
  function JoinWithCode(t: Table, sub: string, code: string, sha256: string -> string, now: string): Step {
    if code == "" then Step(Fail(400, "inviteCode is required"), t)
    else
      var family := InvitedFamily(t, sha256(code));
      if !Truthy(family) then Step(Fail(404, "invite code not found"), t)
      else
        var key := MembershipKey(sub, family.value);
        if key in t then Step(Fail(409, "already joined"), t)
        else Step(Succeed(Joined(family.value)), t[key := MembershipItem(sub, family.value, "member", now)])
  }

  /** Join writes only a well-formed membership. */
  lemma JoinKeepsSchema(t: Table, claimSub: Option<string>, codeField: Option<string>,
                        sha256: string -> string, now: string)
    requires Schema(t)
    ensures Schema(Join(t, claimSub, codeField, sha256, now).table)
  {
    var r := Join(t, claimSub, codeField, sha256, now);
    if r.out.Is(200) {
      var familyId := InvitedFamily(t, sha256(NormalizeCode(codeField))).value;
      MembershipItemShaped(claimSub.value, familyId, "member", now);
      SchemaPut(t, MembershipKey(claimSub.value, familyId), MembershipItem(claimSub.value, familyId, "member", now));
    }
  }

  /** Joining again is refused with 409 and changes nothing, whatever the first join stored. */
  lemma {:induction false} JoinTwice(t: Table, claimSub: Option<string>, codeField: Option<string>,
                                     sha256: string -> string, now1: string, now2: string)
    requires Join(t, claimSub, codeField, sha256, now1).out.Is(200)
    ensures var t1 := Join(t, claimSub, codeField, sha256, now1).table;
      Join(t1, claimSub, codeField, sha256, now2) == Step(Fail(409, "already joined"), t1)
  {
    var t1 := Join(t, claimSub, codeField, sha256, now1).table;
    var code := NormalizeCode(codeField);
    var familyId := InvitedFamily(t, sha256(code)).value;
    var key := MembershipKey(claimSub.value, familyId);
    MembershipKeyParts(claimSub.value, familyId);
    assert key != InviteKey(sha256(code)) by {
      assert key.pk[0] == 'U' && InviteKey(sha256(code)).pk[0] == 'I';
    }
    assert InvitedFamily(t1, sha256(code)) == InvitedFamily(t, sha256(code));
  }

  /** A code typed in lower case or with surrounding whitespace normalises to the code itself. */
  lemma NormalizeVariant(w1: string, typed: string, w2: string, code: string)
    requires AllWhitespace(w1) && AllWhitespace(w2)
    requires |typed| == |code| && forall i :: 0 <= i < |code| ==> UpperChar(typed[i]) == code[i]
    requires forall i :: 0 <= i < |code| ==> IsUpperAlnum(code[i]) || code[i] == '-'
    ensures NormalizeCode(Some(w1 + typed + w2)) == code
  {
    if typed != [] {
      NotWhitespaceUnderUpper(typed[0], code[0]);
      NotWhitespaceUnderUpper(typed[|typed| - 1], code[|code| - 1]);
    }
    TrimPadded(w1, typed, w2);
  }

  lemma NotWhitespaceUnderUpper(c: char, u: char)
    requires UpperChar(c) == u && (IsUpperAlnum(u) || u == '-')
    ensures !IsJsWhitespace(c)
  {
  }

  /** Variants that normalise to the same code join the same way. */
  lemma VariantsJoinAlike(t: Table, claimSub: Option<string>, a: Option<string>, b: Option<string>,
                          sha256: string -> string, now: string)
    requires NormalizeCode(a) == NormalizeCode(b)
    ensures Join(t, claimSub, a, sha256, now) == Join(t, claimSub, b, sha256, now)
  {
    if Truthy(claimSub) {
      JoinUnfolds(t, claimSub, a, sha256, now);
      JoinUnfolds(t, claimSub, b, sha256, now);
    }
  }

  /** Once the caller is known, joining depends on the form field only through its normalised code. */
  lemma JoinUnfolds(t: Table, claimSub: Option<string>, codeField: Option<string>,
                    sha256: string -> string, now: string)
    requires Truthy(claimSub)
    ensures Join(t, claimSub, codeField, sha256, now) ==
            JoinWithCode(t, claimSub.value, NormalizeCode(codeField), sha256, now)
  {
  }

  /** The handler: a Get of the invite mapping, then the conditional membership put. */
  method Handler(store: Store, claimSub: Option<string>, codeField: Option<string>,
                 sha256: string -> string, now: string) returns (out: Outcome)
    modifies store
    ensures Step(out, store.table) == Join(old(store.table), claimSub, codeField, sha256, now)
  {
    var s := GetSub(claimSub);
    if s.Err? {
      return Threw(s.error);
    }
    var sub := s.value;
    var code := NormalizeCode(codeField);
    if code == "" {
      return Fail(400, "inviteCode is required");
    }
    var invite := store.Get(InviteKey(sha256(code)));
    var family := if invite.Some? then invite.value.familyId else None;
    if !Truthy(family) {
      return Fail(404, "invite code not found");
    }
    var written := store.PutIfAbsent(MembershipKey(sub, family.value), MembershipItem(sub, family.value, "member", now));
    if !written {
      return Fail(409, "already joined");
    }
    return Succeed(Joined(family.value));
  }
}
