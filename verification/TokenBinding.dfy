/**
 Who a session belongs to and how long its tokens live: the client a renewal binds, exactly
 when a refresh token may be renewed, and what ties an access token to its session.
 */
module TokenBinding {
  import opened Common
  import opened Tokens
  import TokenFamilies

  // ----- what one minting signs -----

  /** An access and a refresh token signed together at `now`, and the refresh row. */
  ghost predicate Minted(s: Store, s': Store, principal: string, user: int, family: Family, client: Option<string>,
                         a: Jti, r: Jti, now: int)
  {
    && a in s'.signed && s'.signed[a] == Access(principal, user, now / 1000 + s.accessTtl, family, client)
    && r in s'.signed && s'.signed[r] == Refresh(principal, user, now / 1000 + s.refreshTtl, family, client)
    && r in s'.rows && !s'.rows[r].used && s'.rows[r].replacedBy.None? && s'.rows[r].revoked.None?
    && Matches(s'.signed[r], s'.rows[r])
    && (forall j :: j in s'.signed && j != a && j != r ==> j in s.signed && s'.signed[j] == s.signed[j])
    && (forall j :: j in s.signed && j != a && j != r ==> j in s'.signed)
  }

  lemma MintSigns(s: Store, principal: string, user: int, family: Family, client: Option<string>, a: Jti, r: Jti, now: int)
    requires Fresh(s, a, r)
    ensures Minted(s, MintPair(s, principal, user, family, client, a, r, now), principal, user, family, client, a, r, now)
  {
  }

  /** A token is good for whole seconds: from `exp` on, to the millisecond, it is refused. */
  lemma GoodUntil(s: Store, jti: Jti, now: int)
    requires jti in s.signed
    ensures Verified(s, jti, now) <==> now < s.signed[jti].exp * 1000
    ensures Accepted(s, jti, now) <==> now < s.signed[jti].exp * 1000 && jti !in s.tombstones
  {
  }

  // ----- renewing -----

  /** The client a session has after a renewal: its own, or else the one that renewed it, if that has a name. */
  function BoundClient(before: Option<string>, request: RequestClient): Option<string> {
    match (before, request)
    case (Some(name), _) => Some(name)
    case (None, Named(name)) => Some(name)
    case (None, Unnamed) => None
  }

  /** The renewing client may renew: the session has no client yet, or this very one. */
  predicate IsClientOf(session: Option<string>, request: RequestClient) {
    session.None? || (request.Named? && session == Some(request.name))
  }

  lemma DecisionExactly(session: Option<string>, request: RequestClient)
    ensures SessionClientDecision(session, request) == Mismatch <==> !IsClientOf(session, request)
    ensures SessionClientDecision(session, request) == Bind <==> session.None? && request.Named?
  {
  }

  /**
   In every reachable store a refresh token is renewed exactly when it has a row that is unspent,
   unrevoked and unexpired, and the renewing client is the session's or the first.
   */
  lemma RenewsExactly(s: Store, jti: Jti, user: int, client: RequestClient, a: Jti, r: Jti, now: int)
    requires SignedInv(s)
    ensures Rotate(s, jti, user, client, a, r, now).1.Rotated? <==>
              && jti in s.rows && !s.rows[jti].used && s.rows[jti].revoked.None?
              && now < s.rows[jti].expiresAt && IsClientOf(s.rows[jti].client, client)
  {
    if jti in s.rows {
      assert Matches(s.signed[jti], s.rows[jti]);
      DecisionExactly(s.rows[jti].client, client);
    }
  }

  /**
   A renewal signs both new tokens, in the same family and account and for the bound client, with
   the lifetimes of a fresh session, and says whether it bound the session.
   */
  lemma RenewalBinds(s: Store, jti: Jti, user: int, client: RequestClient, a: Jti, r: Jti, now: int)
    requires SignedInv(s) && Fresh(s, a, r) && Rotate(s, jti, user, client, a, r, now).1.Rotated?
    ensures var rotation, row := Rotate(s, jti, user, client, a, r, now), s.rows[jti];
            && Minted(s, rotation.0, row.principal, user, row.family, BoundClient(row.client, client), a, r, now)
            && (rotation.1.bound <==> row.client.None? && client.Named?)
            && rotation.0.tombstones == s.tombstones
  {
    var row := s.rows[jti];
    DecisionExactly(row.client, client);
    MintSigns(s, row.principal, user, row.family, BoundClient(row.client, client), a, r, now);
    assert jti != r && jti != a;
  }

  // ----- a bound family stays bound -----

  /** The family's unspent row, if it has one, carries the client. */
  ghost predicate BoundTo(s: Store, family: Family, name: string) {
    && OfFamily(s, family) != {}
    && forall j :: j in s.rows && s.rows[j].family == family && !s.rows[j].used ==> s.rows[j].client == Some(name)
  }

  lemma ReplacingKeepsBound(s: Store, s': Store, jti: Jti, r: Jti, family: Family, name: string)
    requires BoundTo(s, family, name) && TokenFamilies.Replaces(s.rows, s'.rows, jti, r) && !s.rows[jti].used
    ensures BoundTo(s', family, name)
  {
    assert OfFamily(s, family) <= OfFamily(s', family);
  }

  lemma RenewKeepsBound(s: Store, op: Op, family: Family, name: string)
    requires Inv(s) && BoundTo(s, family, name) && Enabled(s, op) && op.Renew?
    ensures BoundTo(Step(s, op), family, name)
  {
    var rotation := Rotate(s, op.jti, op.user, op.client, op.accessJti, op.refreshJti, op.now);
    assert Step(s, op) == rotation.0;
    if rotation.1.Rotated? {
      TokenFamilies.RotationMovesRows(s, op.jti, op.user, op.client, op.accessJti, op.refreshJti, op.now);
      ReplacingKeepsBound(s, rotation.0, op.jti, op.refreshJti, family, name);
    } else {
      TokenFamilies.RefusedRotation(s, op.jti, op.user, op.client, op.accessJti, op.refreshJti, op.now);
      if rotation.1 == Refused(Reused) {
        RevokeKeepsBound(s, OfFamily(s, s.rows[op.jti].family), "rotation_reuse", family, name);
      }
    }
  }

  lemma RevokeKeepsBound(s: Store, which: set<Jti>, reason: string, family: Family, name: string)
    requires BoundTo(s, family, name)
    ensures BoundTo(Revoke(s, which, reason), family, name)
  {
    assert OfFamily(Revoke(s, which, reason), family) == OfFamily(s, family);
  }

  lemma EndKeepsBound(s: Store, op: Op, family: Family, name: string)
    requires BoundTo(s, family, name) && (op.EndFamily? || op.EndPrincipal? || op.EndOthers?)
    ensures BoundTo(Step(s, op), family, name)
  {
    match op
    case EndFamily(other, reason) => RevokeKeepsBound(s, OfFamily(s, other), reason, family, name);
    case EndPrincipal(principal, reason) => RevokeKeepsBound(s, OfPrincipal(s, principal), reason, family, name);
    case EndOthers(principal, kept, reason) =>
      RevokeKeepsBound(s, OfPrincipal(s, principal), reason, family, name);
      if kept.Some? {
        RevokeKeepsBound(s, OfPrincipal(s, principal) - OfFamily(s, kept.value), reason, family, name);
      }
  }

  lemma IssueKeepsBound(s: Store, op: Op, family: Family, name: string)
    requires SignedInv(s) && BoundTo(s, family, name) && Enabled(s, op) && op.Issue?
    ensures BoundTo(Step(s, op), family, name)
  {
    assert op.family != family;
    assert OfFamily(s, family) <= OfFamily(Step(s, op), family);
  }

  lemma StepKeepsBound(s: Store, op: Op, family: Family, name: string)
    requires Inv(s) && BoundTo(s, family, name)
    ensures BoundTo(Step(s, op), family, name)
  {
    if op.EndFamily? || op.EndPrincipal? || op.EndOthers? {
      EndKeepsBound(s, op, family, name);
    } else if !Enabled(s, op) {
      assert Step(s, op) == s;
    } else if op.Renew? {
      RenewKeepsBound(s, op, family, name);
    } else if op.Issue? {
      IssueKeepsBound(s, op, family, name);
    } else {
      assert OfFamily(Step(s, op), family) == OfFamily(s, family);
    }
  }

  /** Once a named client has renewed a session, nobody else renews it, over every further run. */
  lemma {:induction false} BoundStays(s: Store, ops: seq<Op>, family: Family, name: string)
    requires Inv(s) && BoundTo(s, family, name)
    ensures BoundTo(Run(s, ops), family, name)
    decreases |ops|
  {
    if ops != [] {
      StepKeepsBound(s, ops[0], family, name);
      TokenFamilies.StepKeepsInv(s, ops[0]);
      BoundStays(Step(s, ops[0]), ops[1..], family, name);
    }
  }

  /** A renewal by a named client leaves its family bound to that name, for the family's one unspent row is the new one. */
  lemma NamedRenewalBinds(s: Store, jti: Jti, user: int, name: string, a: Jti, r: Jti, now: int)
    requires Inv(s) && Fresh(s, a, r) && Rotate(s, jti, user, Named(name), a, r, now).1.Rotated?
    requires user == s.signed[jti].uid
    ensures BoundTo(Rotate(s, jti, user, Named(name), a, r, now).0, s.rows[jti].family, name)
  {
    var s', family := Rotate(s, jti, user, Named(name), a, r, now).0, s.rows[jti].family;
    RenewsExactly(s, jti, user, Named(name), a, r, now);
    RenewalBinds(s, jti, user, Named(name), a, r, now);
    TokenFamilies.RotatedKeepsInv(s, jti, user, Named(name), a, r, now);
    assert r in OfFamily(s', family);
    forall j | j in s'.rows && s'.rows[j].family == family && !s'.rows[j].used
      ensures s'.rows[j].client == Some(name)
    {
      TokenFamilies.OneAccountPerFamily(s'.rows, j, r);
    }
  }

  /** A session issued to a named client is bound to it from the start. */
  lemma NamedIssueBinds(s: Store, principal: string, user: int, family: Family, name: string, a: Jti, r: Jti, now: int)
    requires Inv(s) && Fresh(s, a, r) && OfFamily(s, family) == {}
    ensures BoundTo(MintPair(s, principal, user, family, Some(name), a, r, now), family, name)
  {
    var s' := MintPair(s, principal, user, family, Some(name), a, r, now);
    assert r in OfFamily(s', family);
    assert forall j :: j in s.rows && s.rows[j].family == family ==> j in OfFamily(s, family);
  }

  // ----- access tokens belong to their session -----

  /** The refresh row signed together with an access token. */
  ghost predicate Partner(s: Store, token: Token, row: Row)
    requires token.Access?
  {
    && row.family == token.fam && row.principal == token.sub && row.user == token.uid && row.client == token.azp
    && row.expiresAt == (token.exp - s.accessTtl + s.refreshTtl) * 1000
  }

  ghost predicate HasPartner(s: Store, token: Token)
    requires token.Access?
  {
    exists r :: r in s.rows && Partner(s, token, s.rows[r])
  }

  ghost predicate AccessInv(s: Store) {
    forall j :: j in s.signed && s.signed[j].Access? ==> HasPartner(s, s.signed[j])
  }

  /** Rows keep their family, account, client and expiry. */
  ghost predicate RowsPersist(s: Store, s': Store) {
    && s'.accessTtl == s.accessTtl && s'.refreshTtl == s.refreshTtl
    && forall r :: r in s.rows ==>
         && r in s'.rows && s'.rows[r].family == s.rows[r].family && s'.rows[r].principal == s.rows[r].principal
         && s'.rows[r].user == s.rows[r].user && s'.rows[r].client == s.rows[r].client
         && s'.rows[r].expiresAt == s.rows[r].expiresAt
  }

  lemma PartnerPersists(s: Store, s': Store, token: Token)
    requires token.Access? && HasPartner(s, token) && RowsPersist(s, s')
    ensures HasPartner(s', token)
  {
    var r :| r in s.rows && Partner(s, token, s.rows[r]);
    assert Partner(s', token, s'.rows[r]);
  }

  lemma MintKeepsAccess(s: Store, s': Store, principal: string, user: int, family: Family, client: Option<string>,
                        a: Jti, r: Jti, now: int)
    requires AccessInv(s) && RowsPersist(s, s') && Minted(s, s', principal, user, family, client, a, r, now)
    ensures AccessInv(s')
  {
    forall j | j in s'.signed && s'.signed[j].Access?
      ensures HasPartner(s', s'.signed[j])
    {
      if j == a {
        assert Partner(s', s'.signed[a], s'.rows[r]);
      } else {
        PartnerPersists(s, s', s.signed[j]);
      }
    }
  }

  lemma SameSignedKeepsAccess(s: Store, s': Store)
    requires AccessInv(s) && RowsPersist(s, s')
    requires forall j :: j in s'.signed && s'.signed[j].Access? ==> j in s.signed && s.signed[j] == s'.signed[j]
    ensures AccessInv(s')
  {
    forall j | j in s'.signed && s'.signed[j].Access?
      ensures HasPartner(s', s'.signed[j])
    {
      PartnerPersists(s, s', s.signed[j]);
    }
  }

  lemma RotationPersists(s: Store, jti: Jti, user: int, client: RequestClient, a: Jti, r: Jti, now: int)
    requires SignedInv(s) && Fresh(s, a, r)
    ensures RowsPersist(s, Rotate(s, jti, user, client, a, r, now).0)
  {
    if Rotate(s, jti, user, client, a, r, now).1.Rotated? {
      RotatedPersists(s, jti, user, client, a, r, now);
    } else {
      TokenFamilies.RefusedRotation(s, jti, user, client, a, r, now);
    }
  }

  lemma RotatedPersists(s: Store, jti: Jti, user: int, client: RequestClient, a: Jti, r: Jti, now: int)
    requires SignedInv(s) && Fresh(s, a, r) && Rotate(s, jti, user, client, a, r, now).1.Rotated?
    ensures RowsPersist(s, Rotate(s, jti, user, client, a, r, now).0)
  {
    var rows, rows' := s.rows, Rotate(s, jti, user, client, a, r, now).0.rows;
    assert r !in rows;
    assert rows' == rows[r := rows'[r]][jti := rows[jti].(used := true, replacedBy := Some(r))];
  }

  lemma RotatedKeepsAccess(s: Store, op: Op)
    requires Inv(s) && AccessInv(s) && Enabled(s, op) && op.Renew?
    requires Rotate(s, op.jti, op.user, op.client, op.accessJti, op.refreshJti, op.now).1.Rotated?
    ensures AccessInv(Rotate(s, op.jti, op.user, op.client, op.accessJti, op.refreshJti, op.now).0)
  {
    var s' := Rotate(s, op.jti, op.user, op.client, op.accessJti, op.refreshJti, op.now).0;
    var row := s.rows[op.jti];
    RenewalBinds(s, op.jti, op.user, op.client, op.accessJti, op.refreshJti, op.now);
    RotationPersists(s, op.jti, op.user, op.client, op.accessJti, op.refreshJti, op.now);
    MintKeepsAccess(s, s', row.principal, op.user, row.family, BoundClient(row.client, op.client),
                    op.accessJti, op.refreshJti, op.now);
  }

  lemma RenewKeepsAccess(s: Store, op: Op)
    requires Inv(s) && AccessInv(s) && Enabled(s, op) && op.Renew?
    ensures AccessInv(Step(s, op))
  {
    var rotation := Rotate(s, op.jti, op.user, op.client, op.accessJti, op.refreshJti, op.now);
    assert Step(s, op) == rotation.0;
    if rotation.1.Rotated? {
      RotatedKeepsAccess(s, op);
    } else {
      TokenFamilies.RefusedRotation(s, op.jti, op.user, op.client, op.accessJti, op.refreshJti, op.now);
      RotationPersists(s, op.jti, op.user, op.client, op.accessJti, op.refreshJti, op.now);
      SameSignedKeepsAccess(s, rotation.0);
    }
  }

  lemma IssueKeepsAccess(s: Store, op: Op)
    requires SignedInv(s) && AccessInv(s) && Enabled(s, op) && op.Issue?
    ensures AccessInv(Step(s, op))
  {
    MintSigns(s, op.principal, op.user, op.family, ClientNameOf(op.client), op.accessJti, op.refreshJti, op.now);
    assert RowsPersist(s, Step(s, op));
    MintKeepsAccess(s, Step(s, op), op.principal, op.user, op.family, ClientNameOf(op.client),
                    op.accessJti, op.refreshJti, op.now);
  }

  lemma RevokePersists(s: Store, which: set<Jti>, reason: string)
    requires AccessInv(s)
    ensures AccessInv(Revoke(s, which, reason))
  {
    SameSignedKeepsAccess(s, Revoke(s, which, reason));
  }

  lemma EndKeepsAccess(s: Store, op: Op)
    requires AccessInv(s) && (op.EndFamily? || op.EndPrincipal? || op.EndOthers?)
    ensures AccessInv(Step(s, op))
  {
    match op
    case EndFamily(other, reason) => RevokePersists(s, OfFamily(s, other), reason);
    case EndPrincipal(principal, reason) => RevokePersists(s, OfPrincipal(s, principal), reason);
    case EndOthers(principal, kept, reason) =>
      RevokePersists(s, OfPrincipal(s, principal), reason);
      if kept.Some? {
        RevokePersists(s, OfPrincipal(s, principal) - OfFamily(s, kept.value), reason);
      }
  }

  lemma OtherKeepsAccess(s: Store, op: Op)
    requires AccessInv(s) && (op.Sign? || op.RevokeToken? || op.SweepTombstones?)
    ensures AccessInv(Step(s, op))
  {
    SameSignedKeepsAccess(s, Step(s, op));
  }

  lemma StepKeepsAccess(s: Store, op: Op)
    requires Inv(s) && AccessInv(s)
    ensures AccessInv(Step(s, op)) && Step(s, op).accessTtl == s.accessTtl && Step(s, op).refreshTtl == s.refreshTtl
  {
    if op.EndFamily? || op.EndPrincipal? || op.EndOthers? {
      EndKeepsAccess(s, op);
    } else if op.Sign? || op.RevokeToken? || op.SweepTombstones? {
      OtherKeepsAccess(s, op);
    } else if !Enabled(s, op) {
      assert Step(s, op) == s;
    } else if op.Renew? {
      RenewKeepsAccess(s, op);
    } else {
      IssueKeepsAccess(s, op);
    }
  }

  lemma {:induction false} RunKeepsAccess(s: Store, ops: seq<Op>)
    requires Inv(s) && AccessInv(s)
    ensures AccessInv(Run(s, ops)) && Run(s, ops).accessTtl == s.accessTtl && Run(s, ops).refreshTtl == s.refreshTtl
    decreases |ops|
  {
    if ops != [] {
      StepKeepsAccess(s, ops[0]);
      TokenFamilies.StepKeepsInv(s, ops[0]);
      RunKeepsAccess(Step(s, ops[0]), ops[1..]);
    }
  }

  /**
   Over every run each access token belongs to a session: a refresh row of the same family,
   account and client was signed in the same second, and the two expire as far apart as their
   lifetimes differ.
   */
  lemma AccessBelongsToSession(start: Store, ops: seq<Op>, jti: Jti)
    requires TokenFamilies.Empty(start)
    requires jti in Run(start, ops).signed && Run(start, ops).signed[jti].Access?
    ensures var s := Run(start, ops);
            var token := s.signed[jti];
            exists r :: r in s.rows
              && s.rows[r].family == token.fam && s.rows[r].principal == token.sub
              && s.rows[r].user == token.uid && s.rows[r].client == token.azp
              && s.rows[r].expiresAt == (token.exp - start.accessTtl + start.refreshTtl) * 1000
  {
    RunKeepsAccess(start, ops);
    var s := Run(start, ops);
    var r :| r in s.rows && Partner(s, s.signed[jti], s.rows[r]);
  }
}
