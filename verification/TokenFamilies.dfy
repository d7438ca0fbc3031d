/**
 What every run of the token service keeps: families are paths that live and die as one,
 client bindings only ever appear and never change, and a revoked token stays refused.
 */
module TokenFamilies {
  import opened Common
  import opened Tokens

  // ----- paths -----

  /** A path is still one when no row of its family came, went or changed. */
  lemma PathFrame(rows: Rows, rows': Rows, family: Family)
    requires HasPath(rows, family)
    requires forall j :: j in rows' && rows'[j].family == family ==> j in rows && rows[j] == rows'[j]
    requires forall j :: j in rows && rows[j].family == family ==> j in rows' && rows'[j] == rows[j]
    ensures HasPath(rows', family)
  {
    var chain :| IsPath(rows, family, chain);
    assert forall i :: 0 <= i < |chain| ==> rows'[chain[i]] == rows[chain[i]] && LinkAt(rows, chain, i);
    assert IsPath(rows', family, chain);
  }

  /** A first row alone in a new family. */
  lemma NewPath(rows: Rows, j: Jti, row: Row)
    requires PathsInv(rows) && j !in rows && !row.used && row.replacedBy.None?
    requires forall k :: k in rows ==> rows[k].family != row.family
    ensures PathsInv(rows[j := row])
  {
    var rows' := rows[j := row];
    assert IsPath(rows', row.family, [j]);
    forall k | k in rows' && k != j
      ensures HasPath(rows', rows'[k].family)
    {
      PathFrame(rows, rows', rows[k].family);
    }
  }

  /** `last` was spent for `r`, a new row of the same account that keeps the client if there was one. */
  ghost predicate Replaces(rows: Rows, rows': Rows, last: Jti, r: Jti) {
    && last in rows && rows[last].revoked.None? && r !in rows
    && rows'.Keys == rows.Keys + {r}
    && rows'[last] == rows[last].(used := true, replacedBy := Some(r))
    && (forall j :: j in rows && j != last ==> rows'[j] == rows[j])
    && rows'[r].family == rows[last].family && rows'[r].principal == rows[last].principal
    && rows'[r].user == rows[last].user && rows'[r].revoked.None?
    && !rows'[r].used && rows'[r].replacedBy.None?
    && (rows[last].client.Some? ==> rows'[r].client == rows[last].client)
  }

  /** Spending the last row of a path and adding its replacement gives a longer path. */
  lemma ExtendedLists(rows: Rows, rows': Rows, family: Family, chain: seq<Jti>, r: Jti)
    requires IsPath(rows, family, chain) && Replaces(rows, rows', chain[|chain| - 1], r)
    ensures Within(rows', chain + [r]) && Lists(rows', family, chain + [r])
  {
    forall j | j in rows' && rows'[j].family == family
      ensures j in chain + [r]
    {
      assert j != r ==> j in chain;
    }
  }

  lemma ExtendedLinks(rows: Rows, rows': Rows, family: Family, chain: seq<Jti>, r: Jti)
    requires IsPath(rows, family, chain) && Replaces(rows, rows', chain[|chain| - 1], r)
    requires Within(rows', chain + [r])
    ensures Links(rows', chain + [r])
  {
    var longer := chain + [r];
    forall i | 0 <= i < |longer|
      ensures LinkAt(rows', longer, i)
    {
      if i < |chain| {
        assert LinkAt(rows, chain, i) && longer[i] == chain[i];
      }
    }
  }

  lemma ExtendedAccount(rows: Rows, rows': Rows, family: Family, chain: seq<Jti>, r: Jti)
    requires IsPath(rows, family, chain) && Replaces(rows, rows', chain[|chain| - 1], r)
    requires Within(rows', chain + [r])
    ensures Together(rows', chain + [r]) && BindsOnce(rows', chain + [r])
  {
    var longer := chain + [r];
    forall i | 0 <= i < |chain|
      ensures longer[i] == chain[i] && rows'[chain[i]].revoked == rows[chain[i]].revoked
      ensures rows'[chain[i]].principal == rows[chain[i]].principal && rows'[chain[i]].user == rows[chain[i]].user
      ensures rows'[chain[i]].client == rows[chain[i]].client
    {
    }
  }

  lemma RevokedPath(rows: Rows, which: set<Jti>, reason: string, family: Family, chain: seq<Jti>)
    requires IsPath(rows, family, chain)
    requires forall i :: 0 <= i < |chain| ==> (chain[i] in which <==> chain[0] in which)
    ensures IsPath(RevokedRows(rows, which, reason), family, chain)
  {
    var rows' := RevokedRows(rows, which, reason);
    assert Within(rows', chain) && Lists(rows', family, chain);
    forall i | 0 <= i < |chain|
      ensures LinkAt(rows', chain, i)
    {
      assert LinkAt(rows, chain, i);
      assert rows'[chain[i]].used == rows[chain[i]].used;
      assert rows'[chain[i]].replacedBy == rows[chain[i]].replacedBy;
    }
    assert Together(rows', chain);
    assert BindsOnce(rows', chain);
  }

  // ----- what each step keeps -----

  /** Two rows of one family: one account, revoked together, and at most one unused. */
  lemma OneAccountPerFamily(rows: Rows, j: Jti, k: Jti)
    requires PathsInv(rows) && j in rows && k in rows && rows[j].family == rows[k].family
    ensures rows[j].principal == rows[k].principal && rows[j].user == rows[k].user
    ensures rows[j].revoked == rows[k].revoked
    ensures !rows[j].used && !rows[k].used ==> j == k
  {
    var chain :| IsPath(rows, rows[j].family, chain);
    assert j in chain && k in chain;
    var a :| 0 <= a < |chain| && chain[a] == j;
    var b :| 0 <= b < |chain| && chain[b] == k;
    assert LinkAt(rows, chain, a) && LinkAt(rows, chain, b);
  }

  /** Revoking a set of rows that holds whole families keeps every family one path. */
  lemma RevokeKeepsInv(s: Store, which: set<Jti>, reason: string)
    requires Inv(s)
    requires forall j, k :: j in s.rows && k in s.rows && s.rows[j].family == s.rows[k].family ==>
               (j in which <==> k in which)
    ensures Inv(Revoke(s, which, reason))
  {
    var rows' := RevokedRows(s.rows, which, reason);
    forall j | j in rows'
      ensures HasPath(rows', rows'[j].family)
    {
      var chain :| IsPath(s.rows, s.rows[j].family, chain);
      RevokedPath(s.rows, which, reason, s.rows[j].family, chain);
    }
  }

  lemma RevokePrincipalKeepsInv(s: Store, principal: string, kept: Option<Family>, reason: string)
    requires Inv(s)
    ensures Inv(RevokeOtherSessions(s, principal, kept, reason))
  {
    forall j, k | j in s.rows && k in s.rows && s.rows[j].family == s.rows[k].family
      ensures s.rows[j].principal == s.rows[k].principal
    {
      OneAccountPerFamily(s.rows, j, k);
    }
    RevokeKeepsInv(s, if kept.None? then OfPrincipal(s, principal)
                      else OfPrincipal(s, principal) - OfFamily(s, kept.value), reason);
  }

  lemma IssueKeepsInv(s: Store, principal: string, user: int, family: Family, client: Option<string>, a: Jti, r: Jti, now: int)
    requires Inv(s) && Fresh(s, a, r) && OfFamily(s, family) == {}
    ensures Inv(MintPair(s, principal, user, family, client, a, r, now))
  {
    var s' := MintPair(s, principal, user, family, client, a, r, now);
    forall k | k in s.rows
      ensures s.rows[k].family != family
    {
      assert k !in OfFamily(s, family);
    }
    NewPath(s.rows, r, s'.rows[r]);
  }

  /** The rows of a rotation: one spent, one put in its place. */
  lemma RotationMovesRows(s: Store, jti: Jti, user: int, client: RequestClient, a: Jti, r: Jti, now: int)
    requires SignedInv(s) && Fresh(s, a, r) && Rotate(s, jti, user, client, a, r, now).1.Rotated?
    requires user == s.signed[jti].uid
    ensures !s.rows[jti].used && Replaces(s.rows, Rotate(s, jti, user, client, a, r, now).0.rows, jti, r)
  {
  }

  lemma RotationKeepsSigned(s: Store, jti: Jti, user: int, client: RequestClient, a: Jti, r: Jti, now: int)
    requires SignedInv(s) && Fresh(s, a, r) && Rotate(s, jti, user, client, a, r, now).1.Rotated?
    requires user == s.signed[jti].uid
    ensures SignedInv(Rotate(s, jti, user, client, a, r, now).0)
  {
  }

  /** What a successful rotation does to the tables. */
  lemma RotationReplaces(s: Store, jti: Jti, user: int, client: RequestClient, a: Jti, r: Jti, now: int)
    requires SignedInv(s) && Fresh(s, a, r) && Rotate(s, jti, user, client, a, r, now).1.Rotated?
    requires user == s.signed[jti].uid
    ensures var s' := Rotate(s, jti, user, client, a, r, now).0;
            && !s.rows[jti].used && Replaces(s.rows, s'.rows, jti, r)
            && SignedInv(s')
            && (forall j :: j in s'.signed ==>
                  || (j in s.signed && s'.signed[j] == s.signed[j])
                  || (s'.signed[j].uid == user && s'.signed[j].sub == s.rows[jti].principal))
  {
    RotationMovesRows(s, jti, user, client, a, r, now);
    RotationKeepsSigned(s, jti, user, client, a, r, now);
  }

  /** The row a rotation spends is the last of its path, and the new row goes after it. */
  lemma ReplacingKeepsPaths(rows: Rows, rows': Rows, jti: Jti, r: Jti)
    requires PathsInv(rows) && jti in rows && !rows[jti].used && Replaces(rows, rows', jti, r)
    ensures PathsInv(rows')
  {
    var family := rows[jti].family;
    var chain :| IsPath(rows, family, chain);
    assert jti in chain;
    var at :| 0 <= at < |chain| && chain[at] == jti;
    assert LinkAt(rows, chain, at) && at == |chain| - 1;
    ExtendedLists(rows, rows', family, chain, r);
    ExtendedLinks(rows, rows', family, chain, r);
    ExtendedAccount(rows, rows', family, chain, r);
    assert IsPath(rows', family, chain + [r]);
    forall j | j in rows' && rows'[j].family != family
      ensures HasPath(rows', rows'[j].family)
    {
      PathFrame(rows, rows', rows'[j].family);
    }
  }

  lemma RotatedKeepsInv(s: Store, jti: Jti, user: int, client: RequestClient, a: Jti, r: Jti, now: int)
    requires Inv(s) && Fresh(s, a, r) && Rotate(s, jti, user, client, a, r, now).1.Rotated?
    requires user == s.signed[jti].uid
    ensures Inv(Rotate(s, jti, user, client, a, r, now).0)
  {
    RotationReplaces(s, jti, user, client, a, r, now);
    ReplacingKeepsPaths(s.rows, Rotate(s, jti, user, client, a, r, now).0.rows, jti, r);
  }

  /** A rotation that mints nothing ends the family of a reused token or changes nothing. */
  lemma RefusedRotation(s: Store, jti: Jti, user: int, client: RequestClient, a: Jti, r: Jti, now: int)
    requires !Rotate(s, jti, user, client, a, r, now).1.Rotated?
    ensures var rotation := Rotate(s, jti, user, client, a, r, now);
            if rotation.1 == Refused(Reused)
            then jti in s.rows && s.rows[jti].used && rotation.0 == RevokeFamily(s, s.rows[jti].family, "rotation_reuse")
            else rotation.0 == s
  {
  }

  lemma RenewKeepsInv(s: Store, jti: Jti, user: int, client: RequestClient, a: Jti, r: Jti, now: int)
    requires Inv(s) && Fresh(s, a, r) && (jti in s.signed ==> user == s.signed[jti].uid)
    ensures Inv(Rotate(s, jti, user, client, a, r, now).0)
  {
    if Rotate(s, jti, user, client, a, r, now).1.Rotated? {
      RotatedKeepsInv(s, jti, user, client, a, r, now);
    } else {
      RefusedRotation(s, jti, user, client, a, r, now);
      if jti in s.rows {
        RevokeKeepsInv(s, OfFamily(s, s.rows[jti].family), "rotation_reuse");
      }
    }
  }

  lemma StepKeepsInv(s: Store, op: Op)
    requires Inv(s)
    ensures Inv(Step(s, op))
  {
    if Enabled(s, op) {
      match op
      case Issue(principal, user, client, family, a, r, now) =>
        IssueKeepsInv(s, principal, user, family, ClientNameOf(client), a, r, now);
      case Renew(jti, user, client, a, r, now) => RenewKeepsInv(s, jti, user, client, a, r, now);
      case EndFamily(family, reason) => RevokeKeepsInv(s, OfFamily(s, family), reason);
      case EndPrincipal(principal, reason) => RevokePrincipalKeepsInv(s, principal, None, reason);
      case EndOthers(principal, kept, reason) => RevokePrincipalKeepsInv(s, principal, kept, reason);
      case Sign(_, _) =>
      case RevokeToken(_) =>
      case SweepTombstones(_) =>
    }
  }

  lemma {:induction false} RunKeepsInv(s: Store, ops: seq<Op>)
    requires Inv(s)
    ensures Inv(Run(s, ops))
    decreases |ops|
  {
    if ops != [] {
      StepKeepsInv(s, ops[0]);
      RunKeepsInv(Step(s, ops[0]), ops[1..]);
    }
  }

  ghost predicate Empty(s: Store) {
    s.signed == map[] && s.rows == map[] && s.tombstones == map[]
  }

  /**
   Families: whatever was issued, renewed and revoked, the rows of a family are one simple
   path of replacements within one account, at most one of them is unused and unrevoked, and
   they are all revoked or none is.
   */
  lemma FamiliesArePaths(start: Store, ops: seq<Op>, j: Jti, k: Jti)
    requires Empty(start)
    requires var s := Run(start, ops); j in s.rows && k in s.rows && s.rows[j].family == s.rows[k].family
    ensures var s := Run(start, ops);
            && (exists chain :: IsPath(s.rows, s.rows[j].family, chain))
            && s.rows[j].principal == s.rows[k].principal
            && s.rows[j].revoked == s.rows[k].revoked
            && (!s.rows[j].used && s.rows[j].revoked.None? && !s.rows[k].used && s.rows[k].revoked.None? ==> j == k)
  {
    RunKeepsInv(start, ops);
    OneAccountPerFamily(Run(start, ops).rows, j, k);
  }

  // ----- a revoked family is dead -----

  ghost predicate Dead(s: Store, family: Family) {
    OfFamily(s, family) != {} && forall j :: j in OfFamily(s, family) ==> s.rows[j].revoked.Some?
  }

  /** `rows'` has the same rows in `family`. */
  ghost predicate SameFamily(rows: Rows, rows': Rows, family: Family) {
    && (forall j :: j in rows && rows[j].family == family ==> j in rows' && rows'[j] == rows[j])
    && (forall j :: j in rows' && rows'[j].family == family ==> j in rows && rows[j] == rows'[j])
  }

  predicate CarriesFamily(token: Token, family: Family) {
    (token.Access? || token.Refresh?) && token.fam == family
  }

  /** Nothing was signed for the family between `s` and `s'`. */
  ghost predicate SignsNothing(s: Store, s': Store, family: Family) {
    forall j :: j in s'.signed && CarriesFamily(s'.signed[j], family) ==> j in s.signed && s.signed[j] == s'.signed[j]
  }

  /** A rotation signs only for the family of the row it spends. */
  lemma RotationSigns(s: Store, jti: Jti, user: int, client: RequestClient, a: Jti, r: Jti, now: int, family: Family)
    requires Rotate(s, jti, user, client, a, r, now).1.Rotated? ==> jti in s.rows && s.rows[jti].family != family
    ensures SignsNothing(s, Rotate(s, jti, user, client, a, r, now).0, family)
  {
  }

  /** A token of a dead family is neither rotated nor met as reused: its row is revoked. */
  lemma DeadRefuses(s: Store, family: Family, jti: Jti, user: int, client: RequestClient, a: Jti, r: Jti, now: int)
    requires Dead(s, family)
    ensures var rotation := Rotate(s, jti, user, client, a, r, now);
            rotation.1.Rotated? || rotation.1 == Refused(Reused) ==> jti in s.rows && s.rows[jti].family != family
  {
    if jti in s.rows && s.rows[jti].family == family {
      assert jti in OfFamily(s, family);
    }
  }

  lemma ReplacingElsewhere(rows: Rows, rows': Rows, jti: Jti, r: Jti, family: Family)
    requires Replaces(rows, rows', jti, r) && rows[jti].family != family
    ensures SameFamily(rows, rows', family)
  {
  }

  lemma RevokingElsewhere(s: Store, other: Family, reason: string, family: Family)
    requires other != family
    ensures SameFamily(s.rows, RevokeFamily(s, other, reason).rows, family)
  {
    assert forall j :: j in s.rows && s.rows[j].family == family ==> j !in OfFamily(s, other);
  }

  lemma DeadRenew(s: Store, op: Op, family: Family)
    requires Inv(s) && Dead(s, family) && Enabled(s, op) && op.Renew?
    ensures SameFamily(s.rows, Step(s, op).rows, family) && SignsNothing(s, Step(s, op), family)
  {
    var rotation := Rotate(s, op.jti, op.user, op.client, op.accessJti, op.refreshJti, op.now);
    DeadRefuses(s, family, op.jti, op.user, op.client, op.accessJti, op.refreshJti, op.now);
    RotationSigns(s, op.jti, op.user, op.client, op.accessJti, op.refreshJti, op.now, family);
    if rotation.1.Rotated? {
      RotationMovesRows(s, op.jti, op.user, op.client, op.accessJti, op.refreshJti, op.now);
      ReplacingElsewhere(s.rows, rotation.0.rows, op.jti, op.refreshJti, family);
    } else {
      RefusedRotation(s, op.jti, op.user, op.client, op.accessJti, op.refreshJti, op.now);
      if rotation.1 == Refused(Reused) {
        RevokingElsewhere(s, s.rows[op.jti].family, "rotation_reuse", family);
      }
    }
  }

  lemma DeadRevoke(s: Store, which: set<Jti>, reason: string, family: Family)
    requires Dead(s, family)
    ensures SameFamily(s.rows, Revoke(s, which, reason).rows, family)
  {
    assert forall j :: j in s.rows && s.rows[j].family == family ==> j in OfFamily(s, family);
  }

  lemma DeadIssue(s: Store, op: Op, family: Family)
    requires SignedInv(s) && Dead(s, family) && Enabled(s, op) && op.Issue?
    ensures SameFamily(s.rows, Step(s, op).rows, family) && SignsNothing(s, Step(s, op), family)
  {
    assert op.family != family;
  }

  lemma DeadEnd(s: Store, op: Op, family: Family)
    requires Dead(s, family) && (op.EndFamily? || op.EndPrincipal? || op.EndOthers?)
    ensures SameFamily(s.rows, Step(s, op).rows, family) && Step(s, op).signed == s.signed
  {
    match op
    case EndFamily(other, reason) => DeadRevoke(s, OfFamily(s, other), reason, family);
    case EndPrincipal(principal, reason) => DeadRevoke(s, OfPrincipal(s, principal), reason, family);
    case EndOthers(principal, kept, reason) =>
      DeadRevoke(s, OfPrincipal(s, principal), reason, family);
      if kept.Some? {
        DeadRevoke(s, OfPrincipal(s, principal) - OfFamily(s, kept.value), reason, family);
      }
  }

  lemma RowsUntouched(s: Store, op: Op, family: Family)
    requires op.Sign? || op.RevokeToken? || op.SweepTombstones?
    ensures SameFamily(s.rows, Step(s, op).rows, family) && SignsNothing(s, Step(s, op), family)
  {
  }

  lemma DeadStep(s: Store, op: Op, family: Family)
    requires Inv(s) && Dead(s, family)
    ensures SameFamily(s.rows, Step(s, op).rows, family) && SignsNothing(s, Step(s, op), family)
  {
    if op.Sign? || op.RevokeToken? || op.SweepTombstones? {
      RowsUntouched(s, op, family);
    } else if op.EndFamily? || op.EndPrincipal? || op.EndOthers? {
      DeadEnd(s, op, family);
    } else if !Enabled(s, op) {
      assert Step(s, op) == s;
    } else if op.Renew? {
      DeadRenew(s, op, family);
    } else {
      DeadIssue(s, op, family);
    }
  }

  lemma SameFamilyStaysDead(s: Store, s': Store, family: Family)
    requires Dead(s, family) && SameFamily(s.rows, s'.rows, family)
    ensures Dead(s', family) && OfFamily(s', family) == OfFamily(s, family)
  {
    assert OfFamily(s', family) == OfFamily(s, family);
  }

  /**
   After reuse, logout or revocation a family never mints again: over every further run its
   rows stand as they are, and no access or refresh token is signed for it.
   */
  lemma {:induction false} RevokedFamilyNeverMints(s: Store, ops: seq<Op>, family: Family)
    requires Inv(s) && Dead(s, family)
    ensures Dead(Run(s, ops), family) && SameFamily(s.rows, Run(s, ops).rows, family)
    ensures SignsNothing(s, Run(s, ops), family)
    decreases |ops|
  {
    if ops != [] {
      StepKeepsInv(s, ops[0]);
      DeadStep(s, ops[0], family);
      SameFamilyStaysDead(s, Step(s, ops[0]), family);
      RevokedFamilyNeverMints(Step(s, ops[0]), ops[1..], family);
    }
  }

  lemma RevokedIsDead(s: Store, which: set<Jti>, reason: string, j: Jti)
    requires j in s.rows && OfFamily(s, s.rows[j].family) <= which
    ensures Dead(Revoke(s, which, reason), s.rows[j].family)
  {
    var s' := Revoke(s, which, reason);
    assert j in OfFamily(s', s.rows[j].family);
    assert forall k :: k in OfFamily(s', s.rows[j].family) ==> k in OfFamily(s, s.rows[j].family);
  }

  /** Reuse of a spent token kills its family. */
  lemma ReuseKills(s: Store, jti: Jti, user: int, client: RequestClient, a: Jti, r: Jti, now: int)
    requires Inv(s) && Rotate(s, jti, user, client, a, r, now).1 == Refused(Reused)
    ensures Dead(Rotate(s, jti, user, client, a, r, now).0, s.rows[jti].family)
  {
    RefusedRotation(s, jti, user, client, a, r, now);
    RevokedIsDead(s, OfFamily(s, s.rows[jti].family), "rotation_reuse", jti);
  }

  /** So does ending the family, its principal, or its principal's other sessions. */
  lemma EndingKills(s: Store, jti: Jti, kept: Option<Family>, reason: string)
    requires Inv(s) && jti in s.rows
    ensures Dead(RevokeFamily(s, s.rows[jti].family, reason), s.rows[jti].family)
    ensures kept != Some(s.rows[jti].family) ==>
              Dead(RevokeOtherSessions(s, s.rows[jti].principal, kept, reason), s.rows[jti].family)
  {
    forall j | j in OfFamily(s, s.rows[jti].family)
      ensures j in OfPrincipal(s, s.rows[jti].principal)
    {
      OneAccountPerFamily(s.rows, j, jti);
    }
    RevokedIsDead(s, OfFamily(s, s.rows[jti].family), reason, jti);
    if kept.None? {
      RevokedIsDead(s, OfPrincipal(s, s.rows[jti].principal), reason, jti);
    } else if kept != Some(s.rows[jti].family) {
      RevokedIsDead(s, OfPrincipal(s, s.rows[jti].principal) - OfFamily(s, kept.value), reason, jti);
    }
  }

  // ----- client binding -----

  /** The client a refresh token names is its row's, so both checks of a renewal give one answer. */
  lemma ChecksAgree(start: Store, ops: seq<Op>, jti: Jti, client: RequestClient)
    requires Empty(start) && jti in Run(start, ops).rows
    ensures var s := Run(start, ops);
            && jti in s.signed && s.signed[jti].Refresh?
            && SessionClientDecision(s.signed[jti].azp, client) == SessionClientDecision(s.rows[jti].client, client)
  {
    RunKeepsInv(start, ops);
  }

  // ----- revocation is permanent -----

  ghost predicate OpsTimed(ops: seq<Op>, from: int) {
    ops == [] ||
    (var t := if ops[0].SweepTombstones? then ops[0].now else from;
     from <= t && OpsTimed(ops[1..], t))
  }

  /** At `now` the token is refused, by its tombstone or because it has expired. */
  ghost predicate Gone(s: Store, jti: Jti, now: int) {
    jti in s.signed && (jti in s.tombstones || s.signed[jti].exp * 1000 < now)
  }

  lemma GoneStep(s: Store, op: Op, jti: Jti, from: int)
    requires SignedInv(s) && Gone(s, jti, from) && (op.SweepTombstones? ==> from <= op.now)
    ensures Gone(Step(s, op), jti, if op.SweepTombstones? then op.now else from)
  {
  }

  lemma {:induction false} GoneStays(s: Store, ops: seq<Op>, jti: Jti, from: int, later: int)
    requires Inv(s) && Gone(s, jti, from) && OpsTimed(ops, from)
    requires forall i :: 0 <= i < |ops| && ops[i].SweepTombstones? ==> ops[i].now <= later
    requires from <= later
    ensures Gone(Run(s, ops), jti, later) && !Accepted(Run(s, ops), jti, later)
    decreases |ops|
  {
    if ops != [] {
      var op := ops[0];
      var t := if op.SweepTombstones? then op.now else from;
      StepKeepsInv(s, op);
      GoneStep(s, op, jti, from);
      GoneStays(Step(s, op), ops[1..], jti, t, later);
    }
  }

  /**
   Revocation is permanent: once recorded, a token is refused at every later instant, over
   any further steps and sweeps, because its tombstone goes only after its own expiry.
   */
  lemma RevocationIsPermanent(start: Store, before: seq<Op>, jti: Jti, after: seq<Op>, from: int, later: int)
    requires Empty(start)
    requires jti in Run(start, before).signed
    requires OpsTimed(after, from) && from <= later
    requires forall i :: 0 <= i < |after| && after[i].SweepTombstones? ==> after[i].now <= later
    ensures !Accepted(Run(Step(Run(start, before), RevokeToken(jti)), after), jti, later)
  {
    RunKeepsInv(start, before);
    var s := Run(start, before);
    StepKeepsInv(s, RevokeToken(jti));
    GoneStays(Step(s, RevokeToken(jti)), after, jti, from, later);
  }

  /**
   A sweep changes no verdict: from then on every token is accepted or refused as if its
   tombstone were still there, because a tombstone that goes belongs to an expired token.
   */
  lemma SweepChangesNoVerdict(s: Store, swept: int, jti: Jti, now: int)
    requires SignedInv(s) && swept <= now
    ensures Accepted(SweepRevocations(s, swept), jti, now) == Accepted(s, jti, now)
  {
  }

  /** Of two records of one token with no sweep between them, only the first succeeds. */
  lemma RecordedOnce(s: Store, jti: Jti, first: int, second: int, other: Jti)
    ensures var once := RecordRevokedJti(s, jti, first);
            && !RecordRevokedJti(once.0, jti, second).1 && RecordRevokedJti(once.0, jti, second).0 == once.0
            && (other != jti ==> RecordRevokedJti(once.0, other, second).1 == RecordRevokedJti(s, other, second).1)
            && forall now :: !Accepted(once.0, jti, now)
  {
  }
}
