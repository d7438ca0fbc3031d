/**
 The token service: signed tokens by their unique id, refresh-token rows that rotate inside
 a family, and tombstones for tokens revoked before they expire. Instants are
 milliseconds; `exp` is in whole seconds, as a JWT carries it.
 */
module Tokens {
  import opened Common

  type Jti = string
  type Family = string

  // ----- the client a session belongs to -----

  datatype RequestClient = Named(name: string) | Unnamed

  datatype Decision = Continue | Bind | Mismatch

  function SessionClientDecision(sessionClient: Option<string>, request: RequestClient): Decision {
    if sessionClient.None? then (if request.Named? then Bind else Continue)
    else if request.Named? && request.name == sessionClient.value then Continue
    else Mismatch
  }

  function ClientNameOf(client: RequestClient): Option<string> {
    if client.Named? then Some(client.name) else None
  }

  // ----- state -----

  datatype Row = Row(family: Family, principal: string, user: int, client: Option<string>, expiresAt: int,
                     used: bool, replacedBy: Option<Jti>, revoked: Option<string>)

  datatype Token =
    | Access(sub: string, uid: int, exp: int, fam: Family, azp: Option<string>)
    | Refresh(sub: string, uid: int, exp: int, fam: Family, azp: Option<string>)
    | Enrolment(sub: string, uid: int, exp: int, azp: Option<string>)
    | Challenge(sub: string, uid: int, exp: int)

  /** Everything signed so far, the refresh rows, and the tombstones with their expiry. */
  datatype Store = Store(accessTtl: nat, refreshTtl: nat, signed: map<Jti, Token>, rows: map<Jti, Row>,
                         tombstones: map<Jti, int>)

  const MFA_CHALLENGE_TTL_SECONDS := 300
  const MFA_ENROLMENT_TTL_SECONDS := 600

  /** A signature is accepted for exactly the tokens the service signed, until their `exp`. */
  predicate Verified(s: Store, jti: Jti, now: int) {
    jti in s.signed && now / 1000 < s.signed[jti].exp
  }

  /** The two fresh ids one minting takes. */
  predicate Fresh(s: Store, a: Jti, r: Jti) {
    a != r && a !in s.signed && r !in s.signed
  }

  function MintPair(s: Store, principal: string, user: int, family: Family, client: Option<string>,
                    accessJti: Jti, refreshJti: Jti, now: int): Store
  {
    var iat := now / 1000;
    s.(signed := s.signed[accessJti := Access(principal, user, iat + s.accessTtl, family, client)]
                         [refreshJti := Refresh(principal, user, iat + s.refreshTtl, family, client)],
       rows := s.rows[refreshJti := Row(family, principal, user, client, (iat + s.refreshTtl) * 1000, false, None, None)])
  }

  type Rows = map<Jti, Row>

  /** Set `revokedAt` and its reason on the rows of `which` that have none. */
  function RevokedRows(rows: Rows, which: set<Jti>, reason: string): Rows {
    map j | j in rows :: if j in which && rows[j].revoked.None? then rows[j].(revoked := Some(reason)) else rows[j]
  }

  function Revoke(s: Store, which: set<Jti>, reason: string): Store {
    s.(rows := RevokedRows(s.rows, which, reason))
  }

  function OfFamily(s: Store, family: Family): set<Jti> {
    set j | j in s.rows && s.rows[j].family == family
  }

  function OfPrincipal(s: Store, principal: string): set<Jti> {
    set j | j in s.rows && s.rows[j].principal == principal
  }

  function RevokeFamily(s: Store, family: Family, reason: string): Store {
    Revoke(s, OfFamily(s, family), reason)
  }

  function RevokeAllFamilies(s: Store, principal: string, reason: string): Store {
    Revoke(s, OfPrincipal(s, principal), reason)
  }

  function RevokeOtherSessions(s: Store, principal: string, kept: Option<Family>, reason: string): Store {
    if kept.None? then RevokeAllFamilies(s, principal, reason)
    else Revoke(s, OfPrincipal(s, principal) - OfFamily(s, kept.value), reason)
  }

  datatype Refusal = Invalid | Unrecognised | Revoked | Reused | Expired

  datatype Rotation =
    | Refused(why: Refusal)
    | WrongClient(session: Option<string>)
    | Rotated(bound: bool)

  /** Renew a session with the refresh token `jti`, in one transaction that locks its row. */
  function Rotate(s: Store, jti: Jti, user: int, client: RequestClient, accessJti: Jti, refreshJti: Jti, now: int)
    : (Store, Rotation)
  {
    if !Verified(s, jti, now) || !s.signed[jti].Refresh? then (s, Refused(Invalid))
    else if jti !in s.rows then (s, Refused(Unrecognised))
    else
      var stored := s.rows[jti];
      if stored.revoked.Some? then (s, Refused(Revoked))
      else if stored.used then (RevokeFamily(s, stored.family, "rotation_reuse"), Refused(Reused))
      else if stored.expiresAt <= now then (s, Refused(Expired))
      else
        var decision := SessionClientDecision(stored.client, client);
        if decision == Mismatch then (s, WrongClient(stored.client))
        else
          var sessionClient := if stored.client.Some? then stored.client else ClientNameOf(client);
          var minted := MintPair(s, stored.principal, user, stored.family, sessionClient, accessJti, refreshJti, now);
          (minted.(rows := minted.rows[jti := stored.(used := true, replacedBy := Some(refreshJti))]),
           Rotated(decision == Bind))
  }

  // ----- tombstones -----

  /** Insert a tombstone that lives as long as the token would; false when there is one already. */
  function RecordRevokedJti(s: Store, jti: Jti, expiresAt: int): (Store, bool) {
    if jti in s.tombstones then (s, false) else (s.(tombstones := s.tombstones[jti := expiresAt]), true)
  }

  function SweepRevocations(s: Store, now: int): Store {
    s.(tombstones := map j | j in s.tombstones && !(s.tombstones[j] < now) :: s.tombstones[j])
  }

  /** Signed, unexpired and not revoked: what every check of an access, enrolment or challenge token asks. */
  predicate Accepted(s: Store, jti: Jti, now: int) {
    Verified(s, jti, now) && jti !in s.tombstones
  }

  // ----- the service, changing its tables in place -----

  class TokenService {
    const accessTtl: nat
    const refreshTtl: nat
    var signed: map<Jti, Token>
    var rows: map<Jti, Row>
    var tombstones: map<Jti, int>

    function State(): Store
      reads this
    {
      Store(accessTtl, refreshTtl, signed, rows, tombstones)
    }

    constructor (accessTtl: nat, refreshTtl: nat)
      ensures State() == Store(accessTtl, refreshTtl, map[], map[], map[])
    {
      this.accessTtl, this.refreshTtl := accessTtl, refreshTtl;
      signed, rows, tombstones := map[], map[], map[];
    }

    method Mint(principal: string, user: int, family: Family, client: Option<string>,
                accessJti: Jti, refreshJti: Jti, now: int)
      modifies this
      ensures State() == MintPair(old(State()), principal, user, family, client, accessJti, refreshJti, now)
    {
      var iat := now / 1000;
      signed := signed[accessJti := Access(principal, user, iat + accessTtl, family, client)];
      var expiresAt := (iat + refreshTtl) * 1000;
      signed := signed[refreshJti := Refresh(principal, user, iat + refreshTtl, family, client)];
      rows := rows[refreshJti := Row(family, principal, user, client, expiresAt, false, None, None)];
    }

    /** A challenge or an enrolment token: signed, with no row of its own. */
    method SignOnly(jti: Jti, token: Token)
      modifies this`signed
      ensures State() == old(State()).(signed := old(signed)[jti := token])
    {
      signed := signed[jti := token];
    }

    method RevokeWhere(which: set<Jti>, reason: string)
      modifies this`rows
      ensures State() == Revoke(old(State()), which, reason)
      ensures rows.Keys == old(rows).Keys
      ensures forall j :: j in rows && (j !in which || old(rows)[j].revoked.Some?) ==> rows[j] == old(rows)[j]
      ensures forall j :: j in rows && j in which && old(rows)[j].revoked.None? ==>
                rows[j] == old(rows)[j].(revoked := Some(reason))
    {
      rows := map j | j in rows ::
        if j in which && rows[j].revoked.None? then rows[j].(revoked := Some(reason)) else rows[j];
    }

    method RotateToken(jti: Jti, user: int, client: RequestClient, accessJti: Jti, refreshJti: Jti, now: int)
      returns (outcome: Rotation)
      requires Fresh(State(), accessJti, refreshJti)
      modifies this
      ensures (State(), outcome) == Rotate(old(State()), jti, user, client, accessJti, refreshJti, now)
    {
      if jti !in signed || now / 1000 >= signed[jti].exp || !signed[jti].Refresh? {
        return Refused(Invalid);
      }
      if jti !in rows {
        return Refused(Unrecognised);
      }
      var stored := rows[jti];
      if stored.revoked.Some? {
        return Refused(Revoked);
      }
      if stored.used {
        RevokeWhere(set j | j in rows && rows[j].family == stored.family, "rotation_reuse");
        return Refused(Reused);
      }
      if stored.expiresAt <= now {
        return Refused(Expired);
      }
      var decision := SessionClientDecision(stored.client, client);
      if decision == Mismatch {
        return WrongClient(stored.client);
      }
      var sessionClient := if stored.client.Some? then stored.client else ClientNameOf(client);
      Mint(stored.principal, user, stored.family, sessionClient, accessJti, refreshJti, now);
      stored := stored.(used := true, replacedBy := Some(refreshJti));
      rows := rows[jti := stored];
      outcome := Rotated(decision == Bind);
    }

    method InsertTombstone(jti: Jti, expiresAt: int) returns (inserted: bool)
      modifies this`tombstones
      ensures (State(), inserted) == RecordRevokedJti(old(State()), jti, expiresAt)
      ensures inserted <==> jti !in old(tombstones)
      ensures jti in tombstones && forall j :: j in old(tombstones) ==> j in tombstones && tombstones[j] == old(tombstones)[j]
    {
      if jti in tombstones {
        return false;
      }
      tombstones := tombstones[jti := expiresAt];
      inserted := true;
    }

    method SweepExpiredRevocations(now: int)
      modifies this`tombstones
      ensures State() == SweepRevocations(old(State()), now)
      ensures forall j :: j in tombstones <==> j in old(tombstones) && now <= old(tombstones)[j]
      ensures forall j :: j in tombstones ==> tombstones[j] == old(tombstones)[j]
    {
      tombstones := map j | j in tombstones && !(tombstones[j] < now) :: tombstones[j];
    }
  }

  // ----- runs -----

  datatype Op =
    | Issue(principal: string, user: int, client: RequestClient, family: Family, accessJti: Jti, refreshJti: Jti, now: int)
    | Renew(jti: Jti, user: int, client: RequestClient, accessJti: Jti, refreshJti: Jti, now: int)
    | EndFamily(family: Family, reason: string)
    | EndPrincipal(principal: string, reason: string)
    | EndOthers(principal: string, kept: Option<Family>, reason: string)
    | Sign(jti: Jti, token: Token)
    | RevokeToken(jti: Jti)
    | SweepTombstones(now: int)

  /** Ids are random: a step that would reuse one does not happen. */
  predicate Enabled(s: Store, op: Op) {
    match op
    case Issue(_, _, _, family, a, r, _) => Fresh(s, a, r) && OfFamily(s, family) == {}
    case Renew(_, user, _, a, r, _) =>
      Fresh(s, a, r) && (op.jti in s.signed ==> user == s.signed[op.jti].uid)
    case Sign(jti, token) => jti !in s.signed && (token.Enrolment? || token.Challenge?)
    case RevokeToken(jti) => jti in s.signed
    case _ => true
  }

  function Step(s: Store, op: Op): Store {
    if !Enabled(s, op) then s
    else
      match op
      case Issue(principal, user, client, family, a, r, now) => MintPair(s, principal, user, family, ClientNameOf(client), a, r, now)
      case Renew(jti, user, client, a, r, now) => Rotate(s, jti, user, client, a, r, now).0
      case EndFamily(family, reason) => RevokeFamily(s, family, reason)
      case EndPrincipal(principal, reason) => RevokeAllFamilies(s, principal, reason)
      case EndOthers(principal, kept, reason) => RevokeOtherSessions(s, principal, kept, reason)
      case Sign(jti, token) => s.(signed := s.signed[jti := token])
      case RevokeToken(jti) => RecordRevokedJti(s, jti, s.signed[jti].exp * 1000).0
      case SweepTombstones(now) => SweepRevocations(s, now)
  }

  function Run(s: Store, ops: seq<Op>): Store
    decreases |ops|
  {
    if ops == [] then s else Run(Step(s, ops[0]), ops[1..])
  }

  // ----- what a family is -----

  ghost predicate Within(rows: Rows, chain: seq<Jti>) {
    forall i :: 0 <= i < |chain| ==> chain[i] in rows
  }

  /** The chain lists the rows of the family, each once. */
  ghost predicate Lists(rows: Rows, family: Family, chain: seq<Jti>)
    requires Within(rows, chain)
  {
    && (forall i :: 0 <= i < |chain| ==> rows[chain[i]].family == family)
    && (forall j :: j in rows && rows[j].family == family ==> j in chain)
    && (forall i, k :: 0 <= i < k < |chain| ==> chain[i] != chain[k])
  }

  /** Each row but the last was used and names the next as its replacement; the last is unused. */
  ghost predicate LinkAt(rows: Rows, chain: seq<Jti>, i: int)
    requires Within(rows, chain) && 0 <= i < |chain|
  {
    if i < |chain| - 1 then rows[chain[i]].used && rows[chain[i]].replacedBy == Some(chain[i + 1])
    else !rows[chain[i]].used && rows[chain[i]].replacedBy.None?
  }

  ghost predicate Links(rows: Rows, chain: seq<Jti>)
    requires Within(rows, chain)
  {
    forall i :: 0 <= i < |chain| ==> LinkAt(rows, chain, i)
  }

  /** All rows belong to one account and are revoked together. */
  ghost predicate Together(rows: Rows, chain: seq<Jti>)
    requires Within(rows, chain)
  {
    forall i :: 0 <= i < |chain| ==>
      && rows[chain[i]].principal == rows[chain[0]].principal
      && rows[chain[i]].user == rows[chain[0]].user
      && rows[chain[i]].revoked == rows[chain[0]].revoked
  }

  /** The client is absent for a prefix of the chain and then one fixed name. */
  ghost predicate BindsOnce(rows: Rows, chain: seq<Jti>)
    requires Within(rows, chain)
  {
    forall i, k :: 0 <= i < k < |chain| && rows[chain[i]].client.Some? ==>
      rows[chain[k]].client == rows[chain[i]].client
  }

  ghost predicate IsPath(rows: Rows, family: Family, chain: seq<Jti>) {
    && |chain| > 0 && Within(rows, chain)
    && Lists(rows, family, chain) && Links(rows, chain) && Together(rows, chain) && BindsOnce(rows, chain)
  }

  ghost predicate HasPath(rows: Rows, family: Family) {
    exists chain :: IsPath(rows, family, chain)
  }

  /** A refresh token says what its row says. */
  predicate Matches(token: Token, row: Row) {
    && token.Refresh?
    && token.fam == row.family && token.sub == row.principal && token.uid == row.user
    && token.azp == row.client && token.exp * 1000 == row.expiresAt
  }

  ghost predicate PathsInv(rows: Rows) {
    forall j :: j in rows ==> HasPath(rows, rows[j].family)
  }

  ghost predicate SignedInv(s: Store) {
    && (forall j :: j in s.rows ==> j in s.signed && Matches(s.signed[j], s.rows[j]))
    && (forall j :: j in s.tombstones ==> j in s.signed && s.tombstones[j] == s.signed[j].exp * 1000)
  }

  ghost predicate Inv(s: Store) {
    PathsInv(s.rows) && SignedInv(s)
  }
}
