/**
 Refresh tokens: each login starts a family, each rotation replaces the newest token of its family by a
 successor, and a used token presented again revokes the whole family, as section 4.14.2 of RFC 9700
 recommends. Calls run one at a time; hashes are taken to determine their secrets.
 */
module RefreshTokens {
  import opened Common

  type Id = string
  type Time = int

  const REFRESH_TTL_MS := 30 * 24 * 60 * 60 * 1000

  datatype Token = Token(
    user: nat, family: nat, secret: string, expiresAt: Time,
    usedAt: Option<Time>, replacedBy: Option<Id>, revokedAt: Option<Time>)

  type Tokens = map<Id, Token>

  // ---- composite tokens ----

  /** String.indexOf('.'), or the length of the text. */
  function DotIndex(s: string): (i: nat)
    ensures i <= |s|
    ensures i < |s| ==> s[i] == '.'
  {
    if s == "" then 0 else if s[0] == '.' then 0 else 1 + DotIndex(s[1..])
  }

  function Parse(raw: string): Option<(Id, string)> {
    var i := DotIndex(raw);
    if i == |raw| then None else Some((raw[..i], raw[i + 1..]))
  }

  function Compose(id: Id, secret: string): string {
    id + "." + secret
  }

  /** A text is refused as malformed exactly if it holds no dot, and is cut at its first one. */
  lemma {:induction false} ParseCuts(raw: string)
    ensures Parse(raw).None? <==> '.' !in raw
    ensures Parse(raw).Some? ==> var (id, secret) := Parse(raw).value; raw == id + "." + secret && '.' !in id
  {
    if raw != "" && raw[0] != '.' {
      ParseCuts(raw[1..]);
      assert raw == [raw[0]] + raw[1..];
      if Parse(raw).Some? {
        var (id, secret) := Parse(raw[1..]).value;
        assert raw[..DotIndex(raw)] == [raw[0]] + id && raw[DotIndex(raw) + 1..] == secret;
      }
    }
  }

  /** A composite token is read back as its parts, whatever the secret, if the id holds no dot. */
  lemma {:induction false} ComposeParse(id: Id, secret: string)
    requires DotIndex(id) == |id|
    ensures DotIndex(Compose(id, secret)) == |id|
    ensures Parse(Compose(id, secret)) == Some((id, secret))
  {
    var s := Compose(id, secret);
    if id != "" {
      ComposeParse(id[1..], secret);
      assert s[1..] == Compose(id[1..], secret);
    }
    assert s[..|id|] == id && s[|id| + 1..] == secret;
  }

  // ---- one function per call ----

  datatype Refusal = BadFormat | Unknown | BadSecret | Revoked | Reused | TokenExpired

  datatype Result = Rotated(user: nat, token: string) | Refused(why: Refusal)

  function NewToken(user: nat, family: nat, secret: string, now: Time): Token {
    Token(user, family, secret, now + REFRESH_TTL_MS, None, None, None)
  }

  function Create(t: Tokens, user: nat, family: nat, id: Id, secret: string, now: Time): Tokens {
    t[id := NewToken(user, family, secret, now)]
  }

  function RevokeFamily(t: Tokens, family: nat, now: Time): Tokens {
    map i | i in t :: if t[i].family == family then t[i].(revokedAt := Some(now)) else t[i]
  }

  function RevokeUser(t: Tokens, user: nat, now: Time): Tokens {
    map i | i in t :: if t[i].user == user then t[i].(revokedAt := Some(now)) else t[i]
  }

  /** The checks of a rotation in their order; None if the token may be rotated. */
  function Check(t: Tokens, raw: string, now: Time): Option<Refusal> {
    match Parse(raw)
    case None => Some(BadFormat)
    case Some((id, secret)) =>
      if id !in t then Some(Unknown)
      else if t[id].secret != secret then Some(BadSecret)
      else if t[id].revokedAt.Some? then Some(Revoked)
      else if t[id].usedAt.Some? then Some(Reused)
      else if t[id].expiresAt < now then Some(TokenExpired)
      else None
  }

  function IdOf(raw: string): Id {
    if Parse(raw).Some? then Parse(raw).value.0 else ""
  }

  function Succeed(t: Tokens, id: Id, next: Id, secret: string, now: Time): Tokens
    requires id in t
  {
    t[next := NewToken(t[id].user, t[id].family, secret, now)][id := t[id].(usedAt := Some(now), replacedBy := Some(next))]
  }

  function Rotate(t: Tokens, raw: string, next: Id, secret: string, now: Time): (Tokens, Result) {
    match Check(t, raw, now)
    case None => (Succeed(t, IdOf(raw), next, secret, now), Rotated(t[IdOf(raw)].user, Compose(next, secret)))
    case Some(Reused) => (RevokeFamily(t, t[IdOf(raw)].family, now), Refused(Reused))
    case Some(why) => (t, Refused(why))
  }

  // ---- the service ----

  class Service {
    var tokens: Tokens

    constructor ()
      ensures tokens == map[]
    {
      tokens := map[];
    }

    method CreateInitialToken(user: nat, family: nat, id: Id, secret: string, now: Time) returns (raw: string)
      modifies this
      ensures tokens == Create(old(tokens), user, family, id, secret, now) && raw == Compose(id, secret)
    {
      tokens := tokens[id := Token(user, family, secret, now + REFRESH_TTL_MS, None, None, None)];
      raw := id + "." + secret;
    }

    /** `next` and `newSecret` are the id and the secret drawn for a successor. */
    method RotateToken(raw: string, next: Id, newSecret: string, now: Time) returns (r: Result)
      modifies this
      ensures (tokens, r) == Rotate(old(tokens), raw, next, newSecret, now)
    {
      var dotIndex := DotIndex(raw);
      if dotIndex == |raw| { return Refused(BadFormat); }
      var tokenId, rawSecret := raw[..dotIndex], raw[dotIndex + 1..];
      if tokenId !in tokens { return Refused(Unknown); }
      var record := tokens[tokenId];
      if record.secret != rawSecret { return Refused(BadSecret); }
      if record.revokedAt.Some? { return Refused(Revoked); }
      if record.usedAt.Some? {
        tokens := map i | i in tokens ::
          if tokens[i].family == record.family then tokens[i].(revokedAt := Some(now)) else tokens[i];
        return Refused(Reused);
      }
      if record.expiresAt < now { return Refused(TokenExpired); }
      tokens := tokens[next := Token(record.user, record.family, newSecret, now + REFRESH_TTL_MS, None, None, None)];
      tokens := tokens[tokenId := record.(usedAt := Some(now), replacedBy := Some(next))];
      return Rotated(record.user, next + "." + newSecret);
    }

    method RevokeTokens(family: nat, now: Time)
      modifies this
      ensures tokens == RevokeFamily(old(tokens), family, now)
    {
      tokens := map i | i in tokens ::
        if tokens[i].family == family then tokens[i].(revokedAt := Some(now)) else tokens[i];
    }

    method RevokeAllUserTokens(user: nat, now: Time)
      modifies this
      ensures tokens == RevokeUser(old(tokens), user, now)
    {
      tokens := map i | i in tokens ::
        if tokens[i].user == user then tokens[i].(revokedAt := Some(now)) else tokens[i];
    }
  }

  // ---- runs ----

  datatype Call =
    | CreateCall(user: nat, family: nat, id: Id, secret: string, now: Time)
    | RotateCall(raw: string, id: Id, secret: string, now: Time)
    | RevokeFamilyCall(family: nat, now: Time)
    | RevokeUserCall(user: nat, now: Time)

  /** Ids and families are drawn afresh. */
  ghost predicate Enabled(t: Tokens, c: Call) {
    && (c.CreateCall? ==> c.id !in t && forall i | i in t :: t[i].family != c.family)
    && (c.RotateCall? ==> c.id !in t)
  }

  function After(t: Tokens, c: Call): Tokens {
    match c
    case CreateCall(user, family, id, secret, now) => Create(t, user, family, id, secret, now)
    case RotateCall(raw, id, secret, now) => Rotate(t, raw, id, secret, now).0
    case RevokeFamilyCall(family, now) => RevokeFamily(t, family, now)
    case RevokeUserCall(user, now) => RevokeUser(t, user, now)
  }

  ghost predicate Run(t: Tokens, calls: seq<Call>, t': Tokens)
    decreases |calls|
  {
    if calls == [] then t == t' else Enabled(t, calls[0]) && Run(After(t, calls[0]), calls[1..], t')
  }

  // ---- the chain ----

  /** The tokens of a family in the order of their issue: each but the last used and replaced by the next. */
  ghost predicate Chain(t: Tokens, family: nat, ids: seq<Id>) {
    && |ids| > 0
    && (forall k | 0 <= k < |ids| :: Link(t, family, ids, k))
    && (forall j, k | 0 <= j < k < |ids| :: ids[j] != ids[k])
    && (forall i | i in t && t[i].family == family :: i in ids)
    && (forall k | 0 <= k < |ids| :: ids[k] in t)
  }

  predicate Link(t: Tokens, family: nat, ids: seq<Id>, k: nat)
    requires k < |ids|
  {
    && ids[k] in t && t[ids[k]].family == family
    && ids[0] in t && t[ids[k]].user == t[ids[0]].user
    && (t[ids[k]].revokedAt.Some? <==> t[ids[0]].revokedAt.Some?)
    && if k + 1 < |ids| then t[ids[k]].usedAt.Some? && t[ids[k]].replacedBy == Some(ids[k + 1])
       else t[ids[k]].usedAt.None? && t[ids[k]].replacedBy.None?
  }

  ghost predicate Linear(t: Tokens) {
    forall i | i in t :: exists ids :: Chain(t, t[i].family, ids)
  }

  lemma UntouchedChain(t: Tokens, t': Tokens, family: nat, ids: seq<Id>)
    requires Chain(t, family, ids)
    requires forall k | 0 <= k < |ids| :: ids[k] in t' && t'[ids[k]] == t[ids[k]]
    requires forall i | i in t' && t'[i].family == family :: i in t && t'[i] == t[i]
    ensures Chain(t', family, ids)
  {
    forall k | 0 <= k < |ids| ensures Link(t', family, ids, k) {
      assert Link(t, family, ids, k);
    }
  }

  lemma RevokedChain(t: Tokens, t': Tokens, family: nat, ids: seq<Id>, now: Time)
    requires Chain(t, family, ids)
    requires t'.Keys == t.Keys && forall i | i in t' && t[i].family == family :: t'[i] == t[i].(revokedAt := Some(now))
    requires forall i | i in t' :: t'[i].family == t[i].family
    ensures Chain(t', family, ids)
  {
    forall k | 0 <= k < |ids| ensures Link(t', family, ids, k) {
      assert Link(t, family, ids, k) && Link(t, family, ids, 0);
    }
  }

  /** A rotation puts the successor at the end of its family's chain. */
  lemma ExtendedChain(t: Tokens, family: nat, ids: seq<Id>, next: Id, secret: string, now: Time)
    requires Chain(t, family, ids) && next !in t && t[ids[|ids| - 1]].revokedAt.None?
    ensures Chain(Succeed(t, ids[|ids| - 1], next, secret, now), family, ids + [next])
  {
    var last := |ids| - 1;
    var t', ids' := Succeed(t, ids[last], next, secret, now), ids + [next];
    forall k | 0 <= k < |ids'| ensures Link(t', family, ids', k) {
      assert Link(t, family, ids, if k <= last then k else last) && Link(t, family, ids, 0) && Link(t, family, ids, last);
      if k < last { assert ids[k] != ids[last]; }
    }
    forall i | i in t' && t'[i].family == family ensures i in ids' {
      assert i == next || i in ids;
    }
  }

  /** The only unused token of a family is the last of its chain. */
  lemma UnusedIsLast(t: Tokens, family: nat, ids: seq<Id>, i: Id)
    requires Chain(t, family, ids) && i in t && t[i].family == family && t[i].usedAt.None?
    ensures i == ids[|ids| - 1]
  {
    var k :| 0 <= k < |ids| && ids[k] == i;
    assert Link(t, family, ids, k);
  }

  lemma CreateKeepsLinear(t: Tokens, c: Call)
    requires Linear(t) && Enabled(t, c) && c.CreateCall?
    ensures Linear(After(t, c))
  {
    var t' := After(t, c);
    forall i | i in t' ensures exists ids :: Chain(t', t'[i].family, ids) {
      if i == c.id {
        assert Link(t', c.family, [c.id], 0);
        assert Chain(t', c.family, [c.id]);
      } else {
        var ids :| Chain(t, t[i].family, ids);
        forall k | 0 <= k < |ids| ensures ids[k] in t { assert Link(t, t[i].family, ids, k); }
        UntouchedChain(t, t', t[i].family, ids);
      }
    }
  }

  /** Revoking tokens by whole families. */
  lemma RevokeKeepsLinear(t: Tokens, t': Tokens, hit: set<Id>, now: Time)
    requires Linear(t) && t'.Keys == t.Keys
    requires forall i | i in t :: t'[i] == if i in hit then t[i].(revokedAt := Some(now)) else t[i]
    requires forall i, j | i in t && j in t && t[i].family == t[j].family && i in hit :: j in hit
    ensures Linear(t')
  {
    forall i | i in t' ensures exists ids :: Chain(t', t'[i].family, ids) {
      var ids :| Chain(t, t[i].family, ids);
      if i in hit {
        RevokedChain(t, t', t[i].family, ids, now);
      } else {
        forall k | 0 <= k < |ids| ensures t'[ids[k]] == t[ids[k]] { assert Link(t, t[i].family, ids, k); }
        UntouchedChain(t, t', t[i].family, ids);
      }
    }
  }

  lemma RevokeFamilyKeeps(t: Tokens, family: nat, now: Time)
    requires Linear(t)
    ensures Linear(RevokeFamily(t, family, now))
  {
    RevokeKeepsLinear(t, RevokeFamily(t, family, now), (set i | i in t && t[i].family == family), now);
  }

  lemma SameFamilySameUser(t: Tokens, i: Id, j: Id)
    requires Linear(t) && i in t && j in t && t[i].family == t[j].family
    ensures t[i].user == t[j].user && (t[i].revokedAt.Some? <==> t[j].revokedAt.Some?)
  {
    var ids :| Chain(t, t[i].family, ids);
    var a :| 0 <= a < |ids| && ids[a] == i;
    var b :| 0 <= b < |ids| && ids[b] == j;
    assert Link(t, t[i].family, ids, a) && Link(t, t[i].family, ids, b);
  }

  lemma SucceedKeepsLinear(t: Tokens, id: Id, next: Id, secret: string, now: Time)
    requires Linear(t) && id in t && next !in t && t[id].usedAt.None? && t[id].revokedAt.None?
    ensures Linear(Succeed(t, id, next, secret, now))
  {
    var t' := Succeed(t, id, next, secret, now);
    forall i | i in t' ensures exists ids :: Chain(t', t'[i].family, ids) {
      if t'[i].family == t[id].family {
        var ids :| Chain(t, t[id].family, ids);
        UnusedIsLast(t, t[id].family, ids, id);
        ExtendedChain(t, t[id].family, ids, next, secret, now);
      } else {
        var ids :| Chain(t, t[i].family, ids);
        forall k | 0 <= k < |ids| ensures ids[k] in t && ids[k] in t' && t'[ids[k]] == t[ids[k]] {
          assert Link(t, t[i].family, ids, k);
        }
        UntouchedChain(t, t', t[i].family, ids);
      }
    }
  }

  lemma CallKeepsLinear(t: Tokens, c: Call)
    requires Linear(t) && Enabled(t, c)
    ensures Linear(After(t, c))
  {
    match c {
      case CreateCall(_, _, _, _, _) => CreateKeepsLinear(t, c);
      case RotateCall(raw, id, secret, now) =>
        match Check(t, raw, now) {
          case None => SucceedKeepsLinear(t, IdOf(raw), id, secret, now);
          case Some(Reused) => RevokeFamilyKeeps(t, t[IdOf(raw)].family, now);
          case Some(_) =>
        }
      case RevokeFamilyCall(family, now) => RevokeFamilyKeeps(t, family, now);
      case RevokeUserCall(user, now) =>
        forall i, j | i in t && j in t && t[i].family == t[j].family ensures t[i].user == t[j].user {
          SameFamilySameUser(t, i, j);
        }
        RevokeKeepsLinear(t, RevokeUser(t, user, now), (set i | i in t && t[i].user == user), now);
    }
  }

  lemma {:induction false} RunKeepsLinear(t: Tokens, calls: seq<Call>, t': Tokens)
    requires Linear(t) && Run(t, calls, t')
    ensures Linear(t')
    decreases |calls|
  {
    if calls != [] {
      CallKeepsLinear(t, calls[0]);
      RunKeepsLinear(After(t, calls[0]), calls[1..], t');
    }
  }

  // ---- what the scheme guarantees ----

  ghost predicate Reachable(t: Tokens) {
    exists calls :: Run(map[], calls, t)
  }

  /** Every family is one chain of replacements, wholly revoked or not at all. */
  lemma FamiliesAreChains(t: Tokens)
    requires Reachable(t)
    ensures Linear(t)
  {
    var calls :| Run(map[], calls, t);
    RunKeepsLinear(map[], calls, t);
  }

  /** A family has at most one token that could still be rotated. */
  lemma OneLiveToken(t: Tokens, i: Id, j: Id)
    requires Reachable(t) && i in t && j in t && t[i].family == t[j].family
    requires t[i].usedAt.None? && t[j].usedAt.None?
    ensures i == j
  {
    FamiliesAreChains(t);
    var ids :| Chain(t, t[i].family, ids);
    UnusedIsLast(t, t[i].family, ids, i);
    UnusedIsLast(t, t[i].family, ids, j);
  }

  predicate Dead(t: Tokens, family: nat) {
    (exists i :: i in t && t[i].family == family) && forall i | i in t && t[i].family == family :: t[i].revokedAt.Some?
  }

  lemma DeadRotatesNothing(t: Tokens, family: nat, c: Call)
    requires Dead(t, family) && Enabled(t, c)
    ensures Dead(After(t, c), family)
    ensures c.RotateCall? && IdOf(c.raw) in t && t[IdOf(c.raw)].family == family
      ==> Rotate(t, c.raw, c.id, c.secret, c.now).1.Refused?
  {
    var w :| w in t && t[w].family == family;
    assert w in After(t, c) && After(t, c)[w].family == family;
  }

  /** A used token of an unrevoked family, presented with its secret, ends the family. */
  lemma ReuseKillsFamily(t: Tokens, raw: string, next: Id, secret: string, now: Time)
    requires Check(t, raw, now) == Some(Reused)
    ensures var (t', r) := Rotate(t, raw, next, secret, now);
      r == Refused(Reused) && IdOf(raw) in t && Dead(t', t[IdOf(raw)].family)
  {
    var t' := Rotate(t, raw, next, secret, now).0;
    assert IdOf(raw) in t';
  }

  /** No token of a dead family ever rotates again. */
  lemma {:induction false} DeadForever(t: Tokens, calls: seq<Call>, t': Tokens, family: nat,
                                       raw: string, next: Id, secret: string, now: Time)
    requires Dead(t, family) && Run(t, calls, t')
    ensures Dead(t', family)
    ensures IdOf(raw) in t' && t'[IdOf(raw)].family == family ==> Rotate(t', raw, next, secret, now).1.Refused?
    decreases |calls|
  {
    if calls != [] {
      DeadRotatesNothing(t, family, calls[0]);
      DeadForever(After(t, calls[0]), calls[1..], t', family, raw, next, secret, now);
    }
  }

  /** A rotation succeeds exactly for the unused, unrevoked, unexpired token of the given id and secret. */
  lemma RotatesIff(t: Tokens, raw: string, next: Id, secret: string, now: Time)
    ensures Rotate(t, raw, next, secret, now).1.Rotated? <==>
      exists id, s :: Parse(raw) == Some((id, s)) && id in t && t[id].secret == s
                      && t[id].revokedAt.None? && t[id].usedAt.None? && t[id].expiresAt >= now
  {
    if Parse(raw).Some? {
      var (id, s) := Parse(raw).value;
      assert Parse(raw) == Some((id, s));
    }
  }

  /** The token a rotation returns can be rotated next; then the first one can be neither, and presenting it ends both. */
  lemma SuccessorWorks(t: Tokens, raw: string, next: Id, secret: string, now: Time, next2: Id, secret2: string, later: Time)
    requires next !in t && DotIndex(next) == |next| && later <= now + REFRESH_TTL_MS
    requires Rotate(t, raw, next, secret, now).1.Rotated?
    ensures var (t', r) := Rotate(t, raw, next, secret, now);
      && Rotate(t', r.token, next2, secret2, later).1.Rotated?
      && var (t2, r2) := Rotate(t', raw, next2, secret2, later);
         r2 == Refused(Reused) && Rotate(t2, r.token, next2, secret2, later).1 == Refused(Revoked)
  {
    ComposeParse(next, secret);
    var t' := Rotate(t, raw, next, secret, now).0;
    assert IdOf(raw) != next;
    assert t'[next] == NewToken(t[IdOf(raw)].user, t[IdOf(raw)].family, secret, now);
    assert t'[IdOf(raw)].usedAt.Some? && t'[IdOf(raw)].secret == t[IdOf(raw)].secret;
  }

  // ---- whose tokens ----

  /** All tokens of a family are of one user. */
  predicate OwnedBy(t: Tokens, family: nat, user: nat) {
    forall i | i in t && t[i].family == family :: t[i].user == user
  }

  predicate HasFamily(t: Tokens, family: nat) {
    exists i :: i in t && t[i].family == family
  }

  lemma CallKeepsOwner(t: Tokens, c: Call, family: nat, user: nat)
    requires OwnedBy(t, family, user) && HasFamily(t, family) && Enabled(t, c)
    ensures OwnedBy(After(t, c), family, user) && HasFamily(After(t, c), family)
  {
    var w :| w in t && t[w].family == family;
    assert w in After(t, c) && After(t, c)[w].family == family;
  }

  lemma {:induction false} RunKeepsOwner(t: Tokens, calls: seq<Call>, t': Tokens, family: nat, user: nat)
    requires OwnedBy(t, family, user) && HasFamily(t, family) && Run(t, calls, t')
    ensures OwnedBy(t', family, user) && HasFamily(t', family)
    decreases |calls|
  {
    if calls != [] {
      CallKeepsOwner(t, calls[0], family, user);
      RunKeepsOwner(After(t, calls[0]), calls[1..], t', family, user);
    }
  }

  /** Whatever happens after a login, a rotation in its family returns its user and the new composite token. */
  lemma RotatesForItsUser(t: Tokens, user: nat, family: nat, first: Id, firstSecret: string, at: Time,
                          calls: seq<Call>, t': Tokens, raw: string, next: Id, secret: string, now: Time)
    requires Enabled(t, CreateCall(user, family, first, firstSecret, at))
    requires Run(After(t, CreateCall(user, family, first, firstSecret, at)), calls, t')
    requires IdOf(raw) in t' && t'[IdOf(raw)].family == family
    ensures Rotate(t', raw, next, secret, now).1.Rotated? ==>
      Rotate(t', raw, next, secret, now).1 == Rotated(user, next + "." + secret)
  {
    var created := After(t, CreateCall(user, family, first, firstSecret, at));
    assert first in created && created[first].family == family;
    RunKeepsOwner(created, calls, t', family, user);
  }

  /** A token just issued, by a login or a rotation, can be rotated for 30 days and no longer. */
  lemma LivesThirtyDays(t: Tokens, raw: string, id: Id, secret: string, now: Time, next: Id, nextSecret: string, later: Time)
    requires '.' !in id && id !in t && Rotate(t, raw, id, secret, now).1.Rotated?
    ensures var t' := Rotate(t, raw, id, secret, now).0;
      Rotate(t', id + "." + secret, next, nextSecret, later).1.Rotated? <==> later - now <= 2_592_000_000
  {
    NoDot(id);
    ComposeParse(id, secret);
    assert IdOf(raw) != id;
  }

  lemma LoginLivesThirtyDays(t: Tokens, user: nat, family: nat, id: Id, secret: string, now: Time,
                             next: Id, nextSecret: string, later: Time)
    requires '.' !in id
    ensures Rotate(Create(t, user, family, id, secret, now), id + "." + secret, next, nextSecret, later).1.Rotated?
      <==> later - now <= 2_592_000_000
  {
    NoDot(id);
    ComposeParse(id, secret);
  }

  lemma {:induction false} NoDot(id: Id)
    requires '.' !in id
    ensures DotIndex(id) == |id|
  {
    if id != "" {
      assert id[0] in id && forall c | c in id[1..] :: c in id;
      NoDot(id[1..]);
    }
  }

  /** Signing out everywhere ends the user's tokens and no others. */
  lemma RevokeUserEnds(t: Tokens, user: nat, now: Time, raw: string, next: Id, secret: string, later: Time)
    ensures var t' := RevokeUser(t, user, now);
      && t'.Keys == t.Keys && (forall i | i in t && t[i].user != user :: t'[i] == t[i])
      && (IdOf(raw) in t && t[IdOf(raw)].user == user ==> Rotate(t', raw, next, secret, later).1.Refused?)
  {
  }

  /** Revoking a family leaves the others alone. */
  lemma RevokeFamilyEnds(t: Tokens, family: nat, now: Time)
    ensures var t' := RevokeFamily(t, family, now);
      t'.Keys == t.Keys && forall i | i in t :: if t[i].family == family then t'[i].revokedAt.Some? else t'[i] == t[i]
  {
  }

  /** What a refusal says, in the order of the checks. */
  lemma RefusedFor(t: Tokens, raw: string, next: Id, secret: string, now: Time)
    requires Parse(raw).Some? && IdOf(raw) in t
    ensures var r, (id, s) := Rotate(t, raw, next, secret, now).1, Parse(raw).value;
      && (r == Refused(BadSecret) <==> s != t[id].secret)
      && (r == Refused(Revoked) <==> s == t[id].secret && t[id].revokedAt.Some?)
      && (r == Refused(Reused) <==> s == t[id].secret && t[id].revokedAt.None? && t[id].usedAt.Some?)
      && (r == Refused(TokenExpired) <==>
            s == t[id].secret && t[id].revokedAt.None? && t[id].usedAt.None? && t[id].expiresAt < now)
  {
  }
}
