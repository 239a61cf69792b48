/** Refresh-token families: every login starts one, every refresh extends it by one token, and
    presenting a token that was revoked before ends it for good. */
module RefreshTokens {
  import opened Ordering
  import opened Combinations

  /** A stored token; its secret value is stood for by its id. */
  datatype Token = Token(user: nat, family: nat, expiresAt: int, revokedAt: Option<int>, replacedBy: Option<nat>)
  {
    predicate Live()
    {
      revokedAt.None?
    }

    function Revoked(at: int): Token
    {
      if revokedAt.None? then this.(revokedAt := Some(at)) else this
    }
  }

  type Table = map<nat, Token>

  datatype Verdict = Rotated(replacement: nat) | Invalid | Reused

  /** `revoke_family`. */
  function RevokeFamily(tokens: Table, family: nat, at: int): Table
  {
    map id | id in tokens :: if tokens[id].family == family then tokens[id].Revoked(at) else tokens[id]
  }

  /** `revoke_all_for_user`. */
  function RevokeAllForUser(tokens: Table, user: nat, at: int): Table
  {
    map id | id in tokens :: if tokens[id].user == user then tokens[id].Revoked(at) else tokens[id]
  }

  /** `rotate`. */
  function Rotate(tokens: Table, current: nat, replacement: nat, expiresAt: int, at: int): Table
    requires current in tokens
  {
    var used := tokens[current];
    tokens[replacement := Token(used.user, used.family, expiresAt, None, None)]
          [current := used.(revokedAt := Some(at), replacedBy := Some(replacement))]
  }

  /** The presented token is on record and belongs to the subject of its claims. */
  predicate Known(tokens: Table, id: nat, subject: nat)
  {
    id in tokens && tokens[id].user == subject
  }

  /** The token step of `refresh_tokens`. */
  function Refresh(
      tokens: Table, id: nat, subject: nat, userActive: bool, replacement: nat, expiresAt: int, now: int)
      : (Table, Verdict)
  {
    if !Known(tokens, id, subject) then (tokens, Invalid)
    else if !tokens[id].Live() then (RevokeFamily(tokens, tokens[id].family, now), Reused)
    else if tokens[id].expiresAt <= now then (tokens[id := tokens[id].Revoked(now)], Invalid)
    else if !userActive then (RevokeFamily(tokens, tokens[id].family, now), Invalid)
    else (Rotate(tokens, id, replacement, expiresAt, now), Rotated(replacement))
  }

  /** Every token of the family is revoked, those still live as of now; every other token stays as it is. */
  ghost predicate FamilyEnds(before: Table, after: Table, family: nat, now: int)
  {
    && after.Keys == before.Keys
    && forall id :: id in before ==>
         after[id] == if before[id].family == family && before[id].revokedAt == None
                      then before[id].(revokedAt := Some(now)) else before[id]
  }

  /** What presenting a token comes to: unknown, it changes nothing; used before, or of a user who is no longer
      active, it ends its family; expired, it alone is revoked; otherwise it is replaced within its family. */
  lemma RefreshOnRecords(
      tokens: Table, id: nat, subject: nat, userActive: bool, replacement: nat, expiresAt: int, now: int)
    requires replacement !in tokens
    ensures var (after, verdict) := Refresh(tokens, id, subject, userActive, replacement, expiresAt, now);
      if id !in tokens || tokens[id].user != subject then verdict == Invalid && after == tokens
      else
        var t := tokens[id];
        if t.revokedAt != None then verdict == Reused && FamilyEnds(tokens, after, t.family, now)
        else if now >= t.expiresAt then verdict == Invalid && after == tokens[id := t.(revokedAt := Some(now))]
        else if !userActive then verdict == Invalid && FamilyEnds(tokens, after, t.family, now)
        else
          && verdict == Rotated(replacement)
          && after == tokens[id := t.(revokedAt := Some(now), replacedBy := Some(replacement))]
                            [replacement := Token(t.user, t.family, expiresAt, None, None)]
  {
  }

  /** The token step of `logout`. */
  function Logout(tokens: Table, id: nat, subject: nat, now: int): Table
  {
    if !Known(tokens, id, subject) then tokens else tokens[id := tokens[id].Revoked(now)]
  }

  /** `revokeAll` is the token step of a password change and of ending all sessions. */
  datatype Action =
    | LoginStep(id: nat, user: nat, family: nat, expiresAt: int)
    | RefreshStep(id: nat, subject: nat, userActive: bool, replacement: nat, expiresAt: int, now: int)
    | LogoutStep(id: nat, subject: nat, now: int)
    | RevokeAllStep(user: nat, now: int)

  /** New ids and families are fresh. */
  function Perform(tokens: Table, a: Action): Table
  {
    match a
    case LoginStep(id, user, family, expiresAt) =>
      if id in tokens || exists other :: other in tokens && tokens[other].family == family then tokens
      else tokens[id := Token(user, family, expiresAt, None, None)]
    case RefreshStep(id, subject, userActive, replacement, expiresAt, now) =>
      if replacement in tokens then tokens
      else Refresh(tokens, id, subject, userActive, replacement, expiresAt, now).0
    case LogoutStep(id, subject, now) => Logout(tokens, id, subject, now)
    case RevokeAllStep(user, now) => RevokeAllForUser(tokens, user, now)
  }

  function After(tokens: Table, actions: seq<Action>): Table
  {
    if actions == [] then tokens else Perform(After(tokens, actions[..|actions| - 1]), actions[|actions| - 1])
  }

  function FamilyIds(tokens: Table, family: nat): set<nat>
  {
    set id | id in tokens && tokens[id].family == family
  }

  function LiveIds(tokens: Table, family: nat): set<nat>
  {
    set id | id in FamilyIds(tokens, family) && tokens[id].Live()
  }

  function LiveIdsOfUser(tokens: Table, user: nat): set<nat>
  {
    set id | id in tokens && tokens[id].user == user && tokens[id].Live()
  }

  /** The tokens of the family, each replaced by the next; all of one user, and only the last one
      may be live. */
  ghost predicate Chain(tokens: Table, family: nat, chain: seq<nat>)
  {
    && Distinct(chain)
    && (forall id :: id in chain <==> id in FamilyIds(tokens, family))
    && (forall i :: 0 <= i < |chain| ==> chain[i] in tokens)
    && (forall i :: 0 <= i < |chain| ==> tokens[chain[i]].user == tokens[chain[0]].user)
    && (forall i :: 0 <= i < |chain| - 1 ==>
          tokens[chain[i]].replacedBy == Some(chain[i + 1]) && !tokens[chain[i]].Live())
    && (chain != [] ==> tokens[chain[|chain| - 1]].replacedBy.None?)
  }

  ghost predicate Chained(tokens: Table)
  {
    forall family :: HasChain(tokens, family)
  }

  ghost predicate HasChain(tokens: Table, family: nat)
  {
    exists chain :: Chain(tokens, family, chain)
  }

  /** What the table never takes back: tokens, their family and user, their first revocation and
      their replacement. */
  ghost predicate Evolves(before: Table, after: Table)
  {
    forall id :: id in before ==>
      && id in after && after[id].family == before[id].family && after[id].user == before[id].user
      && (!before[id].Live() ==> after[id].revokedAt == before[id].revokedAt)
      && (before[id].replacedBy.Some? ==> after[id].replacedBy == before[id].replacedBy)
  }

  /** The same tokens, some of them newly revoked. */
  ghost predicate OnlyRevokes(before: Table, after: Table)
  {
    && after.Keys == before.Keys
    && forall id :: id in before ==>
         after[id] == before[id] || (before[id].Live() && after[id] == before[id].(revokedAt := after[id].revokedAt))
  }

  lemma RevokingKeepsChains(before: Table, after: Table)
    requires Chained(before) && OnlyRevokes(before, after) && Evolves(before, after)
    ensures Chained(after)
  {
    forall family ensures HasChain(after, family) {
      assert HasChain(before, family);
      var chain :| Chain(before, family, chain);
      assert FamilyIds(after, family) == FamilyIds(before, family);
      forall i | 0 <= i < |chain| ensures chain[i] in before {
        assert chain[i] in chain;
      }
      assert Chain(after, family, chain);
    }
  }

  /** A live token is the last of its chain. */
  lemma LiveIsLast(tokens: Table, family: nat, chain: seq<nat>, id: nat)
    requires Chain(tokens, family, chain) && id in tokens && tokens[id].family == family && tokens[id].Live()
    ensures chain != [] && chain[|chain| - 1] == id
  {
    assert id in chain;
  }

  lemma RotateExtendsChain(tokens: Table, chain: seq<nat>, id: nat, replacement: nat, expiresAt: int, at: int)
    requires id in tokens && tokens[id].Live() && replacement !in tokens
    requires Chain(tokens, tokens[id].family, chain)
    ensures Chain(Rotate(tokens, id, replacement, expiresAt, at), tokens[id].family, chain + [replacement])
  {
    var after, family, longer := Rotate(tokens, id, replacement, expiresAt, at), tokens[id].family, chain + [replacement];
    LiveIsLast(tokens, family, chain, id);
    assert forall i :: 0 <= i < |chain| ==> chain[i] in chain;
    DistinctSnoc(chain, replacement);
    assert FamilyIds(after, family) == FamilyIds(tokens, family) + {replacement};
    forall i | 0 <= i < |longer| - 1
      ensures after[longer[i]].replacedBy == Some(longer[i + 1]) && !after[longer[i]].Live()
    {
      if i < |chain| - 1 {
        assert chain[i] != chain[|chain| - 1];
      }
    }
  }

  lemma RotateKeepsChains(tokens: Table, id: nat, replacement: nat, expiresAt: int, at: int)
    requires Chained(tokens) && id in tokens && tokens[id].Live() && replacement !in tokens
    ensures Chained(Rotate(tokens, id, replacement, expiresAt, at))
  {
    var after := Rotate(tokens, id, replacement, expiresAt, at);
    forall family ensures HasChain(after, family) {
      assert HasChain(tokens, family);
      var chain :| Chain(tokens, family, chain);
      if family == tokens[id].family {
        RotateExtendsChain(tokens, chain, id, replacement, expiresAt, at);
      } else {
        assert FamilyIds(after, family) == FamilyIds(tokens, family);
        forall i | 0 <= i < |chain| ensures chain[i] in after && after[chain[i]] == tokens[chain[i]] {
          assert chain[i] in chain;
        }
        assert Chain(after, family, chain);
      }
    }
  }

  lemma LoginKeepsChains(tokens: Table, id: nat, user: nat, family: nat, expiresAt: int)
    requires Chained(tokens) && id !in tokens && forall other :: other in tokens ==> tokens[other].family != family
    ensures Chained(tokens[id := Token(user, family, expiresAt, None, None)])
  {
    var after := tokens[id := Token(user, family, expiresAt, None, None)];
    forall f ensures HasChain(after, f) {
      if f == family {
        assert FamilyIds(after, f) == {id};
        assert Chain(after, f, [id]);
      } else {
        assert HasChain(tokens, f);
        var chain :| Chain(tokens, f, chain);
        assert FamilyIds(after, f) == FamilyIds(tokens, f);
        forall i | 0 <= i < |chain| ensures chain[i] in after && after[chain[i]] == tokens[chain[i]] {
          assert chain[i] in chain;
        }
        assert Chain(after, f, chain);
      }
    }
  }

  lemma PerformKeepsChains(tokens: Table, a: Action)
    requires Chained(tokens)
    ensures Chained(Perform(tokens, a)) && Evolves(tokens, Perform(tokens, a))
  {
    var after := Perform(tokens, a);
    if a.LoginStep? && after != tokens {
      LoginKeepsChains(tokens, a.id, a.user, a.family, a.expiresAt);
    } else if a.RefreshStep? && a.replacement !in tokens
      && Refresh(tokens, a.id, a.subject, a.userActive, a.replacement, a.expiresAt, a.now).1.Rotated? {
      RotateKeepsChains(tokens, a.id, a.replacement, a.expiresAt, a.now);
      assert HasChain(tokens, tokens[a.id].family);
      var chain :| Chain(tokens, tokens[a.id].family, chain);
      LiveIsLast(tokens, tokens[a.id].family, chain, a.id);
    } else {
      assert OnlyRevokes(tokens, after);
      RevokingKeepsChains(tokens, after);
    }
  }

  lemma EvolvesTransitively(a: Table, b: Table, c: Table)
    requires Evolves(a, b) && Evolves(b, c)
    ensures Evolves(a, c)
  {
  }

  lemma {:induction false} AlwaysChained(tokens: Table, actions: seq<Action>)
    requires Chained(tokens)
    ensures Chained(After(tokens, actions)) && Evolves(tokens, After(tokens, actions))
  {
    if actions != [] {
      var before := After(tokens, actions[..|actions| - 1]);
      AlwaysChained(tokens, actions[..|actions| - 1]);
      PerformKeepsChains(before, actions[|actions| - 1]);
      EvolvesTransitively(tokens, before, After(tokens, actions));
    }
  }

  lemma NoTokensNoChains()
    ensures Chained(map[])
  {
    forall family ensures HasChain(map[], family) {
      assert Chain(map[], family, []);
    }
  }

  /** Main result: after any history each family is one chain, and at most its last token is live. */
  lemma FamiliesAreChains(actions: seq<Action>, family: nat) returns (chain: seq<nat>)
    ensures Chain(After(map[], actions), family, chain)
    ensures forall id :: id in LiveIds(After(map[], actions), family) ==> chain != [] && id == chain[|chain| - 1]
  {
    NoTokensNoChains();
    AlwaysChained(map[], actions);
    assert HasChain(After(map[], actions), family);
    chain :| Chain(After(map[], actions), family, chain);
    var tokens := After(map[], actions);
    forall id | id in LiveIds(tokens, family) ensures chain != [] && id == chain[|chain| - 1] {
      LiveIsLast(tokens, family, chain, id);
    }
  }

  /** The family exists and none of its tokens is live. */
  ghost predicate Dead(tokens: Table, family: nat)
  {
    FamilyIds(tokens, family) != {} && LiveIds(tokens, family) == {}
  }

  lemma PerformKeepsDead(tokens: Table, a: Action, family: nat)
    requires Dead(tokens, family)
    ensures Dead(Perform(tokens, a), family)
  {
    var id :| id in FamilyIds(tokens, family);
    var after := Perform(tokens, a);
    assert id in FamilyIds(after, family);
    forall other ensures other !in LiveIds(after, family) {
      assert other !in LiveIds(tokens, family);
      if a.RefreshStep? && a.id in tokens {
        assert a.id !in LiveIds(tokens, family);
      }
    }
  }

  lemma {:induction false} DeadStaysDead(tokens: Table, actions: seq<Action>, family: nat)
    requires Dead(tokens, family)
    ensures Dead(After(tokens, actions), family)
  {
    if actions != [] {
      DeadStaysDead(tokens, actions[..|actions| - 1], family);
      PerformKeepsDead(After(tokens, actions[..|actions| - 1]), actions[|actions| - 1], family);
    }
  }

  /** Main result: presenting a revoked token is answered as reuse, and from then on its family
      never has a live token again. */
  lemma ReuseEndsTheFamily(tokens: Table, a: Action, later: seq<Action>)
    requires a.RefreshStep? && a.replacement !in tokens && Known(tokens, a.id, a.subject) && !tokens[a.id].Live()
    ensures Refresh(tokens, a.id, a.subject, a.userActive, a.replacement, a.expiresAt, a.now).1 == Reused
    ensures Dead(After(Perform(tokens, a), later), tokens[a.id].family)
  {
    var after, family := Perform(tokens, a), tokens[a.id].family;
    assert a.id in FamilyIds(after, family);
    DeadStaysDead(after, later, family);
  }

  /** Main result: a password change or ending all sessions ends every family the user has at that time. */
  lemma RevokeAllEndsSessions(actions: seq<Action>, user: nat, now: int, later: seq<Action>, id: nat)
    requires id in After(map[], actions) && After(map[], actions)[id].user == user
    ensures var tokens := After(map[], actions);
      Dead(After(Perform(tokens, RevokeAllStep(user, now)), later), tokens[id].family)
  {
    var tokens := After(map[], actions);
    var after, family := Perform(tokens, RevokeAllStep(user, now)), tokens[id].family;
    var chain := FamiliesAreChains(actions, family);
    assert id in chain;
    forall other | other in FamilyIds(after, family) ensures !after[other].Live() {
      assert other in chain;
    }
    assert id in FamilyIds(after, family);
    DeadStaysDead(after, later, family);
  }

  predicate MayRotate(tokens: Table, a: Action)
    requires a.RefreshStep?
  {
    Known(tokens, a.id, a.subject) && tokens[a.id].Live() && a.now < tokens[a.id].expiresAt && a.userActive
  }

  /** Main result: a token is rotated exactly when it is on record, live, unexpired and its user active;
      it is replaced at most once, by the token that was answered. */
  lemma {:induction false} RotatesAtMostOnce(actions: seq<Action>, a: Action, later: seq<Action>)
    requires a.RefreshStep? && a.replacement !in After(map[], actions)
    ensures var tokens := After(map[], actions);
      var verdict := Refresh(tokens, a.id, a.subject, a.userActive, a.replacement, a.expiresAt, a.now).1;
      && (verdict.Rotated? <==> MayRotate(tokens, a))
      && (verdict.Rotated? ==>
            var v := After(Perform(tokens, a), later);
            a.id in v && v[a.id].replacedBy == Some(a.replacement) && !v[a.id].Live())
  {
    NoTokensNoChains();
    AlwaysChained(map[], actions);
    var tokens := After(map[], actions);
    PerformKeepsChains(tokens, a);
    AlwaysChained(Perform(tokens, a), later);
  }
}
