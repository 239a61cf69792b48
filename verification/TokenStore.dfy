/** The refresh-token repository and the token steps of its handlers as they run. */
module TokenStore {
  import opened Ordering
  import opened RefreshTokens

  class TokenRepository {
    var tokens: Table

    constructor ()
      ensures tokens == map[]
    {
      tokens := map[];
    }

    method Create(id: nat, user: nat, family: nat, expiresAt: int)
      modifies this
      ensures tokens == old(tokens)[id := Token(user, family, expiresAt, None, None)]
    {
      tokens := tokens[id := Token(user, family, expiresAt, None, None)];
    }

    method Rotate(current: nat, replacement: nat, expiresAt: int, at: int)
      requires current in tokens && replacement !in tokens
      modifies this
      ensures tokens == RefreshTokens.Rotate(old(tokens), current, replacement, expiresAt, at)
      ensures tokens.Keys == old(tokens).Keys + {replacement}
      ensures tokens[replacement].Live() && tokens[replacement].family == old(tokens)[current].family
      ensures tokens[current].replacedBy == Some(replacement) && !tokens[current].Live()
      ensures forall id :: id in old(tokens) && id != current ==> tokens[id] == old(tokens)[id]
    {
      Create(replacement, tokens[current].user, tokens[current].family, expiresAt);
      tokens := tokens[current := tokens[current].(revokedAt := Some(at))];
      tokens := tokens[current := tokens[current].(replacedBy := Some(replacement))];
    }

    method Revoke(id: nat, at: int)
      requires id in tokens
      modifies this
      ensures tokens == old(tokens)[id := old(tokens)[id].Revoked(at)]
    {
      if tokens[id].revokedAt == None {
        tokens := tokens[id := tokens[id].(revokedAt := Some(at))];
      }
    }

    /** Stamps the given records one by one. */
    method RevokeEach(records: set<nat>, at: int)
      requires forall id :: id in records ==> id in tokens && tokens[id].Live()
      modifies this
      ensures tokens.Keys == old(tokens).Keys
      ensures forall id :: id in tokens ==>
        tokens[id] == if id in records then old(tokens)[id].Revoked(at) else old(tokens)[id]
    {
      var rest := records;
      while rest != {}
        invariant rest <= records && tokens.Keys == old(tokens).Keys
        invariant forall id :: id in tokens ==>
          tokens[id] == if id in records && id !in rest then old(tokens)[id].Revoked(at) else old(tokens)[id]
        decreases rest
      {
        var id :| id in rest;
        tokens := tokens[id := tokens[id].(revokedAt := Some(at))];
        rest := rest - {id};
      }
    }

    method RevokeFamily(family: nat, at: int) returns (count: nat)
      modifies this
      ensures tokens == RefreshTokens.RevokeFamily(old(tokens), family, at)
      ensures count == |LiveIds(old(tokens), family)|
      ensures LiveIds(tokens, family) == {} && FamilyEnds(old(tokens), tokens, family, at)
      ensures forall id :: id in tokens && (tokens[id].family != family || !old(tokens)[id].Live()) ==> tokens[id] == old(tokens)[id]
    {
      var records := LiveIds(tokens, family);
      RevokeEach(records, at);
      return |records|;
    }

    method RevokeAllForUser(user: nat, at: int) returns (count: nat)
      modifies this
      ensures tokens == RefreshTokens.RevokeAllForUser(old(tokens), user, at)
      ensures count == |LiveIdsOfUser(old(tokens), user)|
      ensures LiveIdsOfUser(tokens, user) == {} && tokens.Keys == old(tokens).Keys
      ensures forall id :: id in tokens && tokens[id].user == user && old(tokens)[id].revokedAt == None ==>
        tokens[id] == old(tokens)[id].(revokedAt := Some(at))
      ensures forall id :: id in tokens && (tokens[id].user != user || !old(tokens)[id].Live()) ==> tokens[id] == old(tokens)[id]
    {
      var records := LiveIdsOfUser(tokens, user);
      RevokeEach(records, at);
      return |records|;
    }

    /** `refresh_tokens`. */
    method Refresh(id: nat, subject: nat, userActive: bool, replacement: nat, expiresAt: int, now: int)
        returns (verdict: Verdict)
      requires replacement !in tokens
      modifies this
      ensures (tokens, verdict)
        == RefreshTokens.Refresh(old(tokens), id, subject, userActive, replacement, expiresAt, now)
      ensures verdict.Rotated? ==> old(tokens)[id].Live() && tokens.Keys == old(tokens).Keys + {replacement}
      ensures verdict.Reused? ==> id in old(tokens) && !old(tokens)[id].Live() && LiveIds(tokens, old(tokens)[id].family) == {}
      ensures !verdict.Rotated? ==> tokens.Keys == old(tokens).Keys
    {
      if id !in tokens || tokens[id].user != subject {
        return Invalid;
      }
      if tokens[id].revokedAt != None {
        var _ := RevokeFamily(tokens[id].family, now);
        return Reused;
      }
      if tokens[id].expiresAt <= now {
        Revoke(id, now);
        return Invalid;
      }
      if !userActive {
        var _ := RevokeFamily(tokens[id].family, now);
        return Invalid;
      }
      Rotate(id, replacement, expiresAt, now);
      return Rotated(replacement);
    }

    /** `logout`. */
    method Logout(id: nat, subject: nat, now: int) returns (known: bool)
      modifies this
      ensures tokens == RefreshTokens.Logout(old(tokens), id, subject, now)
      ensures known == Known(old(tokens), id, subject)
      ensures known ==> tokens == old(tokens)[id :=
        if old(tokens)[id].revokedAt == None then old(tokens)[id].(revokedAt := Some(now)) else old(tokens)[id]]
      ensures forall other :: other in tokens && (other != id || !known) ==> tokens[other] == old(tokens)[other]
    {
      if id !in tokens || tokens[id].user != subject {
        return false;
      }
      Revoke(id, now);
      return true;
    }
  }
}
