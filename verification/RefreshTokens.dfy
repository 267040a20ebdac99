/** Refresh-token rotation with reuse detection. A token stands for its hash (the hash is taken as
    injective and generated tokens as fresh); time only moves forward. */
module RefreshTokens {
  import opened Wrappers

  /** `family` is a history value: the first token of the login this one descends from. */
  datatype Token = Token(user: nat, family: nat, expires: nat, revoked: Option<nat>)

  /** `users` says who is active; `accepted` and `logins` are histories: the tokens refresh has
      accepted, and the family each successful login opened with its user. */
  datatype Session = Session(users: map<nat, bool>, tokens: map<nat, Token>, now: nat,
                             accepted: seq<nat>, logins: seq<(nat, nat)>)

  datatype AuthError = InvalidCredentials | UserInactive | RefreshInvalid

  const Empty := Session(map[], map[], 0, [], [])

  // ----- what each call does

  predicate Unrevoked(tokens: map<nat, Token>, token: nat) {
    token in tokens && tokens[token].revoked.None?
  }

  function RevokeAll(tokens: map<nat, Token>, user: nat, now: nat): map<nat, Token> {
    map t | t in tokens :: if tokens[t].user == user && tokens[t].revoked.None?
      then tokens[t].(revoked := Some(now)) else tokens[t]
  }

  /** Presenting a revoked token that has not expired. */
  predicate Reused(s: Session, token: nat) {
    token in s.tokens && s.tokens[token].expires > s.now && s.tokens[token].revoked.Some?
  }

  predicate Refreshable(s: Session, token: nat) {
    && token in s.tokens && s.tokens[token].expires > s.now && s.tokens[token].revoked.None?
    && s.tokens[token].user in s.users && s.users[s.tokens[token].user]
  }

  function Issued(s: Session, user: nat, family: nat, ttl: nat, next: nat): Session {
    s.(tokens := s.tokens[next := Token(user, family, s.now + ttl, None)])
  }

  function AfterLogin(s: Session, user: nat, verified: bool, ttl: nat, next: nat): Session {
    if user in s.users && verified && s.users[user]
    then Issued(s, user, next, ttl, next).(logins := s.logins + [(next, user)])
    else s
  }

  function AfterRefresh(s: Session, token: nat, ttl: nat, next: nat): Session {
    if Reused(s, token) then s.(tokens := RevokeAll(s.tokens, s.tokens[token].user, s.now))
    else if Refreshable(s, token) then
      var row := s.tokens[token];
      Issued(s.(tokens := s.tokens[token := row.(revoked := Some(s.now))], accepted := s.accepted + [token]),
             row.user, row.family, ttl, next)
    else s
  }

  function AfterLogout(s: Session, token: Option<nat>): Session {
    if token.Some? && Unrevoked(s.tokens, token.value)
    then s.(tokens := s.tokens[token.value := s.tokens[token.value].(revoked := Some(s.now))])
    else s
  }

  // ----- the service, as the source writes it

  class AuthService {
    const ttl: nat
    var users: map<nat, bool>
    var tokens: map<nat, Token>
    var now: nat
    ghost var accepted: seq<nat>
    ghost var logins: seq<(nat, nat)>

    constructor (ttl: nat)
      ensures View() == Empty && this.ttl == ttl
    {
      this.ttl := ttl;
      users, tokens, now, accepted, logins := map[], map[], 0, [], [];
    }

    ghost function View(): Session
      reads this
    {
      Session(users, tokens, now, accepted, logins)
    }

    method Revoke(token: nat)
      requires token in tokens
      modifies `tokens
      ensures tokens == old(tokens)[token := old(tokens)[token].(revoked := Some(now))]
    {
      tokens := tokens[token := tokens[token].(revoked := Some(now))];
    }

    method RevokeAllForUser(user: nat)
      modifies `tokens
      ensures tokens == RevokeAll(old(tokens), user, now)
      ensures tokens.Keys == old(tokens).Keys
      ensures forall t :: t in tokens ==>
        tokens[t] == if old(tokens)[t].user == user && old(tokens)[t].revoked == None
          then Token(user, old(tokens)[t].family, old(tokens)[t].expires, Some(now)) else old(tokens)[t]
    {
      tokens := map t | t in tokens ::
        if tokens[t].user == user && tokens[t].revoked.None? then tokens[t].(revoked := Some(now)) else tokens[t];
    }

    method IssuePair(user: nat, family: nat, next: nat)
      requires next !in tokens
      modifies `tokens
      ensures View() == Issued(old(View()), user, family, ttl, next)
    {
      tokens := tokens[next := Token(user, family, now + ttl, None)];
    }

    /** `user` is the one the email names, if any; `verified` says the password matched. */
    method Login(user: Option<nat>, verified: bool, next: nat) returns (r: Result<nat, AuthError>)
      requires next !in tokens
      modifies this
      ensures View() == if user.Some? then AfterLogin(old(View()), user.value, verified, ttl, next) else old(View())
      ensures r == Ok(next) || r.Err?
      ensures r.Ok? <==> user.Some? && user.value in old(users) && verified && old(users)[user.value]
      ensures r == Err(UserInactive) <==> user.Some? && user.value in old(users) && verified && !old(users)[user.value]
      // a new family with one token, which lasts for `ttl` from now
      ensures r.Ok? ==> tokens == old(tokens)[next := Token(user.value, next, now + ttl, None)]
      ensures r.Err? ==> tokens == old(tokens)
      ensures now == old(now) && users == old(users)
    {
      if user.None? || user.value !in users || !verified { return Err(InvalidCredentials); }
      if !users[user.value] { return Err(UserInactive); }
      IssuePair(user.value, next, next);
      logins := logins + [(next, user.value)];
      return Ok(next);
    }

    method Refresh(token: nat, next: nat) returns (r: Result<nat, AuthError>)
      requires next !in tokens
      modifies this
      ensures View() == AfterRefresh(old(View()), token, ttl, next)
      ensures r == if Refreshable(old(View()), token) then Ok(next) else Err(RefreshInvalid)
      ensures r.Ok? <==>
        && token in old(tokens) && old(tokens)[token].revoked == None && now < old(tokens)[token].expires
        && old(tokens)[token].user in users && users[old(tokens)[token].user]
      // the token presented is spent; its successor in the family lasts for `ttl` from now
      ensures r.Ok? ==>
        var Token(user, family, expires, _) := old(tokens)[token];
        tokens == old(tokens)[token := Token(user, family, expires, Some(now))]
                             [next := Token(user, family, now + ttl, None)]
      // a revoked, unexpired one costs its user all others
      ensures r.Err? && token in old(tokens) && now < old(tokens)[token].expires && old(tokens)[token].revoked.Some? ==>
        && tokens.Keys == old(tokens).Keys
        && forall t :: t in tokens ==>
             tokens[t] == if old(tokens)[t].user == old(tokens)[token].user && old(tokens)[t].revoked == None
               then old(tokens)[t].(revoked := Some(now)) else old(tokens)[t]
      ensures r.Err? ==>
        (token in old(tokens) && now < old(tokens)[token].expires && old(tokens)[token].revoked.Some?)
        || tokens == old(tokens)
      ensures now == old(now) && users == old(users)
    {
      if token !in tokens || tokens[token].expires <= now { return Err(RefreshInvalid); }
      var row := tokens[token];
      if row.revoked.Some? {
        RevokeAllForUser(row.user);
        return Err(RefreshInvalid);
      }
      if row.user !in users || !users[row.user] { return Err(RefreshInvalid); }
      Revoke(token);
      IssuePair(row.user, row.family, next);
      accepted := accepted + [token];
      return Ok(next);
    }

    method Logout(token: Option<nat>)
      modifies this
      ensures View() == AfterLogout(old(View()), token)
      ensures tokens == if token.Some? && token.value in old(tokens) && old(tokens)[token.value].revoked == None
        then old(tokens)[token.value := old(tokens)[token.value].(revoked := Some(now))] else old(tokens)
    {
      if token.None? { return; }
      if token.value in tokens && tokens[token.value].revoked.None? { Revoke(token.value); }
    }
  }

  // ----- runs

  datatype Step =
    | Advance(elapsed: nat)
    | SetActive(user: nat, active: bool)
    | Login(user: nat, verified: bool, next: nat)
    | Refresh(token: nat, next: nat)
    | Logout(cookie: Option<nat>)

  /** A generated token is new. */
  predicate Enabled(s: Session, step: Step) {
    match step
    case Login(_, _, next) => next !in s.tokens
    case Refresh(_, next) => next !in s.tokens
    case _ => true
  }

  function Apply(s: Session, step: Step, ttl: nat): Session {
    match step
    case Advance(elapsed) => s.(now := s.now + elapsed)
    case SetActive(user, active) => s.(users := s.users[user := active])
    case Login(user, verified, next) => AfterLogin(s, user, verified, ttl, next)
    case Refresh(token, next) => AfterRefresh(s, token, ttl, next)
    case Logout(cookie) => AfterLogout(s, cookie)
  }

  ghost predicate IsRun(states: seq<Session>, steps: seq<Step>, ttl: nat) {
    && |states| == |steps| + 1 && states[0] == Empty
    && forall i :: 0 <= i < |steps| ==> Enabled(states[i], steps[i]) && states[i + 1] == Apply(states[i], steps[i], ttl)
  }

  // ----- the invariant

  /** In each family at most one token is unrevoked. */
  ghost predicate OnePerFamily(tokens: map<nat, Token>) {
    forall a, b :: Unrevoked(tokens, a) && Unrevoked(tokens, b) && tokens[a].family == tokens[b].family ==> a == b
  }

  /** A family was opened by a login of its user, and its first token still has a row. */
  ghost predicate FamiliesOk(s: Session) {
    && (forall t :: t in s.tokens ==> (s.tokens[t].family, s.tokens[t].user) in s.logins)
    && (forall i :: 0 <= i < |s.logins| ==>
          s.logins[i].0 in s.tokens && s.tokens[s.logins[i].0].family == s.logins[i].0)
    && (forall i, j :: 0 <= i < j < |s.logins| ==> s.logins[i].0 != s.logins[j].0)
  }

  ghost predicate AcceptedOk(s: Session) {
    && (forall i :: 0 <= i < |s.accepted| ==> s.accepted[i] in s.tokens && s.tokens[s.accepted[i]].revoked.Some?)
    && (forall i, j :: 0 <= i < j < |s.accepted| ==> s.accepted[i] != s.accepted[j])
  }

  ghost predicate Invariant(s: Session) {
    OnePerFamily(s.tokens) && FamiliesOk(s) && AcceptedOk(s)
  }

  /** Revoking more and keeping the rest. */
  ghost predicate OnlyRevokes(tokens: map<nat, Token>, after: map<nat, Token>) {
    && after.Keys == tokens.Keys
    && forall t :: t in tokens ==>
         after[t].family == tokens[t].family && after[t].user == tokens[t].user
         && (after[t].revoked.None? ==> tokens[t].revoked.None?)
  }

  lemma RevokedFamilies(tokens: map<nat, Token>, after: map<nat, Token>)
    requires OnePerFamily(tokens) && OnlyRevokes(tokens, after)
    ensures OnePerFamily(after)
  {
    forall a, b | Unrevoked(after, a) && Unrevoked(after, b) && after[a].family == after[b].family ensures a == b {
      assert Unrevoked(tokens, a) && Unrevoked(tokens, b);
    }
  }

  lemma RevokedLogins(s: Session, after: Session)
    requires FamiliesOk(s) && OnlyRevokes(s.tokens, after.tokens) && after.logins == s.logins
    ensures FamiliesOk(after)
  {
    forall t | t in after.tokens ensures (after.tokens[t].family, after.tokens[t].user) in after.logins {
      assert (s.tokens[t].family, s.tokens[t].user) in s.logins;
    }
  }

  lemma RevokedAccepted(s: Session, after: Session)
    requires AcceptedOk(s) && OnlyRevokes(s.tokens, after.tokens) && after.accepted == s.accepted
    ensures AcceptedOk(after)
  {
  }

  lemma OneMoreAccepted(s: Session, token: nat)
    requires AcceptedOk(s) && token in s.tokens && s.tokens[token].revoked.Some?
    requires forall i :: 0 <= i < |s.accepted| ==> s.accepted[i] != token
    ensures AcceptedOk(s.(accepted := s.accepted + [token]))
  {
  }

  lemma RevokingKeeps(s: Session, after: Session)
    requires Invariant(s) && OnlyRevokes(s.tokens, after.tokens)
    requires after.logins == s.logins && after.accepted == s.accepted
    ensures Invariant(after)
  {
    hide OnePerFamily, FamiliesOk, AcceptedOk, OnlyRevokes;
    RevokedFamilies(s.tokens, after.tokens);
    RevokedLogins(s, after);
    RevokedAccepted(s, after);
  }

  /** A token that is revoked and noted as accepted. */
  lemma AcceptingKeeps(s: Session, after: Session, token: nat)
    requires Invariant(s) && OnlyRevokes(s.tokens, after.tokens) && Unrevoked(s.tokens, token)
    requires token in after.tokens && after.tokens[token].revoked.Some?
    requires after.logins == s.logins && after.accepted == s.accepted + [token]
    ensures Invariant(after)
  {
    hide OnePerFamily, FamiliesOk, OnlyRevokes;
    RevokedFamilies(s.tokens, after.tokens);
    RevokedLogins(s, after);
    NotAccepted(s, token);
    hide AcceptedOk;
    RevokedAccepted(s, after.(accepted := s.accepted));
    OneMoreAccepted(after.(accepted := s.accepted), token);
  }

  lemma NotAccepted(s: Session, token: nat)
    requires AcceptedOk(s) && Unrevoked(s.tokens, token)
    ensures forall i :: 0 <= i < |s.accepted| ==> s.accepted[i] != token
  {
  }

  lemma IssuedFamilies(tokens: map<nat, Token>, row: Token, next: nat)
    requires OnePerFamily(tokens) && next !in tokens
    requires forall t :: Unrevoked(tokens, t) ==> tokens[t].family != row.family
    ensures OnePerFamily(tokens[next := row])
  {
    var after := tokens[next := row];
    forall a, b | Unrevoked(after, a) && Unrevoked(after, b) && after[a].family == after[b].family ensures a == b {
      assert a != next ==> Unrevoked(tokens, a);
      assert b != next ==> Unrevoked(tokens, b);
    }
  }

  lemma IssuedAccepted(s: Session, row: Token, next: nat)
    requires AcceptedOk(s) && next !in s.tokens
    ensures AcceptedOk(s.(tokens := s.tokens[next := row]))
  {
  }

  lemma IssuedLogins(s: Session, row: Token, next: nat)
    requires FamiliesOk(s) && next !in s.tokens && (row.family, row.user) in s.logins
    ensures FamiliesOk(s.(tokens := s.tokens[next := row]))
  {
    var after := s.(tokens := s.tokens[next := row]);
    forall t | t in after.tokens ensures (after.tokens[t].family, after.tokens[t].user) in after.logins {
      assert t != next ==> (s.tokens[t].family, s.tokens[t].user) in s.logins;
    }
  }

  /** A token issued into a family without an unrevoked one. */
  lemma IssuingKeeps(s: Session, user: nat, family: nat, ttl: nat, next: nat)
    requires Invariant(s) && next !in s.tokens && (family, user) in s.logins
    requires forall t :: Unrevoked(s.tokens, t) ==> s.tokens[t].family != family
    ensures Invariant(Issued(s, user, family, ttl, next))
  {
    hide OnePerFamily, FamiliesOk, AcceptedOk;
    var row := Token(user, family, s.now + ttl, None);
    IssuedFamilies(s.tokens, row, next);
    IssuedAccepted(s, row, next);
    IssuedLogins(s, row, next);
  }

  lemma OpenedLogins(s: Session, user: nat, ttl: nat, next: nat)
    requires FamiliesOk(s) && next !in s.tokens
    ensures FamiliesOk(Issued(s, user, next, ttl, next).(logins := s.logins + [(next, user)]))
  {
    var after := Issued(s, user, next, ttl, next).(logins := s.logins + [(next, user)]);
    FamilyIsToken(s, next);
    forall t | t in after.tokens ensures (after.tokens[t].family, after.tokens[t].user) in after.logins {
      if t in s.tokens {
        assert (s.tokens[t].family, s.tokens[t].user) in s.logins;
      } else {
        assert after.logins[|s.logins|] == (next, user);
      }
    }
  }

  lemma LoginKeeps(s: Session, user: nat, ttl: nat, next: nat)
    requires Invariant(s) && next !in s.tokens
    ensures Invariant(Issued(s, user, next, ttl, next).(logins := s.logins + [(next, user)]))
  {
    FamilyIsToken(s, next);
    hide OnePerFamily, FamiliesOk, AcceptedOk;
    var row := Token(user, next, s.now + ttl, None);
    IssuedFamilies(s.tokens, row, next);
    IssuedAccepted(s, row, next);
    SameAccepted(Issued(s, user, next, ttl, next), s.logins + [(next, user)]);
    OpenedLogins(s, user, ttl, next);
  }

  lemma SameAccepted(s: Session, logins: seq<(nat, nat)>)
    requires AcceptedOk(s)
    ensures AcceptedOk(s.(logins := logins))
  {
  }

  lemma FamilyIsToken(s: Session, next: nat)
    requires FamiliesOk(s) && next !in s.tokens
    ensures forall t :: t in s.tokens ==> s.tokens[t].family != next
    ensures forall i :: 0 <= i < |s.logins| ==> s.logins[i].0 != next
  {
    forall t | t in s.tokens ensures s.tokens[t].family != next {
      assert (s.tokens[t].family, s.tokens[t].user) in s.logins;
    }
  }

  lemma StepKeepsInvariant(s: Session, step: Step, ttl: nat)
    requires Invariant(s) && Enabled(s, step)
    ensures Invariant(Apply(s, step, ttl))
  {
    hide FamiliesOk, AcceptedOk;
    match step
    case Login(user, verified, next) =>
      if AfterLogin(s, user, verified, ttl, next) != s { LoginKeeps(s, user, ttl, next); }
    case Refresh(token, next) =>
      if Reused(s, token) {
        RevokingKeeps(s, AfterRefresh(s, token, ttl, next));
      } else if Refreshable(s, token) {
        var row := s.tokens[token];
        var spent := s.(tokens := s.tokens[token := row.(revoked := Some(s.now))], accepted := s.accepted + [token]);
        AcceptingKeeps(s, spent, token);
        FamilyWasOpened(s, token);
        forall t | Unrevoked(spent.tokens, t) ensures spent.tokens[t].family != row.family {
          assert Unrevoked(s.tokens, t) && Unrevoked(s.tokens, token);
        }
        IssuingKeeps(spent, row.user, row.family, ttl, next);
      }
    case Logout(cookie) => RevokingKeeps(s, AfterLogout(s, cookie));
    case _ => RevokingKeeps(s, Apply(s, step, ttl));
  }

  lemma FamilyWasOpened(s: Session, token: nat)
    requires FamiliesOk(s) && token in s.tokens
    ensures (s.tokens[token].family, s.tokens[token].user) in s.logins
  {
  }

  lemma {:induction false} RunKeepsInvariant(states: seq<Session>, steps: seq<Step>, ttl: nat, i: nat)
    requires IsRun(states, steps, ttl) && i < |states|
    ensures Invariant(states[i])
  {
    hide Invariant, Apply, Enabled;
    if i == 0 {
      assert Invariant(Empty) by { EmptyOk(); }
    } else {
      RunKeepsInvariant(states, steps, ttl, i - 1);
      StepKeepsInvariant(states[i - 1], steps[i - 1], ttl);
    }
  }

  lemma EmptyOk()
    ensures Invariant(Empty)
  {
  }

  // ----- the main results

  /** At every moment of every run each family has at most one unrevoked token. */
  lemma OneUnrevokedPerFamily(states: seq<Session>, steps: seq<Step>, ttl: nat, i: nat, a: nat, b: nat)
    requires IsRun(states, steps, ttl) && i < |states|
    requires Unrevoked(states[i].tokens, a) && Unrevoked(states[i].tokens, b)
    requires states[i].tokens[a].family == states[i].tokens[b].family
    ensures a == b
  {
    RunKeepsInvariant(states, steps, ttl, i);
  }

  /** Refresh accepts a token at most once over a whole run. */
  lemma AcceptedAtMostOnce(states: seq<Session>, steps: seq<Step>, ttl: nat, i: nat, j: nat, token: nat)
    requires IsRun(states, steps, ttl) && i < j < |steps|
    requires steps[i].Refresh? && steps[j].Refresh? && steps[i].token == steps[j].token == token
    requires Refreshable(states[i], token)
    ensures !Refreshable(states[j], token)
  {
    assert states[i + 1] == Apply(states[i], steps[i], ttl);
    assert Revoked(states[i + 1], token, states[i].now);
    RevocationIsFinal(states, steps, ttl, i + 1, j, token, states[i].now);
  }

  predicate Revoked(s: Session, token: nat, at: nat) {
    token in s.tokens && s.tokens[token].revoked == Some(at)
  }

  lemma StepKeepsRevoked(s: Session, step: Step, ttl: nat, token: nat, at: nat)
    requires Enabled(s, step) && Revoked(s, token, at)
    ensures Revoked(Apply(s, step, ttl), token, at)
  {
  }

  /** A revocation is never undone, nor its time changed. */
  lemma {:induction false} RevocationIsFinal(states: seq<Session>, steps: seq<Step>, ttl: nat, i: nat, j: nat,
                                             token: nat,
                                             at: nat)
    requires IsRun(states, steps, ttl) && i <= j < |states| && Revoked(states[i], token, at)
    ensures Revoked(states[j], token, at)
    decreases j
  {
    hide Apply, Enabled, Revoked;
    if i < j {
      RevocationIsFinal(states, steps, ttl, i, j - 1, token, at);
      StepKeepsRevoked(states[j - 1], steps[j - 1], ttl, token, at);
    }
  }

  function UnrevokedOf(s: Session, user: nat): set<nat> {
    set t | t in s.tokens && s.tokens[t].user == user && s.tokens[t].revoked.None?
  }

  function LoginsOf(logins: seq<(nat, nat)>, user: nat): nat {
    if logins == [] then 0
    else LoginsOf(logins[..|logins| - 1], user) + (if logins[|logins| - 1].1 == user then 1 else 0)
  }

  /** Tokens of distinct families that logins of the user opened are no more than those logins. */
  lemma {:induction false} DistinctFamilies(s: Session, logins: seq<(nat, nat)>, user: nat, some: set<nat>)
    requires forall t :: t in some ==> t in s.tokens && (s.tokens[t].family, user) in logins
    requires forall a, b :: a in some && b in some && s.tokens[a].family == s.tokens[b].family ==> a == b
    ensures |some| <= LoginsOf(logins, user)
    decreases |logins|
  {
    if logins == [] {
      assert some == {};
    } else {
      var last := logins[|logins| - 1];
      var rest := logins[..|logins| - 1];
      assert logins == rest + [last];
      if t :| t in some && last == (s.tokens[t].family, user) {
        DistinctFamilies(s, rest, user, some - {t});
      } else {
        DistinctFamilies(s, rest, user, some);
      }
    }
  }

  /** A user never has more unrevoked tokens than successful logins. */
  lemma NoMoreThanLogins(states: seq<Session>, steps: seq<Step>, ttl: nat, i: nat, user: nat)
    requires IsRun(states, steps, ttl) && i < |states|
    ensures |UnrevokedOf(states[i], user)| <= LoginsOf(states[i].logins, user)
  {
    RunKeepsInvariant(states, steps, ttl, i);
    var s := states[i];
    forall a, b | a in UnrevokedOf(s, user) && b in UnrevokedOf(s, user) && s.tokens[a].family == s.tokens[b].family
      ensures a == b
    {
      assert Unrevoked(s.tokens, a) && Unrevoked(s.tokens, b);
    }
    DistinctFamilies(s, s.logins, user, UnrevokedOf(s, user));
  }

  // ----- the life of a token, step by step

  /** The step issues this token: an active, verified user logs in, or the unexpired, unrevoked token
      of an active user is exchanged. */
  predicate Issues(s: Session, step: Step, token: nat, user: nat, family: nat) {
    match step
    case Login(u, verified, next) =>
      next == token == family && u == user && verified && user in s.users && s.users[user]
    case Refresh(spent, next) =>
      && next == token && spent in s.tokens && s.tokens[spent].user == user && s.tokens[spent].family == family
      && s.tokens[spent].revoked == None && s.now < s.tokens[spent].expires && user in s.users && s.users[user]
    case _ => false
  }

  /** The step ends the life of an unrevoked token: it is exchanged, or logged out, or its user
      presents one that is revoked and not expired. */
  predicate Ends(s: Session, step: Step, token: nat)
    requires token in s.tokens
  {
    match step
    case Refresh(t, _) =>
      && t in s.tokens && s.now < s.tokens[t].expires
      && (if t == token then s.tokens[t].user in s.users && s.users[s.tokens[t].user]
          else s.tokens[t].revoked.Some? && s.tokens[t].user == s.tokens[token].user)
    case Logout(cookie) => cookie == Some(token)
    case _ => false
  }

  lemma StepIssues(s: Session, step: Step, ttl: nat, token: nat, user: nat, family: nat)
    requires Enabled(s, step) && Issues(s, step, token, user, family)
    ensures token in Apply(s, step, ttl).tokens
    ensures Apply(s, step, ttl).tokens[token] == Token(user, family, s.now + ttl, None)
  {
  }

  lemma StepEnds(s: Session, step: Step, ttl: nat, token: nat)
    requires Enabled(s, step) && token in s.tokens
    ensures token in Apply(s, step, ttl).tokens
    ensures var row := Apply(s, step, ttl).tokens[token];
      && row.user == s.tokens[token].user && row.family == s.tokens[token].family
      && row.expires == s.tokens[token].expires
      && (row.revoked == None <==> s.tokens[token].revoked == None && !Ends(s, step, token))
  {
  }

  ghost predicate NeverEnded(states: seq<Session>, steps: seq<Step>, i: nat, j: nat, token: nat) {
    forall k :: i <= k < j && k < |states| && k < |steps| ==>
      token in states[k].tokens && !Ends(states[k], steps[k], token)
  }

  lemma {:induction false} LifeOfToken(states: seq<Session>, steps: seq<Step>, ttl: nat, i: nat, j: nat,
                                       token: nat, user: nat, family: nat)
    requires IsRun(states, steps, ttl) && i < j < |states| && Issues(states[i], steps[i], token, user, family)
    ensures token in states[j].tokens
    ensures var row := states[j].tokens[token];
      && row.user == user && row.family == family && row.expires == states[i].now + ttl
      && (row.revoked == None <==> NeverEnded(states, steps, i + 1, j, token))
    decreases j
  {
    hide Apply, Enabled, Ends, Issues;
    if j == i + 1 {
      StepIssues(states[i], steps[i], ttl, token, user, family);
    } else {
      LifeOfToken(states, steps, ttl, i, j - 1, token, user, family);
      StepEnds(states[j - 1], steps[j - 1], ttl, token);
    }
  }

  /** Over any run: a token issued at step i is accepted at a later moment if and only if less than
      `ttl` has passed, its user is active, and nothing has ended its life since: no exchange, no
      logout, and no reuse of another token of its user. */
  lemma AcceptedForTtl(states: seq<Session>, steps: seq<Step>, ttl: nat, i: nat, j: nat, token: nat, user: nat,
                       family: nat)
    requires IsRun(states, steps, ttl) && i < j < |states| && Issues(states[i], steps[i], token, user, family)
    ensures Refreshable(states[j], token) <==>
      && states[j].now < states[i].now + ttl && user in states[j].users && states[j].users[user]
      && NeverEnded(states, steps, i + 1, j, token)
  {
    hide IsRun, Issues, NeverEnded;
    LifeOfToken(states, steps, ttl, i, j, token, user, family);
  }

  lemma StepCreates(s: Session, step: Step, ttl: nat, token: nat)
    requires Enabled(s, step) && token !in s.tokens && token in Apply(s, step, ttl).tokens
    ensures var row := Apply(s, step, ttl).tokens[token]; Issues(s, step, token, row.user, row.family)
  {
  }

  /** And there are no other tokens: each was issued by a step of the run. */
  lemma {:induction false} EveryTokenWasIssued(states: seq<Session>, steps: seq<Step>, ttl: nat, j: nat, token: nat)
    returns (i: nat)
    requires IsRun(states, steps, ttl) && j < |states| && token in states[j].tokens
    ensures i < j && Issues(states[i], steps[i], token, states[j].tokens[token].user, states[j].tokens[token].family)
    ensures states[j].tokens[token].expires == states[i].now + ttl
    decreases j
  {
    hide Apply, Enabled, Ends, Issues;
    if token in states[j - 1].tokens {
      i := EveryTokenWasIssued(states, steps, ttl, j - 1, token);
      StepEnds(states[j - 1], steps[j - 1], ttl, token);
    } else {
      i := j - 1;
      StepCreates(states[i], steps[i], ttl, token);
      var row := states[j].tokens[token];
      StepIssues(states[i], steps[i], ttl, token, row.user, row.family);
    }
  }

  // ----- reuse

  /** Every token of these families is revoked. */
  ghost predicate AllRevoked(s: Session, families: set<nat>) {
    forall t :: t in s.tokens && s.tokens[t].family in families ==> s.tokens[t].revoked.Some?
  }

  function FamiliesOf(s: Session, user: nat): set<nat> {
    set t | t in s.tokens && s.tokens[t].user == user :: s.tokens[t].family
  }

  lemma StepKeepsAllRevoked(s: Session, step: Step, ttl: nat, families: set<nat>)
    requires Invariant(s) && Enabled(s, step) && AllRevoked(s, families)
    requires forall f :: f in families ==> f in s.tokens
    ensures AllRevoked(Apply(s, step, ttl), families)
    ensures forall f :: f in families ==> f in Apply(s, step, ttl).tokens
  {
    hide OnePerFamily, AcceptedOk;
    match step
    case Login(_, _, next) => FamilyIsToken(s, next);
    case Refresh(token, next) =>
    case _ =>
  }

  lemma {:induction false} AllStayRevoked(states: seq<Session>, steps: seq<Step>, ttl: nat, i: nat, j: nat,
                                          families: set<nat>)
    requires IsRun(states, steps, ttl) && i <= j < |states| && AllRevoked(states[i], families)
    requires forall f :: f in families ==> f in states[i].tokens
    ensures AllRevoked(states[j], families)
    ensures forall f :: f in families ==> f in states[j].tokens
    decreases j
  {
    hide Apply, Enabled, AllRevoked, Invariant;
    if i < j {
      AllStayRevoked(states, steps, ttl, i, j - 1, families);
      RunKeepsInvariant(states, steps, ttl, j - 1);
      StepKeepsAllRevoked(states[j - 1], steps[j - 1], ttl, families);
    }
  }

  /** Presenting a revoked, unexpired token leaves its user with no unrevoked token and changes no
      token of anyone else. */
  lemma ReuseRevokesAll(s: Session, token: nat, ttl: nat, next: nat)
    requires Invariant(s) && Reused(s, token)
    ensures var after := AfterRefresh(s, token, ttl, next);
      && UnrevokedOf(after, s.tokens[token].user) == {}
      && after.tokens.Keys == s.tokens.Keys
      && (forall t :: t in s.tokens && s.tokens[t].user != s.tokens[token].user ==> after.tokens[t] == s.tokens[t])
      && AllRevoked(after, FamiliesOf(s, s.tokens[token].user))
  {
    var user := s.tokens[token].user;
    var after := AfterRefresh(s, token, ttl, next);
    forall t | t in after.tokens
      && after.tokens[t].family in FamiliesOf(s, user) ensures after.tokens[t].revoked.Some? {
      var u :| u in s.tokens && s.tokens[u].user == user && s.tokens[u].family == s.tokens[t].family;
      SameUser(s, u, t);
    }
  }

  lemma SameUser(s: Session, a: nat, b: nat)
    requires Invariant(s) && a in s.tokens && b in s.tokens && s.tokens[a].family == s.tokens[b].family
    ensures s.tokens[a].user == s.tokens[b].user
  {
    var i :| 0 <= i < |s.logins| && s.logins[i] == (s.tokens[a].family, s.tokens[a].user);
    var j :| 0 <= j < |s.logins| && s.logins[j] == (s.tokens[b].family, s.tokens[b].user);
    assert i == j;
  }

  /** After a reuse, every token issued to that user before, and every token descended from one, is
      refused for the rest of the run: only a new login helps. */
  lemma ReuseEndsFamilies(states: seq<Session>, steps: seq<Step>, ttl: nat, i: nat, j: nat, token: nat)
    requires IsRun(states, steps, ttl) && i < |steps| && i < j < |states|
    requires steps[i].Refresh? && Reused(states[i], steps[i].token)
    requires token in states[j].tokens
    requires states[j].tokens[token].family in FamiliesOf(states[i], states[i].tokens[steps[i].token].user)
    ensures !Refreshable(states[j], token)
  {
    RunKeepsInvariant(states, steps, ttl, i);
    var s := states[i];
    var families := FamiliesOf(s, s.tokens[steps[i].token].user);
    assert states[i + 1] == AfterRefresh(s, steps[i].token, ttl, steps[i].next);
    hide IsRun, Invariant, AfterRefresh;
    ReuseRevokesAll(s, steps[i].token, ttl, steps[i].next);
    FamiliesAreTokens(s, s.tokens[steps[i].token].user);
    AllStayRevoked(states, steps, ttl, i + 1, j, families);
  }

  lemma FamiliesAreTokens(s: Session, user: nat)
    requires Invariant(s)
    ensures forall f :: f in FamiliesOf(s, user) ==> f in s.tokens
  {
    hide OnePerFamily, AcceptedOk;
    forall f | f in FamiliesOf(s, user) ensures f in s.tokens {
      var t :| t in s.tokens && s.tokens[t].family == f;
      var k :| 0 <= k < |s.logins| && s.logins[k] == (f, s.tokens[t].user);
    }
  }
}
