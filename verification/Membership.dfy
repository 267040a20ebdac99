/** Invites and members: what the rows say is what the requests did. Each request is one step. */
module Membership {
  import opened Wrappers
  import opened Access

  datatype User = User(email: string, admin: bool)

  /** `accepted` holds `accepted_by` once `accepted_at` is set. An invite's id stands for the hash
      of its token. */
  datatype Invite = Invite(server: nat, email: string, role: MemberRole, expires: nat,
                           accepted: Option<nat>, revoked: bool)

  /** The history of member rows. */
  datatype Event = Joined(server: nat, user: nat, invite: nat) | Left(server: nat, user: nat)

  /** `known` and `log` are histories: the server ids ever used, and the events. */
  datatype Club = Club(users: map<nat, User>, owners: map<nat, nat>, members: seq<Member>, invites: map<nat, Invite>,
                       now: nat, known: set<nat>, log: seq<Event>)

  datatype MemberError = MemberAlreadyExists | InviteAlreadyExists | InviteNotFound | InviteEmailMismatch
                       | ServerNotFound | NotServerMember

  const NoClub := Club(map[], map[], [], map[], 0, {}, [])

  // ----- emails

  /** The ASCII characters str.strip() removes. */
  predicate IsSpace(c: char) {
    9 <= c as int <= 13 || 28 <= c as int <= 32
  }

  function Lower(s: string): (t: string)
    ensures |t| == |s|
  {
    if s == "" then ""
    else [if 'A' <= s[0] <= 'Z' then (s[0] as int + 32) as char else s[0]] + Lower(s[1..])
  }

  function Strip(s: string): string {
    if s != "" && IsSpace(s[0]) then Strip(s[1..])
    else if s != "" && IsSpace(s[|s| - 1]) then Strip(s[..|s| - 1])
    else s
  }

  /** email.strip().lower() */
  function Normalize(email: string): string {
    Lower(Strip(email))
  }

  /** Tab to carriage return, the four separators, space. */
  predicate Blank(c: char) {
    c as int in {9, 10, 11, 12, 13, 28, 29, 30, 31, 32}
  }

  /** s[i..j] is what is left when the blanks at both ends are taken away. */
  ghost predicate Trims(s: string, i: nat, j: nat) {
    && i <= j <= |s|
    && (forall k :: 0 <= k < i || j <= k < |s| ==> Blank(s[k]))
    && (i < j ==> !Blank(s[i]) && !Blank(s[j - 1]))
  }

  predicate LowerOf(t: string, s: string) {
    |t| == |s| && forall k :: 0 <= k < |s| ==>
      (if 65 <= s[k] as int <= 90 then t[k] as int == s[k] as int + 32 else t[k] == s[k])
  }

  lemma {:induction false} LowerByCharacter(s: string)
    ensures LowerOf(Lower(s), s)
  {
    if s != "" {
      LowerByCharacter(s[1..]);
    }
  }

  lemma TrimsTail(s: string, i: nat, j: nat)
    requires s != "" && Blank(s[0]) && Trims(s[1..], i, j)
    ensures Trims(s, i + 1, j + 1) && s[i + 1..j + 1] == s[1..][i..j]
  {
    forall k | 0 <= k < i + 1 || j + 1 <= k < |s| ensures Blank(s[k]) {
      if k > 0 { assert s[k] == s[1..][k - 1]; }
    }
    assert forall k :: 0 <= k < j - i ==> s[i + 1..j + 1][k] == s[1..][i..j][k];
  }

  lemma TrimsFront(s: string, i: nat, j: nat)
    requires s != "" && Blank(s[|s| - 1]) && Trims(s[..|s| - 1], i, j)
    ensures Trims(s, i, j) && s[i..j] == s[..|s| - 1][i..j]
  {
    forall k | 0 <= k < i || j <= k < |s| ensures Blank(s[k]) {
      if k < |s| - 1 { assert s[k] == s[..|s| - 1][k]; }
    }
  }

  lemma TrimsAll(s: string)
    requires s != "" ==> !Blank(s[0]) && !Blank(s[|s| - 1])
    ensures Trims(s, 0, |s|) && s[0..|s|] == s
  {
  }

  lemma {:induction false} StripTrims(s: string) returns (i: nat, j: nat)
    ensures Trims(s, i, j) && Strip(s) == s[i..j]
    decreases |s|
  {
    hide Trims;
    if s != "" && IsSpace(s[0]) {
      i, j := StripTrims(s[1..]);
      TrimsTail(s, i, j);
      i, j := i + 1, j + 1;
    } else if s != "" && IsSpace(s[|s| - 1]) {
      i, j := StripTrims(s[..|s| - 1]);
      TrimsFront(s, i, j);
    } else {
      i, j := 0, |s|;
      TrimsAll(s);
    }
  }

  /** What is between the outermost characters that are no blanks, A to Z replaced by a to z. */
  lemma NormalizeByCharacter(email: string) returns (i: nat, j: nat)
    ensures Trims(email, i, j) && LowerOf(Normalize(email), email[i..j])
  {
    i, j := StripTrims(email);
    LowerByCharacter(email[i..j]);
  }

  // ----- queries

  /** The user whose email, lower-cased, is this one; the unique index allows one. */
  predicate HasEmail(users: map<nat, User>, user: nat, email: string) {
    user in users && Lower(users[user].email) == email
  }

  predicate Open(invite: Invite) {
    invite.accepted.None? && !invite.revoked
  }

  predicate OpenFor(invites: map<nat, Invite>, i: nat, server: nat, email: string) {
    i in invites && Open(invites[i]) && invites[i].server == server && invites[i].email == email
  }

  /** An invite that may still be accepted: an expired one is open, but not usable. */
  predicate Usable(club: Club, invite: nat) {
    invite in club.invites && Open(club.invites[invite]) && club.invites[invite].expires > club.now
  }

  // ----- what each request does

  /** Whether the email belongs to the owner or a member. */
  predicate AlreadyIn(club: Club, server: nat, email: string) {
    server in club.owners &&
    exists u :: u in club.users && HasEmail(club.users, u, email)
      && (club.owners[server] == u || MemberFor(club.members, server, u).Some?)
  }

  predicate HasOpen(club: Club, server: nat, email: string) {
    exists i :: i in club.invites && OpenFor(club.invites, i, server, email)
  }

  predicate MayInvite(club: Club, server: nat, email: string) {
    !AlreadyIn(club, server, Normalize(email)) && !HasOpen(club, server, Normalize(email))
  }

  function Invited(club: Club, server: nat, email: string, role: MemberRole, ttl: nat, id: nat): Club {
    club.(invites := club.invites[id := Invite(server, Normalize(email), role, club.now + ttl, None, false)])
  }

  predicate MayRevoke(club: Club, server: nat, invite: nat) {
    invite in club.invites && club.invites[invite].server == server && Open(club.invites[invite])
  }

  function RevokedInvite(club: Club, invite: nat): Club
    requires invite in club.invites
  {
    club.(invites := club.invites[invite := club.invites[invite].(revoked := true)])
  }

  predicate MayAccept(club: Club, invite: nat, actor: nat) {
    && actor in club.users && Usable(club, invite)
    && Normalize(club.users[actor].email) == club.invites[invite].email
    && club.invites[invite].server in club.owners
    && club.owners[club.invites[invite].server] != actor
    && MemberFor(club.members, club.invites[invite].server, actor).None?
  }

  function AcceptedInvite(club: Club, invite: nat, actor: nat): Club
    requires invite in club.invites
  {
    var row := club.invites[invite];
    club.(members := club.members + [Member(row.server, actor, row.role)],
          invites := club.invites[invite := row.(accepted := Some(actor))],
          log := club.log + [Joined(row.server, actor, invite)])
  }

  predicate MayRemove(club: Club, server: nat, user: nat) {
    server in club.owners && club.owners[server] != user && MemberFor(club.members, server, user).Some?
  }

  /** The rows that remain without that of one user on one server. */
  function Without(members: seq<Member>, server: nat, user: nat): seq<Member> {
    if members == [] then []
    else if members[0].server == server && members[0].user == user then Without(members[1..], server, user)
    else [members[0]] + Without(members[1..], server, user)
  }

  function RemovedMember(club: Club, server: nat, user: nat): Club {
    club.(members := Without(club.members, server, user), log := club.log + [Left(server, user)])
  }

  /** The rows that remain when a server goes; the foreign keys take its members and invites. */
  function Elsewhere(members: seq<Member>, server: nat): seq<Member> {
    if members == [] then []
    else if members[0].server == server then Elsewhere(members[1..], server)
    else [members[0]] + Elsewhere(members[1..], server)
  }

  function RemovedServer(club: Club, server: nat): Club {
    club.(owners := club.owners - {server}, members := Elsewhere(club.members, server),
          invites := map i | i in club.invites && club.invites[i].server != server :: club.invites[i])
  }

  // ----- runs

  datatype Step =
    | Advance(elapsed: nat)
    | AddUser(user: nat, row: User)
    | CreateServer(server: nat, user: nat)
    | DeleteServer(server: nat)
    | SendInvite(server: nat, email: string, role: MemberRole, ttl: nat, id: nat)
    | RevokeInvite(server: nat, id: nat)
    | AcceptInvite(id: nat, user: nat)
    | RemoveMember(server: nat, user: nat)

  /** Requests that pass their guards; a refused request changes nothing. */
  ghost predicate Enabled(club: Club, step: Step) {
    match step
    case Advance(_) => true
    case AddUser(user, row) =>
      user !in club.users && forall u :: u in club.users ==> Lower(club.users[u].email) != Lower(row.email)
    case CreateServer(server, user) => server !in club.known && user in club.users
    case DeleteServer(server) => server in club.owners
    case SendInvite(server, email, _, _, id) =>
      server in club.owners && id !in club.invites && MayInvite(club, server, email)
      && forall e :: e in club.log && e.Joined? ==> e.invite != id
    case RevokeInvite(server, id) => server in club.owners && MayRevoke(club, server, id)
    case AcceptInvite(id, user) => MayAccept(club, id, user)
    case RemoveMember(server, user) => MayRemove(club, server, user)
  }

  ghost function Apply(club: Club, step: Step): Club
    requires Enabled(club, step)
  {
    match step
    case Advance(elapsed) => club.(now := club.now + elapsed)
    case AddUser(user, row) => club.(users := club.users[user := row])
    case CreateServer(server, user) => club.(owners := club.owners[server := user], known := club.known + {server})
    case DeleteServer(server) => RemovedServer(club, server)
    case SendInvite(server, email, role, ttl, id) => Invited(club, server, email, role, ttl, id)
    case RevokeInvite(_, id) => RevokedInvite(club, id)
    case AcceptInvite(id, user) => AcceptedInvite(club, id, user)
    case RemoveMember(server, user) => RemovedMember(club, server, user)
  }

  ghost predicate IsRun(states: seq<Club>, steps: seq<Step>) {
    && |states| == |steps| + 1 && states[0] == NoClub
    && forall i :: 0 <= i < |steps| ==> Enabled(states[i], steps[i]) && states[i + 1] == Apply(states[i], steps[i])
  }

  ghost predicate Reachable(club: Club) {
    exists states: seq<Club>, steps: seq<Step> :: IsRun(states, steps) && states[|steps|] == club
  }

  // ----- counting the history

  function Joins(log: seq<Event>, server: nat, user: nat): nat {
    if log == [] then 0
    else
      var last := log[|log| - 1];
      Joins(log[..|log| - 1], server, user) + (if last.Joined? && last.server == server
        && last.user == user then 1 else 0)
  }

  function Leaves(log: seq<Event>, server: nat, user: nat): nat {
    if log == [] then 0
    else
      var last := log[|log| - 1];
      Leaves(log[..|log| - 1], server, user) + (if last == Left(server, user) then 1 else 0)
  }

  /** The invite the user accepted last on that server. */
  function LastJoin(log: seq<Event>, server: nat, user: nat): Option<nat> {
    if log == [] then None
    else
      var last := log[|log| - 1];
      if last.Joined? && last.server == server && last.user == user then Some(last.invite)
      else LastJoin(log[..|log| - 1], server, user)
  }

  // ----- the member rows under each change

  lemma {:induction false} MemberForAppend(members: seq<Member>, more: Member, server: nat, user: nat)
    ensures MemberFor(members + [more], server, user) ==
      if MemberFor(members, server, user).Some? then MemberFor(members, server, user)
      else if more.server == server && more.user == user then Some(more) else None
  {
    if members == [] {
      assert [] + [more] == [more];
    } else {
      assert (members + [more])[1..] == members[1..] + [more];
      MemberForAppend(members[1..], more, server, user);
    }
  }

  lemma {:induction false} MemberForWithout(members: seq<Member>, server: nat, user: nat, s: nat, u: nat)
    ensures MemberFor(Without(members, server, user), s, u) ==
      if s == server && u == user then None else MemberFor(members, s, u)
  {
    if members != [] {
      MemberForWithout(members[1..], server, user, s, u);
    }
  }

  lemma {:induction false} WithoutRows(members: seq<Member>, server: nat, user: nat)
    ensures forall m :: m in Without(members, server, user) <==>
      m in members && !(m.server == server && m.user == user)
  {
    if members != [] {
      WithoutRows(members[1..], server, user);
    }
  }

  lemma {:induction false} ElsewhereRows(members: seq<Member>, server: nat)
    ensures forall m :: m in Elsewhere(members, server) <==> m in members && m.server != server
  {
    if members != [] {
      ElsewhereRows(members[1..], server);
    }
  }

  lemma {:induction false} MemberForElsewhere(members: seq<Member>, server: nat, s: nat, u: nat)
    ensures MemberFor(Elsewhere(members, server), s, u) == if s == server then None else MemberFor(members, s, u)
  {
    if members != [] {
      MemberForElsewhere(members[1..], server, s, u);
    }
  }

  /** No user has two rows on a server. */
  predicate Distinct(members: seq<Member>) {
    members == [] ||
    (MemberFor(members[1..], members[0].server, members[0].user).None? && Distinct(members[1..]))
  }

  lemma {:induction false} DistinctAppend(members: seq<Member>, more: Member)
    requires Distinct(members) && MemberFor(members, more.server, more.user).None?
    ensures Distinct(members + [more])
  {
    if members == [] {
      assert [] + [more] == [more];
    } else {
      assert (members + [more])[1..] == members[1..] + [more];
      DistinctAppend(members[1..], more);
      MemberForAppend(members[1..], more, members[0].server, members[0].user);
    }
  }

  lemma {:induction false} DistinctWithout(members: seq<Member>, server: nat, user: nat)
    requires Distinct(members)
    ensures Distinct(Without(members, server, user))
  {
    if members != [] {
      DistinctWithout(members[1..], server, user);
      MemberForWithout(members[1..], server, user, members[0].server, members[0].user);
    }
  }

  lemma {:induction false} DistinctElsewhere(members: seq<Member>, server: nat)
    requires Distinct(members)
    ensures Distinct(Elsewhere(members, server))
  {
    if members != [] {
      DistinctElsewhere(members[1..], server);
      MemberForElsewhere(members[1..], server, members[0].server, members[0].user);
    }
  }

  // ----- the invariant

  ghost predicate MembersOk(club: Club) {
    && Distinct(club.members)
    && club.owners.Keys <= club.known
    && (forall s, u :: MemberFor(club.members, s, u).Some? ==>
          s in club.owners && u in club.users && club.owners[s] != u)
  }

  /** Accepts minus removals is one where there is a row and nil where there is none. */
  ghost predicate BalanceOk(club: Club) {
    && (forall e :: e in club.log ==> e.server in club.known)
    && (forall s, u :: s in club.owners ==>
          Joins(club.log, s, u) == Leaves(club.log, s, u) + (if MemberFor(club.members, s, u).Some? then 1 else 0))
  }

  /** What the row of a member owes to the invite accepted last. */
  predicate JoinedBy(club: Club, member: Member) {
    var join := LastJoin(club.log, member.server, member.user);
    && join.Some? && join.value in club.invites
    && var invite := club.invites[join.value];
       && invite.server == member.server && invite.role == member.role && invite.accepted == Some(member.user)
       && member.user in club.users && invite.email == Normalize(club.users[member.user].email)
  }

  ghost predicate RolesOk(club: Club) {
    forall s, u :: MemberFor(club.members, s, u).Some? ==> JoinedBy(club, MemberFor(club.members, s, u).value)
  }

  predicate SameOpen(a: Invite, b: Invite) {
    Open(a) && Open(b) && a.server == b.server && a.email == b.email
  }

  ghost predicate InvitesOk(club: Club) {
    && (forall i :: i in club.invites ==> club.invites[i].server in club.owners)
    && (forall i :: i in club.invites ==> !(club.invites[i].accepted.Some? && club.invites[i].revoked))
    && (forall i, j :: i in club.invites && j in club.invites && SameOpen(club.invites[i], club.invites[j]) ==> i == j)
  }

  ghost predicate Invariant(club: Club) {
    MembersOk(club) && BalanceOk(club) && RolesOk(club) && InvitesOk(club)
  }

  lemma StepKeepsMembers(club: Club, step: Step)
    requires MembersOk(club) && InvitesOk(club) && Enabled(club, step)
    ensures MembersOk(Apply(club, step))
  {
    match step
    case AcceptInvite(id, user) =>
      var row := club.invites[id];
      DistinctAppend(club.members, Member(row.server, user, row.role));
      forall s, u { MemberForAppend(club.members, Member(row.server, user, row.role), s, u); }
    case RemoveMember(server, user) =>
      DistinctWithout(club.members, server, user);
      forall s, u { MemberForWithout(club.members, server, user, s, u); }
    case DeleteServer(server) =>
      DistinctElsewhere(club.members, server);
      forall s, u { MemberForElsewhere(club.members, server, s, u); }
    case _ =>
  }

  lemma JoinsAppend(log: seq<Event>, event: Event, server: nat, user: nat)
    ensures var more := log + [event];
      && Joins(more, server, user) == Joins(log, server, user)
           + (if event.Joined? && event.server == server && event.user == user then 1 else 0)
      && Leaves(more, server, user) == Leaves(log, server, user) + (if event == Left(server, user) then 1 else 0)
      && LastJoin(more, server, user) ==
           if event.Joined? && event.server == server && event.user == user then Some(event.invite)
           else LastJoin(log, server, user)
  {
    var more := log + [event];
    assert more[..|more| - 1] == log;
  }

  lemma {:induction false} NoEventsNoCount(log: seq<Event>, server: nat, user: nat)
    requires forall e :: e in log ==> e.server != server
    ensures Joins(log, server, user) == 0 && Leaves(log, server, user) == 0
  {
    if log != [] {
      assert log[|log| - 1] in log;
      NoEventsNoCount(log[..|log| - 1], server, user);
    }
  }

  predicate BalanceAt(club: Club, s: nat, u: nat) {
    Joins(club.log, s, u) == Leaves(club.log, s, u) + (if MemberFor(club.members, s, u).Some? then 1 else 0)
  }

  lemma StepBalance(club: Club, step: Step, s: nat, u: nat)
    requires MembersOk(club) && BalanceOk(club) && Enabled(club, step) && s in Apply(club, step).owners
    ensures BalanceAt(Apply(club, step), s, u)
  {
    assert s in club.owners ==> BalanceAt(club, s, u);
    match step
    case AcceptInvite(id, user) =>
      var row := club.invites[id];
      MemberForAppend(club.members, Member(row.server, user, row.role), s, u);
      JoinsAppend(club.log, Joined(row.server, user, id), s, u);
    case RemoveMember(server, user) =>
      MemberForWithout(club.members, server, user, s, u);
      JoinsAppend(club.log, Left(server, user), s, u);
    case DeleteServer(server) => MemberForElsewhere(club.members, server, s, u);
    case CreateServer(server, _) => if s == server { NoEventsNoCount(club.log, server, u); }
    case _ =>
  }

  lemma StepKeepsBalance(club: Club, step: Step)
    requires MembersOk(club) && InvitesOk(club) && BalanceOk(club) && Enabled(club, step)
    ensures BalanceOk(Apply(club, step))
  {
    var after := Apply(club, step);
    assert forall e :: e in after.log ==> e.server in after.known;
    forall s, u | s in after.owners
      ensures Joins(after.log, s, u) == Leaves(after.log, s, u) + (if MemberFor(after.members, s,
        u).Some? then 1 else 0)
    {
      StepBalance(club, step, s, u);
    }
  }

  lemma StepKeepsRoles(club: Club, step: Step)
    requires MembersOk(club) && RolesOk(club) && InvitesOk(club) && Enabled(club, step)
    ensures RolesOk(Apply(club, step))
  {
    var after := Apply(club, step);
    forall s, u | MemberFor(after.members, s, u).Some?
      ensures JoinedBy(after, MemberFor(after.members, s, u).value)
    {
      match step {
        case AcceptInvite(id, user) =>
          var row := club.invites[id];
          MemberForAppend(club.members, Member(row.server, user, row.role), s, u);
          JoinsAppend(club.log, Joined(row.server, user, id), s, u);
        case RemoveMember(server, user) =>
          MemberForWithout(club.members, server, user, s, u);
          JoinsAppend(club.log, Left(server, user), s, u);
        case DeleteServer(server) => MemberForElsewhere(club.members, server, s, u);
        case _ =>
      }
      assert MemberFor(club.members, s, u).Some? ==> JoinedBy(club, MemberFor(club.members, s, u).value);
    }
  }

  lemma StepKeepsInvites(club: Club, step: Step)
    requires InvitesOk(club) && Enabled(club, step)
    ensures InvitesOk(Apply(club, step))
  {
  }

  lemma {:induction false} RunKeepsInvariant(states: seq<Club>, steps: seq<Step>, i: nat)
    requires IsRun(states, steps) && i < |states|
    ensures Invariant(states[i])
  {
    hide Enabled, Apply, MembersOk, BalanceOk, RolesOk, InvitesOk;
    if i == 0 {
      NoClubOk();
    } else {
      RunKeepsInvariant(states, steps, i - 1);
      StepKeepsMembers(states[i - 1], steps[i - 1]);
      StepKeepsBalance(states[i - 1], steps[i - 1]);
      StepKeepsRoles(states[i - 1], steps[i - 1]);
      StepKeepsInvites(states[i - 1], steps[i - 1]);
    }
  }

  lemma NoClubOk()
    ensures Invariant(NoClub)
  {
  }

  lemma ReachableInvariant(club: Club)
    requires Reachable(club)
    ensures Invariant(club)
  {
    hide Invariant, Enabled, Apply;
    var states: seq<Club>, steps: seq<Step> :| IsRun(states, steps) && states[|steps|] == club;
    RunKeepsInvariant(states, steps, |steps|);
  }

  // ----- the main results

  /** A user is a member of a server exactly when they accepted once more than they were removed. */
  lemma MembershipIsHistory(club: Club, server: nat, user: nat)
    requires Reachable(club) && server in club.owners
    ensures Joins(club.log, server, user) - Leaves(club.log, server, user) ==
      (if MemberFor(club.members, server, user).Some? then 1 else 0)
    ensures club.owners[server] == user ==> MemberFor(club.members, server, user).None?
  {
    hide Reachable, InvitesOk, RolesOk;
    ReachableInvariant(club);
  }

  /** A member has the role of the invite accepted last, which was sent to their own email. */
  lemma RoleIsLastAccepted(club: Club, member: Member)
    requires Reachable(club) && member in club.members
    ensures JoinedBy(club, member)
    ensures MemberFor(club.members, member.server, member.user) == Some(member)
  {
    hide Reachable, InvitesOk, BalanceOk;
    ReachableInvariant(club);
    OnlyRow(club.members, member);
  }

  lemma {:induction false} OnlyRow(members: seq<Member>, member: Member)
    requires Distinct(members) && member in members
    ensures MemberFor(members, member.server, member.user) == Some(member)
  {
    if members[0] != member {
      OnlyRow(members[1..], member);
    }
  }

  /** No invite is both accepted and revoked, and a server has at most one open invite for an email. */
  lemma InvitesAreSound(club: Club, i: nat, j: nat)
    requires Reachable(club) && i in club.invites && j in club.invites
    ensures !(club.invites[i].accepted.Some? && club.invites[i].revoked)
    ensures SameOpen(club.invites[i], club.invites[j]) ==> i == j
  {
    hide Reachable, MembersOk, BalanceOk, RolesOk;
    ReachableInvariant(club);
  }

  /** An accepted or revoked invite stays so while its row exists, and admits nobody any more. */
  lemma ClosedStaysClosed(club: Club, step: Step, id: nat)
    requires Enabled(club, step) && id in club.invites && !Open(club.invites[id])
    ensures id in Apply(club, step).invites ==> Apply(club, step).invites[id] == club.invites[id]
    ensures forall user :: !MayAccept(Apply(club, step), id, user)
  {
  }

  /** A deleted server takes its members and invites along, and no others; its id is not used again. */
  lemma ServerTakesItsRows(club: Club, server: nat)
    requires Enabled(club, DeleteServer(server))
    ensures var after := Apply(club, DeleteServer(server));
      && after.owners == club.owners - {server} && after.known == club.known && after.users == club.users
      && (forall m :: m in after.members <==> m in club.members && m.server != server)
      && (forall i :: i in after.invites <==> i in club.invites && club.invites[i].server != server)
      && (forall i :: i in after.invites ==> after.invites[i] == club.invites[i])
  {
    ElsewhereRows(club.members, server);
  }

  // ----- from the request to the role

  lemma StepKeepsInvite(club: Club, step: Step, id: nat)
    requires Enabled(club, step) && id in club.invites && id in Apply(club, step).invites
    ensures var before, now := club.invites[id], Apply(club, step).invites[id];
      before.server == now.server && before.email == now.email && before.role == now.role
      && before.expires == now.expires
  {
  }

  /** The request that sent the invite at step i: its arguments are what the row says. */
  ghost predicate SentAt(states: seq<Club>, steps: seq<Step>, i: nat, id: nat, row: Invite) {
    && i < |steps| && i < |states| && steps[i].SendInvite? && steps[i].id == id
    && steps[i].server == row.server && steps[i].role == row.role && Normalize(steps[i].email) == row.email
    && states[i].now + steps[i].ttl == row.expires
  }

  lemma {:induction false} InviteWasSent(states: seq<Club>, steps: seq<Step>, j: nat, id: nat) returns (i: nat)
    requires IsRun(states, steps) && j < |states| && id in states[j].invites
    ensures i < j && SentAt(states, steps, i, id, states[j].invites[id])
    decreases j
  {
    hide Enabled, Apply;
    if id in states[j - 1].invites {
      i := InviteWasSent(states, steps, j - 1, id);
      StepKeepsInvite(states[j - 1], steps[j - 1], id);
    } else {
      i := j - 1;
      StepSends(states[i], steps[i], id);
    }
  }

  lemma StepSends(club: Club, step: Step, id: nat)
    requires Enabled(club, step) && id !in club.invites && id in Apply(club, step).invites
    ensures step.SendInvite? && step.id == id
    ensures var row := Apply(club, step).invites[id];
      row.server == step.server && row.role == step.role && row.email == Normalize(step.email)
      && row.expires == club.now + step.ttl
  {
  }

  /** The step is no removal of this member, no deletion of the server and no other acceptance. */
  ghost predicate Spares(club: Club, step: Step, server: nat, user: nat) {
    && step != RemoveMember(server, user) && step != DeleteServer(server)
    && (step.AcceptInvite? && step.user == user && step.id in club.invites ==> club.invites[step.id].server != server)
  }

  lemma StepSpares(club: Club, step: Step, member: Member)
    requires Enabled(club, step) && member in club.members && member in Apply(club, step).members
    ensures Spares(club, step, member.server, member.user)
  {
    match step
    case RemoveMember(server, user) => WithoutRows(club.members, server, user);
    case DeleteServer(server) => ElsewhereRows(club.members, server);
    case _ =>
  }

  lemma StepJoins(club: Club, step: Step, member: Member)
    requires Enabled(club, step) && member !in club.members && member in Apply(club, step).members
    ensures step.AcceptInvite? && step.user == member.user && step.id in club.invites
      && step.user in club.users && club.now < club.invites[step.id].expires
      && club.invites[step.id].accepted == None && !club.invites[step.id].revoked
      && club.invites[step.id].server == member.server && club.invites[step.id].role == member.role
      && Normalize(club.users[step.user].email) == club.invites[step.id].email
  {
    match step
    case RemoveMember(server, user) => WithoutRows(club.members, server, user);
    case DeleteServer(server) => ElsewhereRows(club.members, server);
    case _ =>
  }

  /** Over any run, a member has exactly the role that was asked for in the request they accepted
      last: it named this server and, but for case and blanks, their own email; they accepted within
      its time to live; and nothing has removed them since. */
  lemma {:induction false} RoleWasRequested(states: seq<Club>, steps: seq<Step>, j: nat, member: Member)
    returns (sent: nat, joined: nat)
    requires IsRun(states, steps) && j < |states| && member in states[j].members
    ensures sent < joined < j
    ensures steps[sent].SendInvite? && steps[joined] == AcceptInvite(steps[sent].id, member.user)
    ensures steps[sent].server == member.server && steps[sent].role == member.role
    ensures member.user in states[joined].users
      && Normalize(steps[sent].email) == Normalize(states[joined].users[member.user].email)
    ensures states[joined].now < states[sent].now + steps[sent].ttl
    ensures forall k :: joined < k < j ==> Spares(states[k], steps[k], member.server, member.user)
    decreases j
  {
    hide Enabled, Apply, Spares;
    if member in states[j - 1].members {
      sent, joined := RoleWasRequested(states, steps, j - 1, member);
      StepSpares(states[j - 1], steps[j - 1], member);
    } else {
      joined := j - 1;
      StepJoins(states[joined], steps[joined], member);
      sent := InviteWasSent(states, steps, joined, steps[joined].id);
    }
  }

  // ----- two views of who is in

  /** The servers listed for a user: all for an admin, else those they own or have a row on. */
  function Listed(club: Club, user: nat, admin: bool): set<nat> {
    if admin then club.owners.Keys
    else
      var joined := set m | m in club.members && m.user == user :: m.server;
      set s | s in club.owners && (club.owners[s] == user || s in joined)
  }

  /** A server is listed for a user exactly when the resolver gives them a role on it. */
  lemma ViewsAgree(club: Club, server: nat, user: nat, admin: bool)
    ensures server in Listed(club, user, admin) <==> RoleFor(club.owners, club.members, server, user, admin).Some?
  {
  }

  /** The member rows of a server as the members page shows them. */
  function Names(users: map<nat, User>, members: seq<Member>, server: nat): seq<(nat, Role)> {
    if members == [] then []
    else
      var m := members[0];
      (if m.server == server && m.user in users
       then [(m.user, if m.role == "viewer" then Viewer else Operator)] else []) + Names(users, members[1..], server)
  }

  function Mentions(page: seq<(nat, Role)>, user: nat): nat {
    if page == [] then 0 else (if page[0].0 == user then 1 else 0) + Mentions(page[1..], user)
  }

  lemma {:induction false} NamesEachOnce(users: map<nat, User>, members: seq<Member>, server: nat, user: nat)
    requires Distinct(members) && user in users
    ensures var member := MemberFor(members, server, user);
      var names := Names(users, members, server);
      && Mentions(names, user) == (if member.Some? then 1 else 0)
      && (forall role :: (user, role) in names ==>
            member.Some? && role == (if member.value.role == "operator" then Operator else Viewer))
  {
    if members != [] {
      NamesEachOnce(users, members[1..], server, user);
      var names := Names(users, members, server);
      var rest := Names(users, members[1..], server);
      if names != rest {
        assert names[1..] == rest;
      }
    }
  }

  lemma {:induction false} NotMentioned(page: seq<(nat, Role)>, user: nat)
    requires Mentions(page, user) == 0
    ensures forall role :: (user, role) !in page
  {
    if page != [] {
      NotMentioned(page[1..], user);
    }
  }

  // ----- the service, as the source writes it

  class MemberService {
    var users: map<nat, User>
    var owners: map<nat, nat>
    var members: seq<Member>
    var invites: map<nat, Invite>
    var now: nat
    ghost var known: set<nat>
    ghost var log: seq<Event>

    constructor ()
      ensures View() == NoClub
    {
      users, owners, members, invites, now, known, log := map[], map[], [], map[], 0, {}, [];
    }

    ghost function View(): Club
      reads this
    {
      Club(users, owners, members, invites, now, known, log)
    }

    method Send(server: nat, email: string, role: MemberRole, ttl: nat, id: nat) returns (r: Result<nat, MemberError>)
      requires server in owners && id !in invites
      modifies `invites
      ensures r == if AlreadyIn(old(View()), server, Normalize(email)) then Err(MemberAlreadyExists)
        else if HasOpen(old(View()), server, Normalize(email)) then Err(InviteAlreadyExists)
        else Ok(id)
      ensures r.Ok? <==> MayInvite(old(View()), server, email)
      ensures View() == if r.Ok? then Invited(old(View()), server, email, role, ttl, id) else old(View())
      ensures r == Err(MemberAlreadyExists) <==>
        exists u :: u in users && Lower(users[u].email) == Normalize(email)
          && (owners[server] == u || exists m :: m in members && m.server == server && m.user == u)
      ensures r == Err(InviteAlreadyExists) ==>
        exists i :: i in invites && invites[i].accepted == None && !invites[i].revoked
          && invites[i].server == server && invites[i].email == Normalize(email)
      ensures r.Ok? ==>
        && invites == old(invites)[id := Invite(server, Normalize(email), role, now + ttl, None, false)]
        && forall i ::
             i in old(invites) && old(invites)[i].server == server && old(invites)[i].email == Normalize(email)
             ==> old(invites)[i].accepted.Some? || old(invites)[i].revoked
    {
      var normalized := Normalize(email);
      if exists u :: u in users && HasEmail(users, u, normalized)
           && (owners[server] == u || MemberFor(members, server, u).Some?) {
        return Err(MemberAlreadyExists);
      }
      if exists i :: i in invites && OpenFor(invites, i, server, normalized) { return Err(InviteAlreadyExists); }
      invites := invites[id := Invite(server, normalized, role, now + ttl, None, false)];
      return Ok(id);
    }

    method Revoke(server: nat, id: nat) returns (r: Result<nat, MemberError>)
      modifies `invites
      ensures r == if MayRevoke(old(View()), server, id) then Ok(id) else Err(InviteNotFound)
      ensures View() == if MayRevoke(old(View()), server, id) then RevokedInvite(old(View()), id) else old(View())
      ensures r.Ok? <==>
        id in old(invites) && old(invites)[id].server == server && old(invites)[id].accepted == None
        && !old(invites)[id].revoked
      ensures invites == if r.Ok? then old(invites)[id := old(invites)[id].(revoked := true)] else old(invites)
    {
      if id !in invites || invites[id].server != server { return Err(InviteNotFound); }
      if invites[id].revoked || invites[id].accepted.Some? { return Err(InviteNotFound); }
      invites := invites[id := invites[id].(revoked := true)];
      return Ok(id);
    }

    method Remove(server: nat, user: nat) returns (r: Result<nat, MemberError>)
      requires server in owners
      modifies `members, `log
      ensures r == if MayRemove(old(View()), server, user) then Ok(user) else Err(NotServerMember)
      ensures View() == if MayRemove(old(View()), server, user) then RemovedMember(old(View()), server,
        user) else old(View())
      ensures r.Ok? <==>
        owners[server] != user && exists m :: m in old(members) && m.server == server && m.user == user
      ensures forall m :: m in members <==>
        m in old(members) && !(r.Ok? && m.server == server && m.user == user)
    {
      WithoutRows(members, server, user);
      if owners[server] == user || MemberFor(members, server, user).None? { return Err(NotServerMember); }
      members := Without(members, server, user);
      log := log + [Left(server, user)];
      return Ok(user);
    }

    method Accept(id: nat, actor: nat) returns (r: Result<MemberRole, MemberError>)
      requires actor in users
      modifies `members, `invites, `log
      ensures r.Ok? <==> MayAccept(old(View()), id, actor)
      ensures r == Err(InviteNotFound) <==> !Usable(old(View()), id)
      ensures r == Err(InviteEmailMismatch) <==>
        Usable(old(View()), id) && Normalize(old(users)[actor].email) != old(invites)[id].email
      ensures r.Ok? ==>
        && id in old(invites) && r.value == old(invites)[id].role
        && View() == AcceptedInvite(old(View()), id, actor)
      ensures r.Err? ==> View() == old(View())
      ensures r.Ok? <==>
        && id in old(invites) && old(invites)[id].accepted == None && !old(invites)[id].revoked
        && now < old(invites)[id].expires && Normalize(users[actor].email) == old(invites)[id].email
        && old(invites)[id].server in owners && owners[old(invites)[id].server] != actor
        && forall m :: m in old(members) ==> !(m.server == old(invites)[id].server && m.user == actor)
      ensures r.Ok? ==>
        && members == old(members) + [Member(old(invites)[id].server, actor, old(invites)[id].role)]
        && invites == old(invites)[id := old(invites)[id].(accepted := Some(actor))]
    {
      if id !in invites { return Err(InviteNotFound); }
      var row := invites[id];
      if row.revoked || row.accepted.Some? || row.expires <= now { return Err(InviteNotFound); }
      if Normalize(users[actor].email) != row.email { return Err(InviteEmailMismatch); }
      if row.server !in owners { return Err(ServerNotFound); }
      if owners[row.server] == actor || MemberFor(members, row.server, actor).Some? { return Err(MemberAlreadyExists); }
      members := members + [Member(row.server, actor, row.role)];
      invites := invites[id := row.(accepted := Some(actor))];
      log := log + [Joined(row.server, actor, id)];
      return Ok(row.role);
    }

    /** In every reachable state the page names the owner first and each member exactly once, with
        the role the resolver gives each of them. */
    method ListMembers(server: nat) returns (page: seq<(nat, Role)>)
      requires Reachable(View()) && server in owners
      ensures forall user :: user in users ==>
        Mentions(page, user) == (if RoleFor(owners, members, server, user, false).Some? then 1 else 0)
      ensures forall user, role :: user in users && (user, role) in page ==>
        RoleFor(owners, members, server, user, false) == Some(role)
      ensures owners[server] in users ==> page != [] && page[0] == (owners[server], Owner)
    {
      hide Reachable, Names, Mentions, RoleFor, BalanceOk, RolesOk, InvitesOk;
      ReachableInvariant(View());
      var owner := owners[server];
      page := [];
      if owner in users { page := [(owner, Owner)]; }
      ghost var head := page;
      var i := 0;
      assert members[0..] == members;
      while i < |members|
        invariant i <= |members|
        invariant page + Names(users, members[i..], server) == head + Names(users, members, server)
        invariant head <= page
      {
        var m := members[i];
        ghost var before := page;
        if m.server == server && m.user in users {
          page := page + [(m.user, if m.role == "viewer" then Viewer else Operator)];
        }
        NamesStep(users, members, i, server);
        assert page + Names(users, members[i + 1..], server) == before + Names(users, members[i..], server);
        i := i + 1;
      }
      NamesEnd(users, members, server);
      assert page == head + Names(users, members, server);
      forall user | user in users
        ensures Mentions(page, user) == (if RoleFor(owners, members, server, user, false).Some? then 1 else 0)
        ensures forall role :: (user, role) in page ==> RoleFor(owners, members, server, user, false) == Some(role)
      {
        PageOf(View(), server, user, head);
      }
    }
  }

  lemma NamesStep(users: map<nat, User>, members: seq<Member>, i: nat, server: nat)
    requires i < |members|
    ensures Names(users, members[i..], server) ==
      (if members[i].server == server && members[i].user in users
       then [(members[i].user, if members[i].role == "viewer" then Viewer else Operator)] else [])
      + Names(users, members[i + 1..], server)
  {
    assert members[i..][1..] == members[i + 1..];
  }

  lemma NamesEnd(users: map<nat, User>, members: seq<Member>, server: nat)
    ensures Names(users, members[|members|..], server) == []
  {
  }

  lemma PageOf(club: Club, server: nat, user: nat, head: seq<(nat, Role)>)
    requires MembersOk(club) && server in club.owners && user in club.users
    requires head == if club.owners[server] in club.users then [(club.owners[server], Owner)] else []
    ensures var page := head + Names(club.users, club.members, server);
      && Mentions(page, user) == (if RoleFor(club.owners, club.members, server, user, false).Some? then 1 else 0)
      && (forall role :: (user, role) in page ==> RoleFor(club.owners, club.members, server, user, false) == Some(role))
  {
    var names := Names(club.users, club.members, server);
    NamesEachOnce(club.users, club.members, server, user);
    if head != [] { assert (head + names)[1..] == names; } else { assert head + names == names; }
    if club.owners[server] == user {
      NotMentioned(names, user);
    }
  }
}
