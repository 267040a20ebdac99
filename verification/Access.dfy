/** Who may do what with a server. */
module Access {
  import opened Wrappers

  datatype Role = Viewer | Operator | Owner

  function Rank(role: Role): nat {
    match role
    case Viewer => 1
    case Operator => 2
    case Owner => 3
  }

  /** The strings the check constraints allow. */
  type MemberRole = r: string | r == "viewer" || r == "operator" witness "viewer"

  datatype Member = Member(server: nat, user: nat, role: MemberRole)

  /** The member row of a user, among rows in the order they were created. */
  function MemberFor(members: seq<Member>, server: nat, user: nat): (found: Option<Member>)
    ensures found.Some? ==> found.value in members && found.value.server == server && found.value.user == user
    ensures found.None? ==> forall m :: m in members ==> !(m.server == server && m.user == user)
  {
    if members == [] then None
    else if members[0].server == server && members[0].user == user then Some(members[0])
    else MemberFor(members[1..], server, user)
  }

  /** The role resolver; `owners` maps each server to its owner. */
  function RoleFor(owners: map<nat, nat>, members: seq<Member>, server: nat, user: nat, admin: bool): Option<Role> {
    if server !in owners then None
    else if admin || owners[server] == user then Some(Owner)
    else
      var member := MemberFor(members, server, user);
      if member.None? then None
      else Some(if member.value.role == "operator" then Operator else Viewer)
  }

  /** Owner for the owner and for every admin, otherwise what the one row of the user on the server
      says; nobody has a role on a server that does not exist. */
  lemma RoleForInFull(owners: map<nat, nat>, members: seq<Member>, server: nat, user: nat, admin: bool)
    requires forall a, b :: a in members && b in members && a.server == b.server && a.user == b.user ==> a == b
    ensures var role := RoleFor(owners, members, server, user, admin);
      var outsider := server in owners && !admin && owners[server] != user;
      && (role == Some(Owner) <==> server in owners && (admin || owners[server] == user))
      && (role == Some(Operator) <==> outsider && Member(server, user, "operator") in members)
      && (role == Some(Viewer) <==> outsider && Member(server, user, "viewer") in members)
  {
    var member := MemberFor(members, server, user);
    if member.Some? {
      assert member.value == Member(server, user, member.value.role);
    }
  }
}
