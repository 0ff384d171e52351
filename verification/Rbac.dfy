/** Role-based access control: who may manage whom, and the last-owner rule. */
module Rbac {
  import opened Models

  predicate IsManager(role: Role) {
    role == Owner || role == Admin
  }

  predicate CanManageMember(actor: Role, target: Role) {
    IsManager(actor) && Rank(target) <= Rank(actor)
  }

  predicate CanAssignRole(actor: Role, role: Role) {
    IsManager(actor) && Rank(role) <= Rank(actor)
  }

  /** The memberships of one user in one organization. */
  function UserKeys(members: Table<Membership>, user: nat, org: nat): set<nat> {
    set pk | pk in members && members[pk].org == org && members[pk].row.user == user
  }

  function OwnerKeys(members: Table<Membership>, org: nat): set<nat> {
    set pk | pk in members && members[pk].org == org && members[pk].row.role == Owner
  }

  function CallerRole(members: Table<Membership>, user: nat, org: nat): Option<Role> {
    match First(UserKeys(members, user, org))
    case None => None
    case Some(pk) => Some(members[pk].row.role)
  }

  /** The API's guard. */
  predicate IsLastOwner(members: Table<Membership>, pk: nat)
    requires pk in members
  {
    members[pk].row.role == Owner && |OwnerKeys(members, members[pk].org)| <= 1
  }

  /** The guard of the model's delete(). */
  predicate DeleteRaises(members: Table<Membership>, pk: nat)
    requires pk in members
  {
    members[pk].row.role == Owner && |OwnerKeys(members, members[pk].org)| <= 1
  }

  /** The guard of the model's clean(), for a row about to be stored with `role`: it
      compares the stored role with the new one. */
  predicate CleanRaises(members: Table<Membership>, pk: nat, role: Role)
    requires pk in members
  {
    members[pk].row.role == Owner && role != Owner && |OwnerKeys(members, members[pk].org)| <= 1
  }
}
