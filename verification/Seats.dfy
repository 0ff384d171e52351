/** Plan caps over whole runs: how many projects and seats an organization can come to use. */
module Seats {
  import opened Models
  import opened Billing
  import opened Requests
  import opened Invariants

  /** Every organization has exactly one subscription, with a plan of the catalogue: the row
      that limit checks lock exists, and the built-in fallback cap is never used. */
  lemma LockRowExists(s: State, org: nat)
    requires Inv(s) && org in s.orgs
    ensures |SubKeys(s.subs, org)| == 1
    ensures PlanOf(s.plans, s.subs, org).Some?
  {
    var pk :| pk in SubKeys(s.subs, org);
    assert SubKeys(s.subs, org) == {pk};
  }

  function ProjectCount(s: State, org: nat): nat {
    |ProjectKeys(s.projects, org)|
  }

  function ProjectLimit(s: State, org: nat): Option<int> {
    ProjectCap(s.plans, s.subs, org)
  }

  function SeatLimit(s: State, org: nat): Option<int> {
    MemberCap(s.plans, s.subs, org)
  }

  /* ----- one write ----- */

  lemma ProjectSets(s: State, bound: nat, actor: nat, c: Change, org: nat)
    requires Below(s, bound) && FreshIn(bound, c) && Justified(s, actor, c)
    ensures var after := ProjectKeys(Apply(s, c).projects, org);
            if c.ProjectInserted? && c.org == org then after == ProjectKeys(s.projects, org) + {c.pk}
            else after <= ProjectKeys(s.projects, org)
  {
  }

  /** A write adds at most one project, and none while the cap is reached. */
  lemma ProjectGrowth(s: State, bound: nat, actor: nat, c: Change, org: nat)
    requires Below(s, bound) && FreshIn(bound, c) && Justified(s, actor, c)
    ensures var before, after := ProjectCount(s, org), ProjectCount(Apply(s, c), org);
            after <= before + 1 && (after > before ==> !Full(before, ProjectLimit(s, org)))
  {
    ProjectSets(s, bound, actor, c, org);
    if !(c.ProjectInserted? && c.org == org) {
      Smaller(ProjectKeys(Apply(s, c).projects, org), ProjectKeys(s.projects, org));
    }
  }

  lemma Smaller(less: set<nat>, more: set<nat>)
    requires less <= more
    ensures |less| <= |more|
  {
    assert more == less + (more - less);
  }

  /** A write that is no invitation and no acceptance takes seats away, if anything. */
  lemma SeatsShrink(s: State, bound: nat, actor: nat, c: Change, org: nat)
    requires Below(s, bound) && FreshIn(bound, c) && Justified(s, actor, c) && org < bound
    requires !c.Invited? && !c.Joined? && !c.Rejoined?
    ensures Seats(Apply(s, c), org) <= Seats(s, org)
  {
    var t := Apply(s, c);
    assert MemberKeys(t.members, org) <= MemberKeys(s.members, org);
    Smaller(MemberKeys(t.members, org), MemberKeys(s.members, org));
    assert PendingKeys(t.invites, org) <= PendingKeys(s.invites, org);
    Smaller(PendingKeys(t.invites, org), PendingKeys(s.invites, org));
  }

  lemma PendingSpent(invites: Table<Invitation>, key: nat, spent: Scoped<Invitation>)
    requires key in invites && invites[key].org == spent.org && spent.row.status != Pending
    ensures forall org :: PendingKeys(invites[key := spent], org) == PendingKeys(invites, org) - {key}
  {
  }

  lemma MembersJoined(members: Table<Membership>, pk: nat, row: Scoped<Membership>)
    requires pk !in members
    ensures forall org :: MemberKeys(members[pk := row], org) ==
                          MemberKeys(members, org) + if row.org == org then {pk} else {}
  {
  }

  lemma JoinSets(s: State, actor: nat, c: Change, org: nat)
    requires c.Joined? && Justified(s, actor, c) && c.pk !in s.members
    ensures var here := if org == c.org then {c.pk} else {};
            && MemberKeys(Apply(s, c).members, org) == MemberKeys(s.members, org) + here
            && c.pk !in MemberKeys(s.members, org)
    ensures var spent := if org == c.org then {c.key} else {};
            && PendingKeys(Apply(s, c).invites, org) == PendingKeys(s.invites, org) - spent
            && spent <= PendingKeys(s.invites, org)
  {
    PendingSpent(s.invites, c.key, Scoped(c.org, c.spent));
    MembersJoined(s.members, c.pk, Scoped(c.org, c.membership));
    assert org != c.org ==> c.key !in PendingKeys(s.invites, org);
  }

  lemma JoinConservesSeats(s: State, actor: nat, c: Change, org: nat)
    requires c.Joined? && Justified(s, actor, c) && c.pk !in s.members
    ensures Seats(Apply(s, c), org) == Seats(s, org)
    ensures |MemberKeys(Apply(s, c).members, org)| == |MemberKeys(s.members, org)| + if org == c.org then 1 else 0
  {
    JoinSets(s, actor, c, org);
  }

  lemma PendingAdded(invites: Table<Invitation>, pk: nat, o: nat, row: Invitation, org: nat)
    requires pk !in invites && row.status == Pending
    ensures PendingKeys(invites[pk := Scoped(o, row)], org) == PendingKeys(invites, org) + if o == org then {pk} else {}
    ensures pk !in PendingKeys(invites, org)
  {
  }

  lemma InviteGrowth(s: State, actor: nat, c: Change, org: nat)
    requires Justified(s, actor, c) && c.Invited? && c.pk !in s.invites
    ensures Seats(Apply(s, c), org) == Seats(s, org) + if c.org == org then 1 else 0
    ensures c.org == org ==> !Full(Seats(s, org), SeatLimit(s, org))
  {
    PendingAdded(s.invites, c.pk, c.org, c.invitation, org);
  }

  lemma RejoinShrinks(s: State, actor: nat, c: Change, org: nat)
    requires Justified(s, actor, c) && c.Rejoined?
    ensures Seats(Apply(s, c), org) <= Seats(s, org)
  {
    PendingSpent(s.invites, c.key, Scoped(c.org, c.spent));
    Smaller(PendingKeys(s.invites, org) - {c.key}, PendingKeys(s.invites, org));
  }

  /** A write adds at most one seat in use, and none while the cap is reached. */
  lemma SeatGrowth(s: State, bound: nat, actor: nat, c: Change, org: nat)
    requires Below(s, bound) && FreshIn(bound, c) && Justified(s, actor, c) && org < bound
    ensures var before, after := Seats(s, org), Seats(Apply(s, c), org);
            after <= before + 1 && (after > before ==> !Full(before, SeatLimit(s, org)))
  {
    if c.Joined? {
      JoinConservesSeats(s, actor, c, org);
    } else if c.Rejoined? {
      RejoinShrinks(s, actor, c, org);
    } else if c.Invited? {
      InviteGrowth(s, actor, c, org);
    } else {
      SeatsShrink(s, bound, actor, c, org);
    }
  }

  /** A successful accept turns one pending invitation into one membership: the accepting user
      had none, and the seats in use stay exactly the same. */
  lemma AcceptConservesSeats(s: State, bound: nat, r: Request)
    requires Teams(s) && Below(s, bound) && Fresh(bound, r) && r.Accept?
    requires Decide(s, r).answer.MemberBody?
    ensures var c := Decide(s, r).change;
            && c.Joined?
            && Seats(Next(s, r), c.org) == Seats(s, c.org)
            && |MemberKeys(Next(s, r).members, c.org)| == |MemberKeys(s.members, c.org)| + 1
  {
    var c := Decide(s, r).change;
    AcceptJustified(s, r.actor, r.token, r.now, r.pk);
    if c.Rejoined? {
      AcceptFindsNoMembership(s, r.actor, c.key, c.org);
    }
    JoinConservesSeats(s, r.actor, c, c.org);
  }

  /* ----- whole runs ----- */

  function Max(a: int, b: int): int {
    if a < b then b else a
  }

  /** The larger of two caps; None, unlimited, is the largest. */
  function Larger(a: Option<int>, b: Option<int>): Option<int> {
    if a.None? || b.None? then None else Some(Max(a.value, b.value))
  }

  /** The largest project cap that a request of the run meets, or 0. */
  function LargestProjectLimit(s: State, org: nat, rs: seq<Request>): Option<int>
    decreases |rs|
  {
    if rs == [] then Some(0)
    else Larger(ProjectLimit(s, org), LargestProjectLimit(Next(s, rs[0]), org, rs[1..]))
  }

  function LargestSeatLimit(s: State, org: nat, rs: seq<Request>): Option<int>
    decreases |rs|
  {
    if rs == [] then Some(0)
    else Larger(SeatLimit(s, org), LargestSeatLimit(Next(s, rs[0]), org, rs[1..]))
  }

  /** After any run, across upgrades and downgrades, an organization has at most as many
      projects as it started with or the largest cap the run saw, whichever is more. */
  lemma {:induction false} ProjectHighWater(s: State, bound: nat, org: nat, rs: seq<Request>)
    requires Below(s, bound) && Paced(bound, rs)
    ensures var largest := LargestProjectLimit(s, org, rs);
            largest.None? || ProjectCount(Run(s, rs), org) <= Max(ProjectCount(s, org), largest.value)
    decreases |rs|
  {
    if rs != [] {
      var t := Next(s, rs[0]);
      DecideJustified(s, rs[0]);
      DecideFresh(s, bound, rs[0]);
      StepBelow(s, bound, rs[0]);
      ProjectGrowth(s, bound, ActorOf(rs[0]), Decide(s, rs[0]).change, org);
      ProjectHighWater(t, Bump(bound, rs[0]), org, rs[1..]);
    }
  }

  /** The same for members plus pending invitations. */
  lemma {:induction false} SeatHighWater(s: State, bound: nat, org: nat, rs: seq<Request>)
    requires Below(s, bound) && Paced(bound, rs) && org < bound
    ensures var largest := LargestSeatLimit(s, org, rs);
            largest.None? || Seats(Run(s, rs), org) <= Max(Seats(s, org), largest.value)
    decreases |rs|
  {
    if rs != [] {
      var t := Next(s, rs[0]);
      DecideJustified(s, rs[0]);
      DecideFresh(s, bound, rs[0]);
      StepBelow(s, bound, rs[0]);
      SeatGrowth(s, bound, ActorOf(rs[0]), Decide(s, rs[0]).change, org);
      SeatHighWater(t, Bump(bound, rs[0]), org, rs[1..]);
    }
  }
}
