/** Creating an organization while other users create theirs: the slug search, and the
    bounded retry when a rival takes the slug between the search and the insert. */
module OrgCreation {
  import opened Models
  import opened Rbac
  import opened Billing
  import opened Requests
  import opened Invariants
  import opened Slugs
  import opened Store

  /** An organization another user is about to commit. */
  datatype Rival = Rival(pk: nat, actor: nat, name: string, slug: string)

  /** The unique constraint lets a rival in only when its slug is free. */
  function Commit(s: State, r: Rival): State {
    if r.slug in TakenSlugs(s.orgs) || r.pk in s.orgs then s
    else InsertOrg(s, r.pk, r.actor, r.name, r.slug)
  }

  function CommitAll(s: State, rivals: seq<Rival>): State {
    if rivals == [] then s
    else Commit(CommitAll(s, rivals[..|rivals| - 1]), rivals[|rivals| - 1])
  }

  lemma {:induction false} CommitAllAppend(s: State, first: seq<Rival>, second: seq<Rival>)
    ensures CommitAll(s, first + second) == CommitAll(CommitAll(s, first), second)
    decreases |second|
  {
    if second == [] {
      assert first + second == first;
    } else {
      var init := second[..|second| - 1];
      assert (first + second)[..|first + second| - 1] == first + init;
      CommitAllAppend(s, first, init);
    }
  }

  function SlugsOf(rivals: seq<Rival>): set<string> {
    set r | r in rivals :: r.slug
  }

  lemma SlugsOfAppend(first: seq<Rival>, second: seq<Rival>)
    ensures SlugsOf(first + second) == SlugsOf(first) + SlugsOf(second)
    ensures |second| == 1 ==> SlugsOf(second) == {second[0].slug}
  {
    assert forall r :: r in first + second <==> r in first || r in second;
  }

  /** Rivals only add: earlier organizations stay, every new slug is a rival's, and a slug
      that was free and is taken afterwards means that a rival's row was added. */
  lemma {:induction false} CommitAllGrows(s: State, rivals: seq<Rival>)
    ensures var t := CommitAll(s, rivals);
            && |t.orgs| >= |s.orgs|
            && TakenSlugs(s.orgs) <= TakenSlugs(t.orgs) <= TakenSlugs(s.orgs) + SlugsOf(rivals)
            && (TakenSlugs(s.orgs) != TakenSlugs(t.orgs) ==> |t.orgs| > |s.orgs|)
  {
    if rivals != [] {
      var init, last := rivals[..|rivals| - 1], rivals[|rivals| - 1];
      CommitAllGrows(s, init);
      CommitGrows(CommitAll(s, init), last);
      SlugsOfAppend(init, [last]);
      assert rivals == init + [last];
    }
  }

  lemma CommitGrows(s: State, r: Rival)
    ensures var t := Commit(s, r);
            if t.orgs == s.orgs then true
            else |t.orgs| == |s.orgs| + 1 && TakenSlugs(t.orgs) == TakenSlugs(s.orgs) + {r.slug}
  {
    var t := Commit(s, r);
    if t != s {
      assert t.orgs.Keys == s.orgs.Keys + {r.pk};
      assert |t.orgs| == |t.orgs.Keys| && |s.orgs| == |s.orgs.Keys|;
      assert t.orgs[r.pk].slug == r.slug;
      assert forall pk :: pk in s.orgs ==> t.orgs[pk] == s.orgs[pk];
    }
  }

  function Flatten(batches: seq<seq<Rival>>): seq<Rival> {
    if batches == [] then [] else batches[0] + Flatten(batches[1..])
  }

  /** The rest of the world: one batch of rivals commits before each of our statements, until
      the batches run out. */
  class Schedule {
    var batches: seq<seq<Rival>>

    constructor (batches: seq<seq<Rival>>)
      ensures this.batches == batches
    {
      this.batches := batches;
    }

    method Interleave(db: Database) returns (ghost seen: seq<Rival>)
      modifies this, db
      ensures Flatten(old(batches)) == seen + Flatten(batches)
      ensures db.Snapshot() == CommitAll(old(db.Snapshot()), seen)
    {
      if batches == [] {
        return [];
      }
      var batch := batches[0];
      batches := batches[1..];
      seen := batch;
      ghost var start := db.Snapshot();
      for i := 0 to |batch|
        invariant db.Snapshot() == CommitAll(start, batch[..i])
        invariant batches == old(batches)[1..]
      {
        var r := batch[i];
        assert batch[..i + 1][..i] == batch[..i];
        if r.pk !in db.orgs {
          var _ := db.InsertOrgWithOwner(r.pk, r.actor, r.name, r.slug);
        }
      }
      assert batch[..|batch|] == batch;
    }
  }

  lemma Regrouped<T>(a: seq<T>, b: seq<T>, c: seq<T>)
    ensures a + (b + c) == (a + b) + c
  {
  }

  lemma Chain(start: State, seen: seq<Rival>, step: seq<Rival>, rest: seq<Rival>, all: seq<Rival>)
    requires all == seen + (step + rest)
    ensures all == (seen + step) + rest
    ensures CommitAll(start, seen + step) == CommitAll(CommitAll(start, seen), step)
    ensures TakenSlugs(CommitAll(start, seen + step).orgs) <= TakenSlugs(start.orgs) + SlugsOf(all)
  {
    CommitAllAppend(start, seen, step);
    CommitAllGrows(start, seen + step);
    Regrouped(seen, step, rest);
    SlugsOfAppend(seen + step, rest);
  }

  /** One existence check, after whatever rivals commit before it. */
  method SlugExists(db: Database, world: Schedule, slug: string) returns (found: bool, ghost seen: seq<Rival>)
    modifies db, world
    ensures Flatten(old(world.batches)) == seen + Flatten(world.batches)
    ensures db.Snapshot() == CommitAll(old(db.Snapshot()), seen)
    ensures TakenSlugs(old(db.orgs)) <= TakenSlugs(db.orgs)
    ensures found <==> slug in TakenSlugs(db.orgs)
  {
    ghost var before := db.Snapshot();
    seen := world.Interleave(db);
    CommitAllGrows(before, seen);
    found := slug in TakenSlugs(db.orgs);
  }

  /** With one candidate more found taken the search is still within its bound. */
  lemma SearchBounded(base: string, n: nat, taken: set<string>, universe: set<string>)
    requires AllTaken(base, n, taken) && Candidate(base, n) in taken && taken <= universe
    ensures n < |universe|
  {
    AllTakenNext(base, n, taken, universe);
    Pigeonhole(base, n + 1, universe);
  }

  lemma SearchEnds(base: string, n: nat, taken: set<string>, universe: set<string>)
    requires AllTaken(base, n, taken) && Candidate(base, n) !in taken && taken <= universe
    ensures n <= |universe| && FreeSlug(base, taken) == Candidate(base, n)
  {
    assert forall i: nat :: i < n ==> Candidate(base, i) in taken;
    Pigeonhole(base, n, universe);
    FreeSlugUnique(base, n, taken);
  }

  /** What one round of the search keeps, whatever rivals committed before its check. */
  lemma SearchStep(base: string, n: nat, taken: set<string>, start: State, seen: seq<Rival>, step: seq<Rival>,
                   rest: seq<Rival>, all: seq<Rival>)
    requires AllTaken(base, n, taken) && Candidate(base, n) in taken && all == seen + (step + rest)
    requires taken <= TakenSlugs(CommitAll(CommitAll(start, seen), step).orgs)
    ensures all == (seen + step) + rest
    ensures var now := CommitAll(start, seen + step);
            && now == CommitAll(CommitAll(start, seen), step)
            && AllTaken(base, n + 1, TakenSlugs(now.orgs))
            && TakenSlugs(now.orgs) <= TakenSlugs(start.orgs) + SlugsOf(all)
  {
    Chain(start, seen, step, rest, all);
    AllTakenNext(base, n, taken, TakenSlugs(CommitAll(start, seen + step).orgs));
  }

  /** The search loop, with rivals committing between its existence checks. It ends on a slug
      that its last check found free and whose predecessors are all taken. */
  method CandidateSlug(db: Database, world: Schedule, base: string)
    returns (slug: string, ghost checks: nat, ghost seen: seq<Rival>)
    modifies db, world
    ensures Flatten(old(world.batches)) == seen + Flatten(world.batches)
    ensures db.Snapshot() == CommitAll(old(db.Snapshot()), seen)
    ensures slug == FreeSlug(base, TakenSlugs(db.orgs))
    ensures checks <= |TakenSlugs(old(db.orgs)) + SlugsOf(Flatten(old(world.batches)))| + 1
  {
    ghost var start, all := db.Snapshot(), Flatten(world.batches);
    ghost var universe := TakenSlugs(start.orgs) + SlugsOf(all);
    slug := base;
    var suffix := 2;
    var found;
    found, seen := SlugExists(db, world, slug);
    ghost var n, now, rest := 0, db.Snapshot(), Flatten(world.batches);
    ghost var taken := TakenSlugs(now.orgs);
    Chain(start, [], seen, rest, all);
    assert [] + seen == seen;
    while found
      invariant now == db.Snapshot() && rest == Flatten(world.batches) && taken == TakenSlugs(now.orgs)
      invariant suffix == n + 2 && slug == Candidate(base, n)
      invariant all == seen + rest && now == CommitAll(start, seen)
      invariant AllTaken(base, n, taken) && taken <= universe
      invariant found <==> slug in taken
      decreases |universe| - n
    {
      SearchBounded(base, n, taken, universe);
      slug := base + "-" + Decimal(suffix);
      suffix := suffix + 1;
      ghost var step, before := [], taken;
      found, step := SlugExists(db, world, slug);
      now, rest, taken := db.Snapshot(), Flatten(world.batches), TakenSlugs(db.orgs);
      SearchStep(base, n, before, start, seen, step, rest, all);
      n, seen := n + 1, seen + step;
    }
    checks := suffix - 1;
    SearchEnds(base, n, taken, universe);
  }

  /** One attempt: the insert fails only if a rival's row was added since `slug` was free. */
  method Attempt(db: Database, world: Schedule, actor: nat, name: string, slug: string, pk: nat)
    returns (inserted: bool, ghost seen: seq<Rival>)
    requires slug !in TakenSlugs(db.orgs)
    modifies db, world
    ensures Flatten(old(world.batches)) == seen + Flatten(world.batches)
    ensures !inserted ==> db.Snapshot() == CommitAll(old(db.Snapshot()), seen) && |db.orgs| > |old(db.orgs)|
    ensures inserted ==> var mid := CommitAll(old(db.Snapshot()), seen);
                         slug !in TakenSlugs(mid.orgs) && db.Snapshot() == InsertOrg(mid, pk, actor, name, slug)
  {
    ghost var before := db.Snapshot();
    seen := world.Interleave(db);
    CommitAllGrows(before, seen);
    inserted := db.InsertOrgWithOwner(pk, actor, name, slug);
  }

  /** No row has this number or refers to it. */
  ghost predicate Unused(s: State, pk: nat) {
    && pk !in s.orgs && pk !in s.members && pk !in s.subs
    && (forall k :: k in s.members ==> s.members[k].org != pk)
    && (forall k :: k in s.subs ==> s.subs[k].org != pk)
  }

  ghost predicate OthersUse(rivals: seq<Rival>, pk: nat) {
    forall r :: r in rivals ==> r.pk != pk
  }

  lemma {:induction false} RivalsKeep(s: State, rivals: seq<Rival>, pk: nat)
    requires Unused(s, pk) && OthersUse(rivals, pk) && UniqueSlugs(s.orgs)
    ensures var t := CommitAll(s, rivals); Unused(t, pk) && UniqueSlugs(t.orgs) && t.plans == s.plans
  {
    if rivals != [] {
      var init, r := rivals[..|rivals| - 1], rivals[|rivals| - 1];
      assert OthersUse(init, pk);
      RivalsKeep(s, init, pk);
      var mid := CommitAll(s, init);
      if r.pk !in mid.orgs && r.slug !in TakenSlugs(mid.orgs) {
        SlugsAfterInsert(mid.orgs, r.pk, Organization(r.name, r.slug, r.actor));
      }
    }
  }

  lemma RivalsSoFar(s: State, seen: seq<Rival>, rest: seq<Rival>, pk: nat)
    requires Unused(s, pk) && OthersUse(seen + rest, pk) && UniqueSlugs(s.orgs)
    ensures var t := CommitAll(s, seen); Unused(t, pk) && UniqueSlugs(t.orgs)
  {
    assert forall r :: r in seen ==> r in seen + rest;
    RivalsKeep(s, seen, pk);
  }

  /** `t` has exactly one organization more than `s`, numbered `pk`: it has one member, its creator,
      who is Owner, and one subscription, to the Free plan, if that is seeded. */
  ghost predicate OneMore(s: State, t: State, pk: nat, org: Organization) {
    && pk !in s.orgs && t.orgs == s.orgs[pk := org] && |t.orgs| == |s.orgs| + 1 && UniqueSlugs(t.orgs)
    && t.members == s.members[pk := Scoped(pk, Membership(org.createdBy, Owner))] && pk !in s.members
    && MemberKeys(t.members, pk) == {pk} && CallerRole(t.members, org.createdBy, pk) == Some(Owner)
    && SubKeys(t.subs, pk) == (if FreeSeeded(s.plans) then {pk} else {})
    && (FreeSeeded(s.plans) ==> t.subs[pk].row == Subscription(FREE, "", "", Active, None))
    && Without(t.subs, pk) == s.subs && t.invites == s.invites && t.projects == s.projects
  }

  lemma InsertAddsOne(s: State, pk: nat, actor: nat, name: string, slug: string)
    requires Unused(s, pk) && UniqueSlugs(s.orgs) && slug !in TakenSlugs(s.orgs)
    ensures OneMore(s, InsertOrg(s, pk, actor, name, slug), pk, Organization(name, slug, actor))
  {
    SlugsAfterInsert(s.orgs, pk, Organization(name, slug, actor));
    Added(s.orgs, pk, Organization(name, slug, actor));
    InsertedOwner(s.members, pk, actor);
    InsertedSubscription(s.subs, pk, Subscription(FREE, "", "", Active, None));
  }

  lemma Added<T>(rows: map<nat, T>, pk: nat, row: T)
    requires pk !in rows
    ensures |rows[pk := row]| == |rows| + 1
  {
    assert rows[pk := row].Keys == rows.Keys + {pk};
    assert |rows[pk := row]| == |rows[pk := row].Keys| && |rows| == |rows.Keys|;
  }

  lemma InsertedSubscription(subs: Table<Subscription>, pk: nat, row: Subscription)
    requires pk !in subs && forall k :: k in subs ==> subs[k].org != pk
    ensures SubKeys(subs, pk) == {} && SubKeys(subs[pk := Scoped(pk, row)], pk) == {pk}
    ensures Without(subs, pk) == subs && Without(subs[pk := Scoped(pk, row)], pk) == subs
  {
    assert SubKeys(subs[pk := Scoped(pk, row)], pk) == {pk};
    assert Without(subs[pk := Scoped(pk, row)], pk) == subs;
  }

  lemma InsertedOwner(members: Table<Membership>, pk: nat, actor: nat)
    requires pk !in members && forall k :: k in members ==> members[k].org != pk
    ensures var after := members[pk := Scoped(pk, Membership(actor, Owner))];
            MemberKeys(after, pk) == {pk} && CallerRole(after, actor, pk) == Some(Owner)
  {
    var after := members[pk := Scoped(pk, Membership(actor, Owner))];
    assert UserKeys(after, actor, pk) == {pk};
  }

  /** Create an organization with its Owner, trying at most six times. It gives up only if at
      least six rivals committed during the call, and then leaves nothing of its own; otherwise
      it adds exactly one organization, with its Owner and its Free subscription, to whatever
      the rivals added. */
  method CreateOrgWithOwner(db: Database, world: Schedule, actor: nat, name: string, base: string, pk: nat)
    returns (answer: Answer, ghost seen: seq<Rival>, ghost tries: nat)
    requires Unused(db.Snapshot(), pk) && OthersUse(Flatten(world.batches), pk) && UniqueSlugs(db.orgs)
    modifies db, world
    ensures Flatten(old(world.batches)) == seen + Flatten(world.batches)
    ensures UniqueSlugs(db.orgs)
    ensures answer == ServerError || answer.OrgBody?
    ensures 1 <= tries <= 6 && (answer == ServerError ==> tries == 6)
    ensures answer == ServerError ==>
              && db.Snapshot() == CommitAll(old(db.Snapshot()), seen)
              && |db.orgs| >= |old(db.orgs)| + 6
    ensures answer.OrgBody? ==>
              && answer == OrgBody(pk, Organization(name, answer.org.slug, actor))
              && var mid := CommitAll(old(db.Snapshot()), seen);
              && OneMore(mid, db.Snapshot(), pk, answer.org)
  {
    ghost var start, all := db.Snapshot(), Flatten(world.batches);
    seen, tries := [], 0;
    for attempt := 0 to 6
      invariant all == seen + Flatten(world.batches)
      invariant db.Snapshot() == CommitAll(start, seen)
      invariant |db.orgs| >= |old(db.orgs)| + attempt
      invariant UniqueSlugs(db.orgs) && tries == attempt
    {
      tries := tries + 1;
      ghost var searching := db.Snapshot();
      var slug, checks, step := CandidateSlug(db, world, base);
      CommitAllGrows(searching, step);
      Chain(start, seen, step, Flatten(world.batches), all);
      seen := seen + step;
      var inserted;
      inserted, step := Attempt(db, world, actor, name, slug, pk);
      Chain(start, seen, step, Flatten(world.batches), all);
      seen := seen + step;
      RivalsSoFar(start, seen, Flatten(world.batches), pk);
      if inserted {
        InsertAddsOne(CommitAll(start, seen), pk, actor, name, slug);
        return OrgBody(pk, Organization(name, slug, actor)), seen, tries;
      }
    }
    answer := ServerError;
  }
}
