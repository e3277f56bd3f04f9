/** The last-owner guard. A request reads the member's role first and commits later, in a transaction that counts the
    owners only if the role it has read was owner. Other requests can come between. */
module OwnerGuard {

  datatype Role = Owner | Admin | Plain

  datatype Member = Member(organization: nat, role: Role)

  type Members = map<nat, Member>

  /** A request after its read: a role change or a removal (newRole None), and the role it has seen. */
  datatype Change = ToRole(role: Role) | Removal

  datatype Request = Request(member: nat, organization: nat, change: Change, seen: Role)

  function Owners(m: Members, organization: nat): set<nat> {
    set id | id in m && m[id] == Member(organization, Owner)
  }

  predicate HasOwner(m: Members, organization: nat) {
    Owners(m, organization) != {}
  }

  predicate TakesOwnership(c: Change) {
    c != ToRole(Owner)
  }

  datatype Result = Done | LastOwner | NotFound

  function Outcome(m: Members, q: Request): Result {
    if q.seen == Owner && TakesOwnership(q.change) && |Owners(m, q.organization)| <= 1 then LastOwner
    else if q.member !in m then NotFound
    else Done
  }

  function Committed(m: Members, q: Request): Members {
    if Outcome(m, q) != Done then m
    else
      match q.change
      case ToRole(role) => m[q.member := m[q.member].(role := role)]
      case Removal => m - {q.member}
  }

  // ---------------------------------------------------------------- when a commit goes wrong

  /** The request is about a member that was found in its organization. */
  predicate Matches(m: Members, q: Request) {
    q.member in m ==> m[q.member].organization == q.organization
  }

  lemma {:induction false} CommitChangesOwners(m: Members, q: Request, organization: nat)
    requires Matches(m, q)
    ensures Owners(Committed(m, q), organization) ==
            if Outcome(m, q) != Done || q.organization != organization then Owners(m, organization)
            else if TakesOwnership(q.change) then Owners(m, organization) - {q.member}
            else Owners(m, organization) + {q.member}
  {
  }

  /** A commit takes an organization's last owner away exactly when it removes the only owner on behalf of a request
      that has read another role. */
  lemma {:induction false} LosesLastOwnerIff(m: Members, q: Request, organization: nat)
    requires Matches(m, q) && HasOwner(m, organization)
    ensures !HasOwner(Committed(m, q), organization) <==>
            Owners(m, organization) == {q.member} && TakesOwnership(q.change) && q.seen != Owner
  {
    CommitChangesOwners(m, q, organization);
    if Owners(m, organization) == {q.member} {
      assert q.member in Owners(m, organization);
    }
    if Owners(m, organization) - {q.member} == {} && Outcome(m, q) == Done && q.organization == organization {
      var id :| id in Owners(m, organization);
      assert Owners(m, organization) == {q.member};
    }
  }

  lemma {:induction false} SoleOwner(m: Members, id: nat, organization: nat)
    ensures Owners(m, organization) == {id} <==> id in m && m[id] == Member(organization, Owner) && |Owners(m, organization)| <= 1
  {
    if id in Owners(m, organization) && |Owners(m, organization)| <= 1 {
      assert |Owners(m, organization) - {id}| == 0;
    }
    if Owners(m, organization) == {id} { assert id in Owners(m, organization); }
  }

  // ---------------------------------------------------------------- the service, undisturbed

  class Store {
    var members: Members

    constructor ()
      ensures members == map[]
    {
      members := map[];
    }

    method UpdateRoleWithOwnerGuard(id: nat, role: Role, organization: nat, currentRole: Role) returns (r: Result)
      modifies this
      ensures r == Outcome(old(members), Request(id, organization, ToRole(role), currentRole))
      ensures members == Committed(old(members), Request(id, organization, ToRole(role), currentRole))
    {
      if currentRole == Owner && role != Owner {
        if |Owners(members, organization)| <= 1 { return LastOwner; }
      }
      if id !in members { return NotFound; }
      members := members[id := members[id].(role := role)];
      return Done;
    }

    method DeleteWithOwnerGuard(organization: nat, id: nat, currentRole: Role) returns (r: Result)
      modifies this
      ensures r == Outcome(old(members), Request(id, organization, Removal, currentRole))
      ensures members == Committed(old(members), Request(id, organization, Removal, currentRole))
    {
      if currentRole == Owner {
        if |Owners(members, organization)| <= 1 { return LastOwner; }
      }
      if id !in members { return NotFound; }
      members := members - {id};
      return Done;
    }

    /** Update, with nothing between its read and its transaction, never takes the last owner away. */
    method Update(organization: nat, id: nat, role: Role) returns (r: Result)
      modifies this
      ensures forall o :: HasOwner(old(members), o) ==> HasOwner(members, o)
      ensures r == NotFound <==> id !in old(members) || old(members)[id].organization != organization
      ensures r == LastOwner <==> Owners(old(members), organization) == {id} && role != Owner
      ensures members == if r == Done then old(members)[id := Member(organization, role)] else old(members)
    {
      if id !in members || members[id].organization != organization { return NotFound; }
      var current := members[id].role;
      ghost var q := Request(id, organization, ToRole(role), current);
      forall o | HasOwner(members, o) ensures HasOwner(Committed(members, q), o) { LosesLastOwnerIff(members, q, o); }
      SoleOwner(members, id, organization);
      r := UpdateRoleWithOwnerGuard(id, role, organization, current);
    }

    method Delete(organization: nat, id: nat) returns (r: Result)
      modifies this
      ensures forall o :: HasOwner(old(members), o) ==> HasOwner(members, o)
      ensures r == NotFound <==> id !in old(members) || old(members)[id].organization != organization
      ensures r == LastOwner <==> Owners(old(members), organization) == {id}
      ensures members == if r == Done then old(members) - {id} else old(members)
    {
      if id !in members || members[id].organization != organization { return NotFound; }
      var current := members[id].role;
      ghost var q := Request(id, organization, Removal, current);
      forall o | HasOwner(members, o) ensures HasOwner(Committed(members, q), o) { LosesLastOwnerIff(members, q, o); }
      SoleOwner(members, id, organization);
      r := DeleteWithOwnerGuard(organization, id, current);
    }
  }

  // ---------------------------------------------------------------- interleaved requests

  /** Member ids below `next` have been given out. */
  datatype World = World(members: Members, pending: map<nat, Request>, next: nat)

  datatype Step =
    | Create(organization: nat, role: Role)
    | Read(request: nat, member: nat, organization: nat, change: Change)
    | Commit(request: nat)
    | Drop(request: nat)

  function Next(w: World, step: Step): World {
    match step
    case Create(organization, role) =>
      w.(members := w.members[w.next := Member(organization, role)], next := w.next + 1)
    case Read(request, member, organization, change) =>
      if request in w.pending || member !in w.members || w.members[member].organization != organization then w
      else w.(pending := w.pending[request := Request(member, organization, change, w.members[member].role)])
    case Commit(request) =>
      if request !in w.pending then w
      else w.(members := Committed(w.members, w.pending[request]), pending := w.pending - {request})
    case Drop(request) =>
      w.(pending := w.pending - {request})
  }

  predicate Good(w: World) {
    (forall id :: id in w.members ==> id < w.next) &&
    (forall r :: r in w.pending ==> w.pending[r].member < w.next && Matches(w.members, w.pending[r]))
  }

  /** No request is stale the dangerous way: it has read another role, and the member is owner now. */
  predicate NoneOvertaken(w: World) {
    forall r :: r in w.pending && w.pending[r].member in w.members && w.members[w.pending[r].member].role == Owner ==>
      w.pending[r].seen == Owner
  }

  /** The step does not make a member owner while another request that has read it as something else is pending. */
  predicate PromotesSafely(w: World, step: Step) {
    step.Commit? && step.request in w.pending && w.pending[step.request].change == ToRole(Owner) ==>
      forall r :: r in w.pending && r != step.request && w.pending[r].member == w.pending[step.request].member ==>
        w.pending[r].seen == Owner
  }

  lemma {:induction false} StepKeepsOwners(w: World, step: Step, organization: nat)
    requires Good(w) && NoneOvertaken(w) && PromotesSafely(w, step)
    ensures Good(Next(w, step)) && NoneOvertaken(Next(w, step))
    ensures HasOwner(w.members, organization) ==> HasOwner(Next(w, step).members, organization)
  {
    if step.Commit? && step.request in w.pending {
      if HasOwner(w.members, organization) {
        LosesLastOwnerIff(w.members, w.pending[step.request], organization);
        assert w.pending[step.request].member in Owners(w.members, organization) ==> w.pending[step.request].seen == Owner;
      }
    } else if step.Create? && HasOwner(w.members, organization) {
      var id :| id in Owners(w.members, organization);
      assert id in Owners(Next(w, step).members, organization);
    }
  }

  function RunFrom(w: World, steps: seq<Step>): World {
    if steps == [] then w else Next(RunFrom(w, steps[..|steps| - 1]), steps[|steps| - 1])
  }

  predicate SafeRun(w: World, steps: seq<Step>) {
    steps != [] ==> SafeRun(w, steps[..|steps| - 1]) && PromotesSafely(RunFrom(w, steps[..|steps| - 1]), steps[|steps| - 1])
  }

  /** An organization with an owner always keeps one, however reads and commits interleave, as long as nobody is
      promoted to owner between another request's read of that member and its commit. */
  lemma {:induction false} AlwaysAnOwner(w: World, steps: seq<Step>, organization: nat)
    requires Good(w) && NoneOvertaken(w) && SafeRun(w, steps) && HasOwner(w.members, organization)
    ensures HasOwner(RunFrom(w, steps).members, organization)
    ensures Good(RunFrom(w, steps)) && NoneOvertaken(RunFrom(w, steps))
  {
    if steps != [] {
      AlwaysAnOwner(w, steps[..|steps| - 1], organization);
      StepKeepsOwners(RunFrom(w, steps[..|steps| - 1]), steps[|steps| - 1], organization);
    }
  }

  /** Without that, the last owner can go: a removal reads member 1 as an admin, member 1 is promoted, member 0 steps
      down, and the removal commits unguarded. */
  lemma {:induction false} OvertakenRemovalLosesOwner()
    ensures var w := World(map[0 := Member(7, Owner), 1 := Member(7, Admin)], map[], 2);
            var w1 := Next(w, Read(0, 1, 7, Removal));
            var w2 := Next(Next(w1, Read(1, 1, 7, ToRole(Owner))), Commit(1));
            var w3 := Next(Next(w2, Read(2, 0, 7, ToRole(Plain))), Commit(2));
            HasOwner(w3.members, 7) && !HasOwner(Next(w3, Commit(0)).members, 7)
  {
    var w := World(map[0 := Member(7, Owner), 1 := Member(7, Admin)], map[], 2);
    var w1 := Next(w, Read(0, 1, 7, Removal));
    var w2 := Next(Next(w1, Read(1, 1, 7, ToRole(Owner))), Commit(1));
    assert w2.members == map[0 := Member(7, Owner), 1 := Member(7, Owner)];
    assert Owners(w2.members, 7) == {0, 1};
    var w3 := Next(Next(w2, Read(2, 0, 7, ToRole(Plain))), Commit(2));
    assert w3.members == map[0 := Member(7, Plain), 1 := Member(7, Owner)];
    assert 1 in Owners(w3.members, 7);
    assert Next(w3, Commit(0)).members == map[0 := Member(7, Plain)];
  }
}
