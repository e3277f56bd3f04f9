/** The state string of the GitHub App installation flow: printed by StartInstallation, checked on the callback. */
module InstallationState {
  import opened Text

  const SEP: char := ':'

  /** Times are nanoseconds. */
  const SECOND: int := 1_000_000_000
  const CLOCK_SKEW: int := 5 * 60 * SECOND
  const STATE_TTL: int := 30 * 60 * SECOND

  datatype Verdict = Accepted | Invalid | Expired

  function Parts(organization: string, user: string, issuedAt: int): seq<string> {
    [organization] + (if Trim(user) == "" then [] else [Trim(user)]) + [FormatInt(issuedAt)]
  }

  function StateFor(organization: string, user: string, issuedAt: int): string {
    Join(Parts(organization, user, issuedAt), SEP)
  }

  method StartInstallation(organization: string, user: string, issuedAt: int) returns (state: string)
    ensures state == StateFor(organization, user, issuedAt)
  {
    var stateParts := [organization];
    var userID := Trim(user);
    if userID != "" {
      stateParts := stateParts + [userID];
    }
    stateParts := stateParts + [FormatInt(issuedAt)];
    assert stateParts == Parts(organization, user, issuedAt);
    state := Join(stateParts, SEP);
  }

  function Validate(organization: string, user: string, state: string, now: int): Verdict {
    Judge(Split(Trim(state), SEP), Trim(organization), Trim(user), now)
  }

  function Judge(parts: seq<string>, organization: string, user: string, now: int): Verdict {
    if |parts| != 2 && |parts| != 3 then Invalid
    else if parts[0] != organization then Invalid
    else if |parts| == 3 && (user == "" || parts[1] != user) then Invalid
    else
      match ParseInt(parts[|parts| - 1])
      case None => Invalid
      case Some(issuedAt) =>
        if issuedAt * SECOND > now + CLOCK_SKEW then Invalid
        else if now - issuedAt * SECOND > STATE_TTL then Expired
        else Accepted
  }

  function Tail(user: string, issuedAt: int): (tail: seq<string>)
    ensures tail != []
  {
    (if Trim(user) == "" then [] else [Trim(user)]) + [FormatInt(issuedAt)]
  }

  lemma {:induction false} StateIs(organization: string, user: string, issuedAt: int)
    ensures StateFor(organization, user, issuedAt) == organization + ([SEP] + Join(Tail(user, issuedAt), SEP))
  {
    assert Parts(organization, user, issuedAt) == [organization] + Tail(user, issuedAt);
    JoinCons(organization, Tail(user, issuedAt), SEP);
  }

  lemma {:induction false} TrimmedState(organization: string, user: string, issuedAt: int)
    ensures Trim(StateFor(organization, user, issuedAt)) == StateFor(TrimLeft(organization), user, issuedAt)
  {
    StateIs(organization, user, issuedAt);
    StateIs(TrimLeft(organization), user, issuedAt);
    FormatShape(issuedAt);
    LastOfJoin(Tail(user, issuedAt));
    TrimConcat(organization, [SEP] + Join(Tail(user, issuedAt), SEP));
  }

  lemma {:induction false} LastOfJoin(parts: seq<string>)
    requires parts != [] && parts[|parts| - 1] != ""
    ensures var joined, last := Join(parts, SEP), parts[|parts| - 1];
            joined != "" && joined[|joined| - 1] == last[|last| - 1]
  {
    if |parts| > 1 { LastOfJoin(parts[1..]); }
  }

  /** From five minutes before to half an hour after the second it was issued at; now is in nanoseconds. */
  predicate InTime(issuedAt: int, now: int) {
    issuedAt * 1_000_000_000 - 300_000_000_000 <= now <= issuedAt * 1_000_000_000 + 1_800_000_000_000
  }

  lemma {:induction false} JudgeTwo(name: string, issuedAt: int, organization: string, user: string, now: int)
    requires MIN_INT64 <= issuedAt <= MAX_INT64
    ensures Judge([name, FormatInt(issuedAt)], organization, user, now) == Accepted <==> name == organization && InTime(issuedAt, now)
  {
    ParseFormat(issuedAt);
  }

  lemma {:induction false} JudgeThree(name: string, person: string, issuedAt: int, organization: string, user: string, now: int)
    requires MIN_INT64 <= issuedAt <= MAX_INT64
    ensures Judge([name, person, FormatInt(issuedAt)], organization, user, now) == Accepted <==>
            name == organization && user != "" && person == user && InTime(issuedAt, now)
  {
    ParseFormat(issuedAt);
  }

  lemma {:induction false} NoColonInTime(issuedAt: int)
    ensures SEP !in FormatInt(issuedAt)
  {
    FormatShape(issuedAt);
  }

  lemma {:induction false} PartsColonFree(organization: string, user: string, issuedAt: int)
    requires SEP !in organization && SEP !in Trim(user)
    ensures forall i :: 0 <= i < |Parts(organization, user, issuedAt)| ==> SEP !in Parts(organization, user, issuedAt)[i]
  {
    NoColonInTime(issuedAt);
  }

  lemma {:induction false} SplitState(organization: string, user: string, issuedAt: int)
    requires SEP !in organization && SEP !in Trim(user)
    ensures Split(Trim(StateFor(organization, user, issuedAt)), SEP) == Parts(TrimLeft(organization), user, issuedAt)
  {
    TrimmedState(organization, user, issuedAt);
    assert SEP !in TrimLeft(organization) by { TrimLeftKeeps(organization); }
    PartsColonFree(TrimLeft(organization), user, issuedAt);
    SplitJoin(Parts(TrimLeft(organization), user, issuedAt), SEP);
  }

  /** A state printed for colon-free names is accepted exactly for that organization, for that user if it names one,
      from five minutes before to thirty minutes after it was issued. A state without a user is accepted for any. */
  lemma {:induction false} ColonFreeAcceptedIff(organization: string, user: string, issuedAt: int,
                                                organization': string, user': string, now: int)
    requires MIN_INT64 <= issuedAt <= MAX_INT64
    requires SEP !in organization && SEP !in Trim(user)
    ensures Validate(organization', user', StateFor(organization, user, issuedAt), now) == Accepted <==>
            TrimLeft(organization) == Trim(organization') && (Trim(user) != "" ==> Trim(user) == Trim(user')) && InTime(issuedAt, now)
  {
    SplitState(organization, user, issuedAt);
    if Trim(user) == "" {
      assert Parts(TrimLeft(organization), user, issuedAt) == [TrimLeft(organization), FormatInt(issuedAt)];
      JudgeTwo(TrimLeft(organization), issuedAt, Trim(organization'), Trim(user'), now);
    } else {
      assert Parts(TrimLeft(organization), user, issuedAt) == [TrimLeft(organization), Trim(user), FormatInt(issuedAt)];
      JudgeThree(TrimLeft(organization), Trim(user), issuedAt, Trim(organization'), Trim(user'), now);
    }
  }

  // ---------------------------------------------------------------- names with colons

  /** The organization reads as another organization and a user. */
  predicate ReadsAs(organization: string, organization': string, user': string) {
    Trim(user') != "" && SEP !in Trim(organization') && SEP !in Trim(user') &&
    TrimLeft(organization) == Trim(organization') + ([SEP] + Trim(user'))
  }

  /** The names the state is accepted for. */
  predicate AcceptsNames(organization: string, user: string, organization': string, user': string) {
    if SEP in organization || SEP in Trim(user) then Trim(user) == "" && ReadsAs(organization, organization', user')
    else TrimLeft(organization) == Trim(organization') && (Trim(user) != "" ==> Trim(user) == Trim(user'))
  }

  function Colons(organization: string, user: string): nat {
    Count(TrimLeft(organization), SEP) + if Trim(user) == "" then 0 else 1 + Count(Trim(user), SEP)
  }

  lemma {:induction false} PartsOfState(organization: string, user: string, issuedAt: int)
    ensures |Split(Trim(StateFor(organization, user, issuedAt)), SEP)| == Colons(organization, user) + 2
  {
    var org, u, t := TrimLeft(organization), Trim(user), FormatInt(issuedAt);
    TrimmedState(organization, user, issuedAt);
    StateIs(org, user, issuedAt);
    SplitCount(StateFor(org, user, issuedAt), SEP);
    CountConcat(org, [SEP] + Join(Tail(user, issuedAt), SEP), SEP);
    CountConcat([SEP], Join(Tail(user, issuedAt), SEP), SEP);
    FormatShape(issuedAt);
    CountMember(t, SEP);
    if u != "" {
      assert Tail(user, issuedAt) == [u] + [t];
      JoinCons(u, [t], SEP);
      CountConcat(u, [SEP] + t, SEP);
      CountConcat([SEP], t, SEP);
    }
  }

  lemma {:induction false} JoinThree(a: string, b: string, t: string)
    ensures Join([a, b, t], SEP) == a + ([SEP] + b) + ([SEP] + t)
  {
    JoinCons(a, [b, t], SEP);
    JoinCons(b, [t], SEP);
    assert [a] + [b, t] == [a, b, t] && [b] + [t] == [b, t];
    assert a + ([SEP] + b) + ([SEP] + t) == a + ([SEP] + (b + ([SEP] + t)));
  }

  lemma {:induction false} StateWithoutUser(organization: string, user: string, issuedAt: int)
    requires Trim(user) == ""
    ensures StateFor(organization, user, issuedAt) == organization + ([SEP] + FormatInt(issuedAt))
  {
    StateIs(organization, user, issuedAt);
    assert Tail(user, issuedAt) == [FormatInt(issuedAt)];
  }

  /** Without a user, an organization with one colon prints the state of two names. */
  lemma {:induction false} OneColonSplits(organization: string, user: string, issuedAt: int, a: string, b: string)
    requires Trim(user) == "" && TrimLeft(organization) == a + ([SEP] + b) && SEP !in a && SEP !in b
    ensures Split(Trim(StateFor(organization, user, issuedAt)), SEP) == [a, b, FormatInt(issuedAt)]
  {
    TrimmedState(organization, user, issuedAt);
    StateWithoutUser(TrimLeft(organization), user, issuedAt);
    JoinThree(a, b, FormatInt(issuedAt));
    NoColonInTime(issuedAt);
    SplitJoin([a, b, FormatInt(issuedAt)], SEP);
  }

  lemma {:induction false} OneColon(s: string) returns (a: string, b: string)
    requires Count(s, SEP) == 1
    ensures s == a + ([SEP] + b) && SEP !in a && SEP !in b
  {
    CountMember(s, SEP);
    var i := Index(s, SEP);
    a, b := s[..i], s[i + 1..];
    assert s == a + ([SEP] + b);
    CountConcat(a, [SEP] + b, SEP);
    CountConcat([SEP], b, SEP);
    CountMember(a, SEP);
    CountMember(b, SEP);
  }

  lemma {:induction false} ReadsAsOne(organization: string, organization': string, user': string)
    requires ReadsAs(organization, organization', user')
    ensures Count(TrimLeft(organization), SEP) == 1
  {
    CountConcat(Trim(organization'), [SEP] + Trim(user'), SEP);
    CountConcat([SEP], Trim(user'), SEP);
    CountMember(Trim(organization'), SEP);
    CountMember(Trim(user'), SEP);
  }

  lemma {:induction false} ReadsOneWay(a: string, b: string, c: string, d: string)
    requires a + ([SEP] + b) == c + ([SEP] + d) && SEP !in a && SEP !in c
    ensures a == c && b == d
  {
    FirstIndex(a, b, SEP);
    FirstIndex(c, d, SEP);
    assert a + [SEP] + b == a + ([SEP] + b) && c + [SEP] + d == c + ([SEP] + d);
    assert b == (a + ([SEP] + b))[|a| + 1..];
    assert d == (c + ([SEP] + d))[|c| + 1..];
  }

  lemma {:induction false} OneColonAcceptedIff(organization: string, user: string, issuedAt: int,
                                               organization': string, user': string, now: int)
    requires MIN_INT64 <= issuedAt <= MAX_INT64
    requires Trim(user) == "" && Count(TrimLeft(organization), SEP) == 1
    ensures Validate(organization', user', StateFor(organization, user, issuedAt), now) == Accepted <==>
            ReadsAs(organization, organization', user') && InTime(issuedAt, now)
  {
    var a, b := OneColon(TrimLeft(organization));
    OneColonSplits(organization, user, issuedAt, a, b);
    JudgeThree(a, b, issuedAt, Trim(organization'), Trim(user'), now);
    if ReadsAs(organization, organization', user') {
      ReadsOneWay(a, b, Trim(organization'), Trim(user'));
    }
  }

  lemma {:induction false} ManyColonsRefused(organization: string, user: string, issuedAt: int,
                                             organization': string, user': string, now: int)
    requires Colons(organization, user) > 1
    ensures Validate(organization', user', StateFor(organization, user, issuedAt), now) == Invalid
  {
    PartsOfState(organization, user, issuedAt);
  }

  /** For arbitrary names: a state is accepted in time for its own colon-free names. A colon makes it useless, except that
      one colon in the organization of a state without a user separates an organization and a user it is accepted for. */
  lemma {:induction false} AcceptedIff(organization: string, user: string, issuedAt: int,
                                       organization': string, user': string, now: int)
    requires MIN_INT64 <= issuedAt <= MAX_INT64
    ensures Validate(organization', user', StateFor(organization, user, issuedAt), now) == Accepted <==>
            AcceptsNames(organization, user, organization', user') && InTime(issuedAt, now)
  {
    ColonsSeen(organization, user);
    if SEP !in organization && SEP !in Trim(user) {
      ColonFreeAcceptedIff(organization, user, issuedAt, organization', user', now);
    } else if Trim(user) == "" && Count(TrimLeft(organization), SEP) == 1 {
      OneColonAcceptedIff(organization, user, issuedAt, organization', user', now);
    } else {
      ManyColonsRefused(organization, user, issuedAt, organization', user', now);
      if ReadsAs(organization, organization', user') { ReadsAsOne(organization, organization', user'); }
    }
  }

  lemma {:induction false} ColonsSeen(organization: string, user: string)
    ensures SEP in organization <==> Count(TrimLeft(organization), SEP) > 0
    ensures SEP in Trim(user) <==> Count(Trim(user), SEP) > 0
  {
    CountMember(TrimLeft(organization), SEP);
    CountMember(Trim(user), SEP);
    TrimLeftKeeps(organization);
    if SEP in organization { TrimKeepsSolid(organization, SEP); }
  }

  /** Nobody can complete an installation in the very organization it was started for, if that name has a colon, or the
      user's name has one. */
  lemma {:induction false} ColonNeverAccepted(organization: string, user: string, issuedAt: int,
                                              organization': string, user': string, now: int)
    requires MIN_INT64 <= issuedAt <= MAX_INT64
    requires if SEP in organization then Trim(organization') == Trim(organization) else SEP in Trim(user)
    ensures Validate(organization', user', StateFor(organization, user, issuedAt), now) == Invalid
  {
    if SEP in organization {
      TrimKeepsSolid(organization, SEP);
      assert Split(Trim(StateFor(organization, user, issuedAt)), SEP)[0] != Trim(organization');
    } else {
      ColonsSeen(organization, user);
      ManyColonsRefused(organization, user, issuedAt, organization', user', now);
    }
  }
}
