/**
 Joining a hosted game: a first attempt chosen from a connection plan, then one fallback after
 another as attempts time out, until the host accepts or the ladder ends.
 */
module JoinLadder {
  import opened Options

  const DEFAULT_TIMEOUT_MS: nat := 3500
  const CLOCK: nat := 0x1_0000_0000_0000_0000

  datatype Attempt = NoAttempt | Direct | NatPunch | Relay

  datatype Join = Join(pending: bool, attempt: Attempt, endpoint: string, startedMs: nat)

  const IDLE := Join(false, NoAttempt, "", 0)

  function Rank(a: Attempt): nat {
    match a case NoAttempt => 0 case Direct => 1 case NatPunch => 2 case Relay => 3
  }

  // What one status check sees: the session, the clock, the lobby and the environment variables,
  // and what starting a punch or a relay would answer and when.
  datatype Sight = Sight(
    accepted: bool, waiting: bool, nowMs: nat, timeoutMs: nat,
    punchForced: bool, relayForced: bool,
    punchReady: bool, punchStarts: bool, punchEndpoint: string, punchMs: nat,
    relayReady: bool, relayStarts: bool, relayEndpoint: string, relayMs: nat)

  // A join is pending with an attempt and a start on the 64-bit clock, or nothing is set.
  ghost predicate Proper(j: Join) {
    if j.pending then j.attempt != NoAttempt && j.startedMs < CLOCK else j == IDLE
  }

  ghost predicate OnClock(s: Sight) {
    s.nowMs < CLOCK && s.punchMs < CLOCK && s.relayMs < CLOCK
  }

  // 64-bit subtraction.
  function Elapsed(now: nat, started: nat): nat
    requires now < CLOCK && started < CLOCK
  {
    if started <= now then now - started else CLOCK + now - started
  }

  predicate Expired(j: Join, s: Sight)
    requires j.startedMs < CLOCK && s.nowMs < CLOCK
  {
    j.pending && !s.accepted && !s.waiting && Elapsed(s.nowMs, j.startedMs) >= s.timeoutMs
  }

  function PunchLabel(s: Sight): string { "Realnet NAT punch " + s.punchEndpoint }
  function RelayLabel(s: Sight): string { "Realnet relay " + s.relayEndpoint }

  predicate CanPunch(j: Join, s: Sight) { j.attempt == Direct && !s.relayForced && s.punchReady && s.punchStarts }
  predicate CanRelay(j: Join, s: Sight) { j.attempt != Relay && !s.punchForced && s.relayReady && s.relayStarts }

  function Synced(j: Join, s: Sight): Join
    requires Proper(j) && OnClock(s)
  {
    if !j.pending then j
    else if s.accepted then IDLE
    else if s.waiting then j.(startedMs := s.nowMs)
    else if !Expired(j, s) then j
    else if CanPunch(j, s) then Join(true, NatPunch, PunchLabel(s), s.punchMs)
    else if CanRelay(j, s) then Join(true, Relay, RelayLabel(s), s.relayMs)
    else IDLE
  }

  // ----- one step -----

  /** A step keeps the attempt, climbs the ladder and restarts the timer, or ends the join. */
  lemma StepClimbs(j: Join, s: Sight)
    requires Proper(j) && OnClock(s)
    ensures var k := Synced(j, s);
            && Proper(k)
            && (k.pending ==> j.pending && Rank(j.attempt) <= Rank(k.attempt))
            && (k.pending && Rank(k.attempt) == Rank(j.attempt) ==> k.endpoint == j.endpoint && !Expired(j, s))
            && (k.pending && Rank(k.attempt) > Rank(j.attempt) ==>
                 Expired(j, s) && k.startedMs in {s.punchMs, s.relayMs})
            && (!k.pending ==> k == IDLE)
  {
  }

  /** A pending join ends in a step exactly when the host accepted or time is up with nothing left to try. */
  lemma StepEnds(j: Join, s: Sight)
    requires Proper(j) && OnClock(s) && j.pending
    ensures !Synced(j, s).pending <==> s.accepted || (Expired(j, s) && !CanPunch(j, s) && !CanRelay(j, s))
    ensures j.attempt == Relay && Expired(j, s) ==> !Synced(j, s).pending
  {
  }

  /** A join kept waiting keeps its attempt and restarts its timer, and until time is up nothing changes. */
  lemma StepKeeps(j: Join, s: Sight)
    requires Proper(j) && OnClock(s)
    ensures j.pending && !s.accepted && s.waiting ==>
              Synced(j, s).pending && Synced(j, s).attempt == j.attempt && Synced(j, s).endpoint == j.endpoint &&
              Synced(j, s).startedMs == s.nowMs
    ensures !j.pending || (!s.accepted && !s.waiting && Elapsed(s.nowMs, j.startedMs) < s.timeoutMs) ==>
              Synced(j, s) == j
  {
  }

  /** When time is up: a punch if the attempt was direct and one may and can be made, else a relay, else nothing. */
  lemma StepFallsBack(j: Join, s: Sight)
    requires Proper(j) && OnClock(s) && j.pending && !s.accepted && !s.waiting
    requires Elapsed(s.nowMs, j.startedMs) >= s.timeoutMs
    ensures var k := Synced(j, s);
            && (k.attempt == NatPunch <==> j.attempt == Direct && !s.relayForced && s.punchReady && s.punchStarts)
            && (k.attempt == NatPunch ==>
                  k.startedMs == s.punchMs && k.endpoint == "Realnet NAT punch " + s.punchEndpoint)
            && (k.attempt == Relay <==>
                k.attempt != NatPunch && j.attempt != Relay && !s.punchForced && s.relayReady && s.relayStarts)
            && (k.attempt == Relay ==> k.startedMs == s.relayMs && k.endpoint == "Realnet relay " + s.relayEndpoint)
            && (k.pending <==> k.attempt in {NatPunch, Relay})
  {
  }

  // ----- runs -----

  /** However long a host keeps a join waiting, it waits on, with its timer at the last check. */
  lemma {:induction false} WaitsOn(j: Join, sights: seq<Sight>)
    requires Proper(j) && j.pending && sights != []
    requires forall i :: 0 <= i < |sights| ==> OnClock(sights[i]) && sights[i].waiting && !sights[i].accepted
    ensures Run(j, sights) == j.(startedMs := sights[|sights| - 1].nowMs) && Timeouts(j, sights) == 0
    decreases |sights|
  {
    StepKeeps(j, sights[0]);
    StepClimbs(j, sights[0]);
    if |sights| > 1 {
      WaitsOn(Synced(j, sights[0]), sights[1..]);
    } else {
      assert sights[1..] == [];
    }
  }

  function Run(j: Join, sights: seq<Sight>): Join
    requires Proper(j) && forall i :: 0 <= i < |sights| ==> OnClock(sights[i])
    decreases |sights|
  {
    if sights == [] then j
    else
      StepClimbs(j, sights[0]);
      Run(Synced(j, sights[0]), sights[1..])
  }

  function Timeouts(j: Join, sights: seq<Sight>): nat
    requires Proper(j) && forall i :: 0 <= i < |sights| ==> OnClock(sights[i])
    decreases |sights|
  {
    if sights == [] then 0
    else
      StepClimbs(j, sights[0]);
      (if j.pending && Expired(j, sights[0]) then 1 else 0) + Timeouts(Synced(j, sights[0]), sights[1..])
  }

  lemma {:induction false} IdleStays(sights: seq<Sight>)
    requires forall i :: 0 <= i < |sights| ==> OnClock(sights[i])
    ensures Run(IDLE, sights) == IDLE && Timeouts(IDLE, sights) == 0
    decreases |sights|
  {
    if sights != [] { IdleStays(sights[1..]); }
  }

  /** However long it runs, a join times out at most once per rung it has left. */
  lemma {:induction false} FewTimeouts(j: Join, sights: seq<Sight>)
    requires Proper(j) && j.pending && forall i :: 0 <= i < |sights| ==> OnClock(sights[i])
    ensures Timeouts(j, sights) <= 4 - Rank(j.attempt) <= 3
    ensures Run(j, sights).pending ==> Timeouts(j, sights) <= Rank(Run(j, sights).attempt) - Rank(j.attempt)
    decreases |sights|
  {
    if sights != [] {
      StepClimbs(j, sights[0]);
      StepEnds(j, sights[0]);
      var k := Synced(j, sights[0]);
      if k.pending {
        hide Synced;
        FewTimeouts(k, sights[1..]);
      } else {
        IdleStays(sights[1..]);
      }
    }
  }

  // A host that never asks to wait, one timeout, and a clock that goes forward, with no more than
  // a gap from the time of one look to the end of the next.
  ghost predicate Steady(sights: seq<Sight>, last: nat, floor: nat, timeout: nat, gap: nat)
    decreases |sights|
  {
    sights == [] ||
    var s := sights[0];
    && !s.waiting && s.timeoutMs == timeout
    && last <= floor <= s.nowMs <= s.punchMs <= s.relayMs <= last + gap && s.relayMs < CLOCK
    && Steady(sights[1..], s.nowMs, s.relayMs, timeout, gap)
  }

  // When a pending join must be over.
  function Deadline(j: Join, timeout: nat, gap: nat): nat {
    j.startedMs + timeout + (if j.attempt == Direct then 2 * (timeout + gap)
                             else if j.attempt == NatPunch then timeout + gap else 0)
  }

  lemma StepMeetsDeadline(j: Join, s: Sight, last: nat, floor: nat, timeout: nat, gap: nat)
    requires Proper(j) && j.pending && OnClock(s) && !s.waiting && s.timeoutMs == timeout > 0
    requires last <= floor <= s.nowMs <= s.punchMs <= s.relayMs <= last + gap
    requires j.startedMs <= floor && last < j.startedMs + timeout
    ensures var k := Synced(j, s);
            k.pending ==>
              && Deadline(k, timeout, gap) <= Deadline(j, timeout, gap)
              && k.startedMs <= s.relayMs && s.nowMs < k.startedMs + timeout
  {
  }

  lemma {:induction false} PendingIsEarly(j: Join, sights: seq<Sight>, last: nat, floor: nat, timeout: nat, gap: nat)
    requires Proper(j) && j.pending && timeout > 0 && j.startedMs <= floor && last < j.startedMs + timeout
    requires Steady(sights, last, floor, timeout, gap) && sights != []
    requires forall i :: 0 <= i < |sights| ==> OnClock(sights[i])
    ensures Run(j, sights).pending ==> sights[|sights| - 1].nowMs < Deadline(j, timeout, gap)
    decreases |sights|
  {
    var s := sights[0];
    StepMeetsDeadline(j, s, last, floor, timeout, gap);
    StepClimbs(j, s);
    var k := Synced(j, s);
    hide Synced;
    if |sights| > 1 {
      if k.pending {
        PendingIsEarly(k, sights[1..], s.nowMs, s.relayMs, timeout, gap);
      } else {
        IdleStays(sights[1..]);
      }
    } else {
      assert Run(k, sights[1..]) == k;
    }
  }

  /**
   A join that the host never answers ends in time: whatever the lobby offers on the way, it is
   over, one way or the other, within three timeouts and two gaps of its start.
   */
  lemma EndsInTime(j: Join, sights: seq<Sight>, timeout: nat, gap: nat)
    requires Proper(j) && j.pending && timeout > 0
    requires Steady(sights, j.startedMs, j.startedMs, timeout, gap) && sights != []
    requires forall i :: 0 <= i < |sights| ==> OnClock(sights[i])
    requires sights[|sights| - 1].nowMs >= j.startedMs + 3 * timeout + 2 * gap
    ensures Run(j, sights) == IDLE
  {
    PendingIsEarly(j, sights, j.startedMs, j.startedMs, timeout, gap);
    assert Proper(Run(j, sights)) by { RunProper(j, sights); }
  }

  lemma {:induction false} RunProper(j: Join, sights: seq<Sight>)
    requires Proper(j) && forall i :: 0 <= i < |sights| ==> OnClock(sights[i])
    ensures Proper(Run(j, sights))
    decreases |sights|
  {
    if sights != [] {
      StepClimbs(j, sights[0]);
      RunProper(Synced(j, sights[0]), sights[1..]);
    }
  }

  // ----- the first attempt -----

  datatype CandidateKind = Loopback | LanDirect | PublicDirect | Punch | Relayed | Other

  // A candidate of the plan: whether the plan says to try it, and what trying it answers.
  datatype Candidate = Candidate(eligible: bool, kind: CandidateKind, starts: bool, endpoint: string)

  predicate IsDirectConnectionCandidate(kind: CandidateKind) {
    kind == Loopback || kind == LanDirect || kind == PublicDirect
  }

  predicate Usable(c: Candidate, punchReady: bool, relayReady: bool) {
    c.eligible &&
    (IsDirectConnectionCandidate(c.kind) || (c.kind == Punch && punchReady) || (c.kind == Relayed && relayReady))
  }

  function AttemptFor(kind: CandidateKind): Attempt {
    if IsDirectConnectionCandidate(kind) then Direct else if kind == Punch then NatPunch
    else if kind == Relayed then Relay else NoAttempt
  }

  function LabelFor(c: Candidate): string {
    if c.kind == Punch then "Realnet NAT punch " + c.endpoint
    else if c.kind == Relayed then "Realnet relay " + c.endpoint else c.endpoint
  }

  // The first candidate that can be tried.
  function FirstUsable(plan: seq<Candidate>, punchReady: bool, relayReady: bool): (i: nat)
    ensures i <= |plan| && (i < |plan| ==> Usable(plan[i], punchReady, relayReady))
    ensures forall j :: 0 <= j < i ==> !Usable(plan[j], punchReady, relayReady)
  {
    if plan == [] || Usable(plan[0], punchReady, relayReady) then 0
    else 1 + FirstUsable(plan[1..], punchReady, relayReady)
  }

  class Shell {
    var join: Join

    ghost predicate Valid()
      reads this
    {
      Proper(join)
    }

    constructor ()
      ensures Valid() && join == IDLE
    {
      join := IDLE;
    }

    // Only the first usable candidate is tried; if it does not start, no other is.
    method TryPlan(plan: seq<Candidate>, punchReady: bool, relayReady: bool)
      returns (ok: bool, attempt: Attempt, endpoint: string)
      ensures var i := FirstUsable(plan, punchReady, relayReady);
              && (ok <==> i < |plan| && plan[i].starts)
              && (ok ==> attempt == AttemptFor(plan[i].kind) != NoAttempt && endpoint == LabelFor(plan[i]))
    {
      ok, attempt, endpoint := false, NoAttempt, "";
      for i := 0 to |plan|
        invariant !ok && forall j :: 0 <= j < i ==> !Usable(plan[j], punchReady, relayReady)
      {
        var candidate := plan[i];
        if !candidate.eligible {
          continue;
        }
        if IsDirectConnectionCandidate(candidate.kind) {
          return candidate.starts, Direct, candidate.endpoint;
        }
        if candidate.kind == Punch && punchReady {
          return candidate.starts, NatPunch, "Realnet NAT punch " + candidate.endpoint;
        }
        if candidate.kind == Relayed && relayReady {
          return candidate.starts, Relay, "Realnet relay " + candidate.endpoint;
        }
      }
    }

    // Without a room plan the given host is joined directly; with one, even one that comes to
    // nothing, it is not.
    method JoinSplonksFromGubsy(
      hasRoomPlan: bool, plan: seq<Candidate>, punchReady: bool, relayReady: bool, host: Candidate, nowMs: nat)
      returns (ok: bool)
      requires Valid() && nowMs < CLOCK
      modifies this
      ensures Valid()
      ensures var i := FirstUsable(plan, punchReady, relayReady);
              && (ok <==> if hasRoomPlan then i < |plan| && plan[i].starts else host.starts)
              && join == if !ok then old(join)
                         else if hasRoomPlan then Join(true, AttemptFor(plan[i].kind), LabelFor(plan[i]), nowMs)
                         else Join(true, Direct, host.endpoint, nowMs)
    {
      var attempt, endpoint;
      if hasRoomPlan {
        ok, attempt, endpoint := TryPlan(plan, punchReady, relayReady);
      } else {
        ok, attempt, endpoint := host.starts, Direct, host.endpoint;
      }
      if ok {
        join := Join(true, attempt, endpoint, nowMs);
      }
    }

    method Clear()
      modifies this
      ensures join == IDLE
    {
      join := join.(pending := false);
      join := join.(attempt := NoAttempt, endpoint := "", startedMs := 0);
    }

    method SyncDirectJoinStatus(s: Sight)
      requires Valid() && OnClock(s)
      modifies this
      ensures Valid() && join == Synced(old(join), s)
    {
      if !join.pending {
        return;
      }
      if s.accepted {
        Clear();
        return;
      }
      if s.waiting {
        join := join.(startedMs := s.nowMs);
        return;
      }
      var elapsed := if join.startedMs <= s.nowMs then s.nowMs - join.startedMs else CLOCK + s.nowMs - join.startedMs;
      if elapsed < s.timeoutMs {
        return;
      }
      if join.attempt == Direct && !s.relayForced && s.punchReady && s.punchStarts {
        join := join.(attempt := NatPunch, endpoint := "Realnet NAT punch " + s.punchEndpoint, startedMs := s.punchMs);
        return;
      }
      if join.attempt != Relay && !s.punchForced && s.relayReady && s.relayStarts {
        join := join.(attempt := Relay, endpoint := "Realnet relay " + s.relayEndpoint, startedMs := s.relayMs);
        return;
      }
      Clear();
    }
  }
}
