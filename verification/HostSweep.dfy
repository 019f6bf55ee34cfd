/** Whether a running container is killed in this sweep, and which changes can turn a container that is let live
    into one that is killed. */
module HostSweep {
  import opened Options

  const ABSOLUTE_CEILING_MS: real := 1800000.0
  const CLAIM_STUCK_MS: real := 60000.0

  datatype ContainerState = ContainerState(currentTool: string, toolDeclaredTimeoutMs: Option<real>)

  /** claimedAt is None where the timestamp does not parse. */
  datatype Claim = Claim(messageId: string, claimedAt: Option<real>)

  datatype Args = Args(
    now: real,
    heartbeatMtimeMs: real,  // 0.0 when there is no heartbeat file
    containerState: Option<ContainerState>,
    claims: seq<Claim>,
    ceilingMs: Option<real>,
    claimStuckMs: Option<real>)

  datatype Decision =
    | KeepAlive
    | KillCeiling(heartbeatAgeMs: real, ceilingMs: real)
    | KillClaim(messageId: string, claimAgeMs: real, toleranceMs: real)

  function Max(a: real, b: real): real {
    if a < b then b else a
  }

  function BashTimeoutMs(state: Option<ContainerState>): Option<real> {
    if state.None? || state.value.currentTool != "Bash" then None else state.value.toolDeclaredTimeoutMs
  }

  function CeilingBase(a: Args): real {
    a.ceilingMs.GetOr(ABSOLUTE_CEILING_MS)
  }

  function ClaimStuckBase(a: Args): real {
    a.claimStuckMs.GetOr(CLAIM_STUCK_MS)
  }

  function Stretched(base: real, a: Args): real {
    Max(base, BashTimeoutMs(a.containerState).GetOr(0.0))
  }

  /** The heartbeat exists, the ceiling is enabled, and the heartbeat is older than ceiling and Bash timeout allow. */
  predicate PastCeiling(a: Args) {
    && a.heartbeatMtimeMs != 0.0 && CeilingBase(a) > 0.0
    && a.now - a.heartbeatMtimeMs > Stretched(CeilingBase(a), a)
  }

  /** The claim is older than tolerated and there has been no heartbeat since. */
  predicate Stuck(a: Args, c: Claim) {
    && ClaimStuckBase(a) > 0.0
    && c.claimedAt.Some?
    && a.now - c.claimedAt.value > Stretched(ClaimStuckBase(a), a)
    && a.heartbeatMtimeMs <= c.claimedAt.value
  }

  ghost predicate FirstStuck(a: Args, i: nat) {
    i < |a.claims| && Stuck(a, a.claims[i]) && forall j :: 0 <= j < i ==> !Stuck(a, a.claims[j])
  }

  /** The decision that the rules prescribe. */
  ghost predicate Prescribed(a: Args, d: Decision) {
    match d
    case KillCeiling(age, ceiling) =>
      PastCeiling(a) && age == a.now - a.heartbeatMtimeMs && ceiling == Stretched(CeilingBase(a), a)
    case KillClaim(messageId, age, tolerance) =>
      !PastCeiling(a) && exists i: nat ::
        && FirstStuck(a, i) && messageId == a.claims[i].messageId
        && age == a.now - a.claims[i].claimedAt.value && tolerance == Stretched(ClaimStuckBase(a), a)
    case KeepAlive =>
      !PastCeiling(a) && forall c :: c in a.claims ==> !Stuck(a, c)
  }

  method DecideStuckAction(a: Args) returns (d: Decision)
    ensures Prescribed(a, d)
  {
    var ceilingBase := a.ceilingMs.GetOr(ABSOLUTE_CEILING_MS);
    var claimStuckBase := a.claimStuckMs.GetOr(CLAIM_STUCK_MS);
    var declaredBashMs := BashTimeoutMs(a.containerState);
    if a.heartbeatMtimeMs != 0.0 && ceilingBase > 0.0 {
      var heartbeatAge := a.now - a.heartbeatMtimeMs;
      var ceiling := Max(ceilingBase, declaredBashMs.GetOr(0.0));
      if heartbeatAge > ceiling {
        return KillCeiling(heartbeatAge, ceiling);
      }
    }
    if claimStuckBase <= 0.0 { return KeepAlive; }
    var tolerance := Max(claimStuckBase, declaredBashMs.GetOr(0.0));
    for i := 0 to |a.claims|
      invariant forall j :: 0 <= j < i ==> !Stuck(a, a.claims[j])
    {
      var claim := a.claims[i];
      if claim.claimedAt.None? { continue; }
      var claimAge := a.now - claim.claimedAt.value;
      if claimAge <= tolerance { continue; }
      if a.heartbeatMtimeMs > claim.claimedAt.value { continue; }
      assert FirstStuck(a, i);
      return KillClaim(claim.messageId, claimAge, tolerance);
    }
    return KeepAlive;
  }

  /** The rules prescribe one decision and no other. */
  lemma PrescribedIsUnique(a: Args, d: Decision, e: Decision)
    requires Prescribed(a, d) && Prescribed(a, e)
    ensures d == e
  {}

  predicate StaysEnabledAtMost(base: real, base': real) {
    if base > 0.0 then base' <= 0.0 || base' >= base else base' <= 0.0
  }

  /** `b` differs from `a` only in the container's favour: looked at earlier, a heartbeat no older, a Bash timeout no
      shorter, limits no stricter, no further claims. */
  ghost predicate Kinder(a: Args, b: Args) {
    && b.now <= a.now
    && b.heartbeatMtimeMs >= a.heartbeatMtimeMs
    && BashTimeoutMs(b.containerState).GetOr(0.0) >= BashTimeoutMs(a.containerState).GetOr(0.0)
    && StaysEnabledAtMost(CeilingBase(a), CeilingBase(b))
    && StaysEnabledAtMost(ClaimStuckBase(a), ClaimStuckBase(b))
    && forall c :: c in b.claims ==> c in a.claims
  }

  /** For a kinder `b`, a container let live under `a` is let live, except where `a` had no heartbeat to age and `b`
      has one that is past the ceiling: nothing else makes the decision worse. */
  lemma KinderKeepsAlive(a: Args, b: Args, da: Decision, db: Decision)
    requires Prescribed(a, da) && Prescribed(b, db) && Kinder(a, b) && da == KeepAlive
    ensures db == KeepAlive <==> !(a.heartbeatMtimeMs == 0.0 && PastCeiling(b))
  {
    forall c | c in b.claims ensures !Stuck(b, c) {
      assert c in a.claims && !Stuck(a, c);
    }
  }

  /** In particular, with a heartbeat present. */
  lemma MonotoneWithHeartbeat(a: Args, b: Args, da: Decision, db: Decision)
    requires Prescribed(a, da) && Prescribed(b, db) && Kinder(a, b) && a.heartbeatMtimeMs != 0.0
    ensures da == KeepAlive ==> db == KeepAlive
  {
    if da == KeepAlive {
      KinderKeepsAlive(a, b, da, db);
    }
  }

  /** A first heartbeat can turn "let live" into a kill: while there was none, the ceiling was not applied. */
  lemma FirstHeartbeatCanKill()
    ensures var a := Args(4000000.0, 0.0, None, [], None, None);
            var b := a.(heartbeatMtimeMs := 1.0);
            Kinder(a, b) && Prescribed(a, KeepAlive) && Prescribed(b, KillCeiling(3999999.0, 1800000.0))
  {}

  // ------------------------------------------------------------------ what counts, and what does not

  /** While a Bash command runs, the container is let live until the time declared for it is over: the heartbeat, if
      there is one, and every claim without a later heartbeat may be that old, whatever the limits. */
  lemma BashIsAwaited(a: Args, d: Decision, ms: real)
    requires Prescribed(a, d) && a.containerState == Some(ContainerState("Bash", Some(ms)))
    requires a.heartbeatMtimeMs != 0.0 ==> a.now - a.heartbeatMtimeMs <= ms
    requires forall c :: c in a.claims && c.claimedAt.Some? ==>
               a.now - c.claimedAt.value <= ms || a.heartbeatMtimeMs > c.claimedAt.value
    ensures d == KeepAlive
  {}

  /** What another tool declares has no influence, nor what is declared when no tool runs. */
  lemma OnlyBashCounts(a: Args, d: Decision)
    requires a.containerState.Some? && a.containerState.value.currentTool != "Bash"
    ensures Prescribed(a, d) <==> Prescribed(a.(containerState := None), d)
  {
    var b := a.(containerState := None);
    assert PastCeiling(a) <==> PastCeiling(b);
    assert forall c :: Stuck(a, c) <==> Stuck(b, c);
    assert forall i: nat :: FirstStuck(a, i) <==> FirstStuck(b, i);
    hide FirstStuck, Stuck, PastCeiling;
  }

  /** Limits that are not given are half an hour and a minute. */
  lemma DefaultLimits(a: Args, d: Decision)
    ensures Prescribed(a, d)
       <==> Prescribed(a.(ceilingMs := Some(a.ceilingMs.GetOr(1800000.0)),
                          claimStuckMs := Some(a.claimStuckMs.GetOr(60000.0))), d)
  {
    var b := a.(ceilingMs := Some(a.ceilingMs.GetOr(1800000.0)), claimStuckMs := Some(a.claimStuckMs.GetOr(60000.0)));
    assert PastCeiling(a) <==> PastCeiling(b);
    assert forall c :: Stuck(a, c) <==> Stuck(b, c);
    assert forall i: nat :: FirstStuck(a, i) <==> FirstStuck(b, i);
    hide FirstStuck, Stuck, PastCeiling;
  }

  /** A limit of zero is none, and a claim whose time cannot be read is never stuck. */
  lemma ZeroDisables(a: Args, d: Decision)
    requires Prescribed(a, d)
    ensures a.ceilingMs == Some(0.0) ==> !d.KillCeiling?
    ensures a.claimStuckMs == Some(0.0) || (forall c :: c in a.claims ==> c.claimedAt.None?) ==> !d.KillClaim?
  {}

  /** A claim that is older than its limit allows, while no Bash command runs, gets the container killed unless there
      was a heartbeat after the claim was made; one at that very time does not count. */
  lemma SilentClaimKills(a: Args, d: Decision, c: Claim, limit: real)
    requires Prescribed(a, d) && a.containerState == None && a.claimStuckMs == Some(limit) && limit > 0.0
    requires c in a.claims && c.claimedAt.Some? && a.now - c.claimedAt.value > limit
    ensures a.heartbeatMtimeMs <= c.claimedAt.value ==> d != KeepAlive
    ensures (forall b :: b in a.claims && b.claimedAt.Some? ==> a.heartbeatMtimeMs > b.claimedAt.value) ==>
              !d.KillClaim?
  {
    assert Stuck(a, c) <==> a.heartbeatMtimeMs <= c.claimedAt.value;
  }
}
