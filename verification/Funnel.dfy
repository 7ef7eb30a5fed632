/** The lead's funnel: which stage changes the agent may propose, and what any run of them can do. */
module Funnel {
  import opened Wrappers

  datatype Stage = New | Engaging | Qualifying | Qualified | HandedOff | Disqualified

  function Allowed(stage: Stage): set<Stage> {
    match stage
    case New => {Engaging, HandedOff, Disqualified}
    case Engaging => {Qualifying, HandedOff, Disqualified}
    case Qualifying => {Qualified, HandedOff, Disqualified}
    case Qualified => {HandedOff, Disqualified}
    case HandedOff => {}
    case Disqualified => {}
  }

  /** The accepted target, or `None` where the transition is rejected; staying put is accepted. */
  function ValidateTransition(current: Stage, target: Stage): Option<Stage> {
    if current == target || target in Allowed(current) then Some(target) else None
  }

  predicate IsTerminal(stage: Stage) {
    Allowed(stage) == {}
  }

  /** A code-driven transition that keeps the current stage where the funnel rejects it. */
  function Advance(current: Stage, target: Stage): Stage {
    ValidateTransition(current, target).GetOr(current)
  }

  /** Staff re-open a terminal lead; `startOver` restarts it, otherwise the chat continues. */
  function Reopen(current: Stage, startOver: bool): Stage {
    if current == HandedOff || current == Disqualified then (if startOver then New else Engaging) else current
  }

  /** Where a buying signal leaves the lead: qualified from any stage in conversation. */
  function TowardQualified(current: Stage): Stage {
    if current == Engaging || current == Qualifying then Qualified else current
  }

  /** The walk up to qualified, one validated hop at a time, stopping at the first refusal. */
  method AdvanceTowardQualified(current: Stage) returns (stage: Stage)
    ensures stage == TowardQualified(current)
  {
    stage := current;
    var targets := [Qualifying, Qualified];
    var refused := false;
    for i := 0 to |targets|
      invariant i == 0 ==> stage == current && !refused
      invariant i == 1 ==> !refused ==> stage == Qualifying && (current == Engaging || current == Qualifying)
      invariant i == 1 ==> refused ==> stage == current && current != Engaging && current != Qualifying
      invariant i == 2 ==> stage == TowardQualified(current)
    {
      if !refused {
        var next := ValidateTransition(stage, targets[i]);
        if next.None? {
          refused := true;
        } else {
          stage := next.value;
        }
      }
    }
  }

  // ---------------------------------------------------------------- paths

  /** Successive stages, each allowed from the one before. */
  predicate Path(from: Stage, hops: seq<Stage>)
    decreases |hops|
  {
    hops == [] || (hops[0] in Allowed(from) && Path(hops[0], hops[1..]))
  }

  function EndOf(from: Stage, hops: seq<Stage>): Stage {
    if hops == [] then from else hops[|hops| - 1]
  }

  ghost predicate Reaches(from: Stage, to: Stage) {
    exists hops :: Path(from, hops) && EndOf(from, hops) == to
  }

  function Rank(stage: Stage): nat {
    match stage
    case New => 0
    case Engaging => 1
    case Qualifying => 2
    case Qualified => 3
    case HandedOff => 4
    case Disqualified => 4
  }

  /** Every allowed hop climbs, so a path is never longer than the climb it makes. */
  lemma {:induction false} PathClimbs(from: Stage, hops: seq<Stage>)
    requires Path(from, hops)
    ensures |hops| + Rank(from) <= Rank(EndOf(from, hops))
    decreases |hops|
  {
    if hops != [] {
      PathClimbs(hops[0], hops[1..]);
      assert EndOf(hops[0], hops[1..]) == EndOf(from, hops);
    }
  }

  /** Moving along allowed transitions: the rank never falls, a change climbs, a terminal stage absorbs. */
  lemma ReachesClimbs(from: Stage, to: Stage)
    requires Reaches(from, to)
    ensures Rank(from) <= Rank(to) && (from != to ==> Rank(from) < Rank(to))
    ensures IsTerminal(from) ==> to == from
  {
    var hops :| Path(from, hops) && EndOf(from, hops) == to;
    PathClimbs(from, hops);
  }

  lemma {:induction false} PathsJoin(from: Stage, first: seq<Stage>, second: seq<Stage>)
    requires Path(from, first) && Path(EndOf(from, first), second)
    ensures Path(from, first + second) && EndOf(from, first + second) == EndOf(EndOf(from, first), second)
    decreases |first|
  {
    if first == [] {
      assert first + second == second;
    } else {
      assert (first + second)[1..] == first[1..] + second;
      assert EndOf(first[0], first[1..]) == EndOf(from, first);
      PathsJoin(first[0], first[1..], second);
    }
  }

  lemma ReachesTransitive(a: Stage, b: Stage, c: Stage)
    requires Reaches(a, b) && Reaches(b, c)
    ensures Reaches(a, c)
  {
    var first :| Path(a, first) && EndOf(a, first) == b;
    var second :| Path(b, second) && EndOf(b, second) == c;
    PathsJoin(a, first, second);
  }

  lemma StayingReaches(stage: Stage)
    ensures Reaches(stage, stage)
  {
    assert Path(stage, []) && EndOf(stage, []) == stage;
  }

  lemma AcceptedReaches(from: Stage, target: Stage)
    ensures Reaches(from, Advance(from, target))
  {
    if from != target && target in Allowed(from) {
      var hop := [target];
      assert hop[1..] == [];
      assert |hop| == 1 && hop[|hop| - 1] == target;
      assert Path(from, hop);
    } else {
      StayingReaches(from);
    }
  }

  /** The multi-hop advance is a path of allowed hops too. */
  lemma BuyingSignalReaches(from: Stage)
    ensures Reaches(from, TowardQualified(from))
  {
    AcceptedReaches(from, Qualifying);
    AcceptedReaches(Advance(from, Qualifying), Qualified);
    if from == Engaging || from == Qualifying {
      ReachesTransitive(from, Qualifying, Qualified);
    } else {
      StayingReaches(from);
    }
  }

  // ---------------------------------------------------------------- lifetimes

  /** What happens to the stored stage over a conversation's life. */
  datatype Moment = Proposed(to: Stage) | Reactivated

  function After(stage: Stage, m: Moment): Stage {
    match m
    case Proposed(to) => to
    case Reactivated => Reopen(stage, false)
  }

  ghost predicate Lawful(stage: Stage, life: seq<Moment>)
    decreases |life|
  {
    life == [] || ((life[0].Proposed? ==> Reaches(stage, life[0].to)) && Lawful(After(stage, life[0]), life[1..]))
  }

  function Changes(stage: Stage, life: seq<Moment>): nat
    decreases |life|
  {
    if life == [] then 0
    else (if After(stage, life[0]) != stage then 1 else 0) + Changes(After(stage, life[0]), life[1..])
  }

  function Reopenings(stage: Stage, life: seq<Moment>): nat
    decreases |life|
  {
    if life == [] then 0
    else (if life[0].Reactivated? && IsTerminal(stage) then 1 else 0) + Reopenings(After(stage, life[0]), life[1..])
  }

  /**
   * Over any life of agent proposals and staff reactivations the stage changes at most four
   * times, plus four for each time staff re-open a terminal lead.
   */
  lemma {:induction false} ChangesAreBounded(stage: Stage, life: seq<Moment>)
    requires Lawful(stage, life)
    ensures Changes(stage, life) + Rank(stage) <= 4 + 4 * Reopenings(stage, life)
    decreases |life|
  {
    if life != [] {
      if life[0].Proposed? { ReachesClimbs(stage, life[0].to); }
      ChangesAreBounded(After(stage, life[0]), life[1..]);
    }
  }
}
