/** How models are rated for a task: the reliability arithmetic and the score it enters. */
module Scoring {
  import opened Sequences
  import opened StableSort
  import opened Models

  datatype Suitability = Unknown | General | Strong | Poor

  /** Readings of a model's name, left uninterpreted. */
  datatype Names = Names(
    lower: string -> string,
    specialised: string -> bool,
    code: string -> bool,
    completionOnly: string -> bool,
    reasoning: string -> bool)

  const MIN_SAMPLES: int := 8
  const FAILURE_WEIGHT: real := 12.0
  const GENERAL_PENALTY: real := 1.5
  const POOR_PENALTY: real := 6.0
  const ASSUMED_COST: real := 2.0

  function SuccessRate(r: Reliability): real {
    if r.attempts == 0 then 0.0 else r.successes as real / r.attempts as real
  }

  function Confidence(r: Reliability): real {
    if r.attempts >= MIN_SAMPLES then 1.0 else r.attempts as real / MIN_SAMPLES as real
  }

  function Penalty(r: Reliability): real {
    if r.attempts == 0 then 0.0 else (1.0 - SuccessRate(r)) * Confidence(r)
  }

  function Score(p: Profile, objective: string): real {
    var latencySeconds := p.EffectiveLatency() as real / 1000.0;
    if objective == "latency" then latencySeconds
    else if objective == "cost" then p.BlendedCost()
    else latencySeconds + p.BlendedCost()
  }

  function SuitabilityFor(p: Profile, task: Task, names: Names): Suitability {
    if p.tasks != [] then
      if task in p.tasks then Strong else Poor
    else
      var name := names.lower(p.model);
      if task == "code_generation" then
        if names.completionOnly(name) then Poor
        else if names.code(name) || names.reasoning(name) then Strong
        else General
      else if task == "conversation" then
        if names.completionOnly(name) || names.code(name) then Poor
        else if names.reasoning(name) then General
        else Strong
      else if task == "analysis" then
        if names.completionOnly(name) then Poor
        else if names.reasoning(name) then Strong
        else General
      else if names.completionOnly(name) then Poor
      else General
  }

  /** Base score plus what an unstated price, failures and poor fitness add. */
  function Evidence(p: Profile, task: Task, objective: string, names: Names): real {
    Score(p, objective)
    + (if !p.priceKnown && objective != "latency" then ASSUMED_COST else 0.0)
    + Penalty(p.reliability) * FAILURE_WEIGHT
    + (match SuitabilityFor(p, task, names)
       case Strong => 0.0
       case Poor => POOR_PENALTY
       case _ => GENERAL_PENALTY)
  }

  function RankForTask(pool: seq<Profile>, task: Task, objective: string, names: Names): seq<Profile> {
    Sort(ByKey((p: Profile) => Evidence(p, task, objective, names)), pool)
  }

  ghost predicate Counted(r: Reliability) {
    0 <= r.successes <= r.attempts
  }

  /** The penalty is the observed failures over the attempts, with at least eight attempts assumed. */
  lemma PenaltyIsFailureShare(r: Reliability)
    requires Counted(r)
    ensures Penalty(r) == (r.attempts - r.successes) as real / Max(r.attempts, MIN_SAMPLES) as real
    ensures 0.0 <= Penalty(r) <= 1.0
  {
    if r.attempts > 0 {
      FailureShare(r.successes as real, r.attempts as real);
      ShareBetween((r.attempts - r.successes) as real, Max(r.attempts, MIN_SAMPLES) as real);
    } else {
      ShareBetween(0.0, MIN_SAMPLES as real);
    }
  }

  /** A penalty of zero is a clean record, and only that. */
  lemma PenaltyFree(r: Reliability)
    requires Counted(r)
    ensures Penalty(r) == 0.0 <==> r.successes == r.attempts
  {
    PenaltyIsFailureShare(r);
    if r.successes < r.attempts {
      ShareAbove((r.attempts - r.successes) as real, Max(r.attempts, MIN_SAMPLES) as real);
    }
  }

  lemma ShareAbove(x: real, y: real)
    requires x > 0.0 && y > 0.0
    ensures x / y > 0.0
  {}

  /**
   Evidence only ever penalises, by at most 20: a model keeps its plain score, and with it its
   distance from other such models, exactly when its price is stated or beside the point, no call to
   it failed and it is strong at the task.
   */
  lemma EvidenceOnlyPenalises(p: Profile, task: Task, objective: string, names: Names)
    requires Counted(p.reliability)
    ensures Score(p, objective) <= Evidence(p, task, objective, names) <= Score(p, objective) + 20.0
    ensures Evidence(p, task, objective, names) == Score(p, objective) <==>
      (p.priceKnown || objective == "latency") && p.reliability.successes == p.reliability.attempts && SuitabilityFor(p, task, names).Strong?
  {
    PenaltyIsFailureShare(p.reliability);
    PenaltyFree(p.reliability);
  }

  /** What counts against a model, in numbers: an unstated price 2, a record of nothing but failures 12, a middling fit 1.5, a poor one 6. */
  lemma EvidenceAdds(p: Profile, task: Task, objective: string, names: Names)
    requires Counted(p.reliability)
    ensures var plain := p.(priceKnown := true, reliability := Reliability(0, 0, 0));
      && Evidence(p.(priceKnown := false), task, objective, names) ==
           Evidence(p.(priceKnown := true), task, objective, names) + (if objective == "latency" then 0.0 else 2.0)
      && (p.reliability.attempts >= 8 && p.reliability.successes == 0 ==>
           Evidence(p.(priceKnown := true), task, objective, names) == Evidence(plain, task, objective, names) + 12.0)
      && Evidence(plain, task, objective, names) - Score(p, objective) ==
           (match SuitabilityFor(p, task, names) case Strong => 0.0 case Poor => 6.0 case General => 1.5 case Unknown => 1.5)
  {
    PenaltyIsFailureShare(p.reliability);
    if p.reliability.attempts >= 8 && p.reliability.successes == 0 {
      SelfShare(p.reliability.attempts as real);
    }
  }

  lemma SelfShare(x: real)
    requires x > 0.0
    ensures x / x == 1.0
  {}

  /**
   Fitness. Declared tasks settle it. Otherwise the name does: a completion-only model is poor at
   everything, a code model poor at conversation; code and reasoning models are strong at code, plain
   ones at conversation, reasoning ones at analysis; nothing else is strong, nor anything else poor.
   */
  lemma FitnessExactly(p: Profile, task: Task, names: Names)
    ensures var n := names.lower(p.model);
      && (SuitabilityFor(p, task, names).Strong? <==>
            if p.tasks != [] then task in p.tasks
            else !names.completionOnly(n) &&
                 ((task == "code_generation" && (names.code(n) || names.reasoning(n)))
                  || (task == "conversation" && !names.code(n) && !names.reasoning(n))
                  || (task == "analysis" && names.reasoning(n))))
      && (SuitabilityFor(p, task, names).Poor? <==>
            if p.tasks != [] then task !in p.tasks
            else names.completionOnly(n) || (task == "conversation" && names.code(n)))
      && !SuitabilityFor(p, task, names).Unknown?
  {}

  lemma FailureShare(successes: real, attempts: real)
    requires attempts > 0.0
    ensures 1.0 - successes / attempts == (attempts - successes) / attempts
    ensures (1.0 - successes / attempts) * (attempts / 8.0) == (attempts - successes) / 8.0
  {
    var rate := successes / attempts;
    assert rate * attempts == successes;
    assert (1.0 - rate) * attempts == attempts - successes;
    var share := (attempts - successes) / attempts;
    assert share * attempts == attempts - successes;
    var gap := share - (1.0 - rate);
    assert gap * attempts == share * attempts - (1.0 - rate) * attempts == 0.0;
    if gap != 0.0 { NonzeroProduct(gap, attempts); }
    assert (1.0 - rate) * (attempts / 8.0) == ((1.0 - rate) * attempts) / 8.0;
  }

  lemma ShareBetween(part: real, whole: real)
    requires 0.0 <= part <= whole && whole > 0.0
    ensures 0.0 <= part / whole <= 1.0
  {}

  lemma ShareMoves(part: real, whole: real)
    requires 0.0 <= part <= whole && whole > 0.0
    ensures part / whole <= (part + 1.0) / whole
    ensures part / whole <= (part + 1.0) / (whole + 1.0)
    ensures part / (whole + 1.0) <= part / whole
  {
    var q, up, down := part / whole, (part + 1.0) / (whole + 1.0), part / (whole + 1.0);
    ShareBetween(part, whole);
    assert q * whole == part && up * (whole + 1.0) == part + 1.0 && down * (whole + 1.0) == part;
    assert (up - q) * (whole + 1.0) == 1.0 - q;
    if up < q { NegativeProduct(up - q, whole + 1.0); }
    assert (q - down) * (whole + 1.0) == q;
    if q < down { NegativeProduct(q - down, whole + 1.0); }
    assert (part + 1.0) / whole == q + 1.0 / whole;
  }

  lemma NonzeroProduct(x: real, y: real)
    requires x != 0.0 && y > 0.0
    ensures x * y != 0.0
  {}

  lemma NegativeProduct(x: real, y: real)
    requires x < 0.0 && y > 0.0
    ensures x * y < 0.0
  {}

  /** One more failure never lowers the penalty, one more success never raises it. */
  lemma PenaltyFollowsEvidence(r: Reliability, latency: int)
    requires Counted(r)
    ensures Penalty(r) <= Penalty(Reliability(r.attempts + 1, r.successes, latency))
    ensures Penalty(Reliability(r.attempts + 1, r.successes + 1, latency)) <= Penalty(r)
  {
    PenaltyIsFailureShare(r);
    PenaltyIsFailureShare(Reliability(r.attempts + 1, r.successes, latency));
    PenaltyIsFailureShare(Reliability(r.attempts + 1, r.successes + 1, latency));
    var m := Max(r.attempts, MIN_SAMPLES);
    var failures := (r.attempts - r.successes) as real;
    ShareMoves(failures, m as real);
    assert Max(r.attempts + 1, MIN_SAMPLES) == if r.attempts >= MIN_SAMPLES then m + 1 else m;
    assert (r.attempts + 1 - r.successes) as real == failures + 1.0;
    assert (m + 1) as real == m as real + 1.0;
  }

  /** A model that always fails scores behind any model with nothing against it whose base is less than 4 worse. */
  lemma FailureIsDecisive(failing: Profile, sound: Profile, task: Task, objective: string, names: Names)
    requires Penalty(failing.reliability) == 1.0 && Penalty(sound.reliability) == 0.0
    requires Score(sound, objective) < Score(failing, objective) + 4.0
    ensures Evidence(sound, task, objective, names) < Evidence(failing, task, objective, names)
  {}

  /** Hence wherever the two stand in a pool, ranking puts the sound one first. */
  lemma FailingRanksBehind(pool: seq<Profile>, task: Task, objective: string, names: Names, i: nat, j: nat)
    requires
      var ranked := RankForTask(pool, task, objective, names);
      && i < |ranked| && j < |ranked|
      && Penalty(ranked[i].reliability) == 0.0 && Penalty(ranked[j].reliability) == 1.0
      && Score(ranked[i], objective) < Score(ranked[j], objective) + 4.0
    ensures i < j
  {
    var ranked := RankForTask(pool, task, objective, names);
    SortIsStable(ByKey((p: Profile) => Evidence(p, task, objective, names)), pool);
    FailureIsDecisive(ranked[j], ranked[i], task, objective, names);
  }
}
