/** Where the walk and the planner meet: what one request's refusal means for the next request's plan. */
module SpentPool {
  import opened Sequences
  import opened Models
  import opened Catalogue
  import opened History
  import opened Interference
  import opened Chain
  import Planner

  /** The bench a plan is drawn up against is the one the history tells of. */
  ghost predicate ReadsBench(env: Planner.Surroundings, h: Log, now: int) {
    forall c :: env.benched(c) <==> OnBench(h, FileKey(c), now)
  }

  /**
   Once a walk has run into a spent free allowance, each free model of that provider has been benched
   by a step of the history, and from then until an hour after that step no plan holds it, whatever
   others do short of releasing it afterwards, unless a caller names it.
   */
  lemma SpentStaysOut(ws: nat -> Setting, cands: seq<Candidate>, visits: seq<Visit>, legs: seq<Leg>, from: Spot, to: Spot, me: nat,
                      i: nat, p: Profile, h: Log, now: int,
                      k: Knowledge, cfg: Planner.Config, env: Planner.Surroundings, freeFlag: bool, model: string, task: Task,
                      order: seq<string>, orders: seq<seq<string>>, planned: seq<Candidate>)
    returns (j: nat)
    requires Accounted(ws, cands, visits, legs, from, to, me)
    requires i < |visits| && Spent(ws(i), cands[i], visits[i])
    requires Known(ws(i).seen.listing, p) && p.Free() && p.provider == cands[i].provider
    requires to.log <= h && Timely(h, now)
    requires ReadsBench(env, h, now) && WellFiled(k.discovered)
    requires Planner.PlannedAs(k, cfg, env, freeFlag, model, task, order, orders, planned)
    ensures |from.log| <= j < |h| && h[j].actor == me && h[j].step.Benched?
    ensures h[j].step.key == FileKey(p.Place()) && h[j].step.at >= legs[i].asked.at
    ensures now <= h[j].step.at + BENCH_DURATION && KeepsBenched(h[j + 1..], FileKey(p.Place())) ==>
      && env.benched(p.Place())
      && (p.Place() in planned ==>
            && !freeFlag && env.names.lower(env.trim(model)) != "auto:free" && !Planner.SmartRouting(cfg, model, env)
            && Planner.Placed(k, env, Planner.NamedOr(model, cfg.defaultModel), p.Place()))
  {
    j := WalkBenchesPool(ws, cands, visits, legs, from, to, me, i, p, h, now);
    if now <= h[j].step.at + BENCH_DURATION && KeepsBenched(h[j + 1..], FileKey(p.Place())) {
      assert OnBench(h, FileKey(p.Place()), now);
      if p.Place() in planned {
        Planner.BenchedStaysOut(k, cfg, env, freeFlag, model, task, order, orders, planned, p.Place());
      }
    }
  }
}
