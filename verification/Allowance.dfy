/**
 What a refusal puts on the bench: nothing, the refused model, or the provider's whole free pool.
 Each benching takes the lock on its own, so others may step in between.
 */
module Allowance {
  import opened Sequences
  import opened StableSort
  import opened Models
  import opened Catalogue
  import opened History
  import opened Gateway
  import opened Interference

  /** How an upstream's error text is read, left uninterpreted. */
  datatype Faults = Faults(refused: string -> bool, spent: string -> bool, wrongKind: string -> bool) {
    predicate AccessDenied(error: string) {
      refused(error) || spent(error) || wrongKind(error)
    }
  }

  // ---- is the model free at its provider ----

  /** The provider serves the candidate's model free. */
  predicate FreeHere(k: Knowledge, c: Candidate, lower: string -> string) {
    c.model != "" && ServedFree(k, c.provider, lower(c.model), lower)
  }

  lemma {:induction false} FirstKept(p: Profile -> bool, s: seq<Profile>, i: nat)
    requires i < |s| && p(s[i]) && forall j :: 0 <= j < i ==> !p(s[j])
    ensures Filter(p, s) != [] && Filter(p, s)[0] == s[i]
  {
    FilterPosition(p, s, i);
    FilterNone(p, s[..i]);
  }

  /** The first match at the provider, if there is one. */
  method FirstAt(matches: seq<Profile>, provider: string) returns (p: Option<Profile>)
    ensures var at := Filter(AtProvider(provider), matches);
      p == if at == [] then None else Some(at[0])
  {
    ghost var at := AtProvider(provider);
    for i := 0 to |matches|
      invariant forall j :: 0 <= j < i ==> !at(matches[j])
    {
      if matches[i].provider == provider {
        FirstKept(at, matches, i);
        return Some(matches[i]);
      }
    }
    FilterNone(at, matches);
    return None;
  }

  /** The first match at the provider decides, and no map order changes which one that is. */
  method IsFreeAt(k: Knowledge, c: Candidate, lower: string -> string) returns (r: bool)
    requires WellFiled(k.discovered)
    ensures r <==> FreeHere(k, c, lower)
  {
    var matches, order := ResolveIn(k, c.model, lower);
    if c.model != "" {
      ResolvedAtProvider(k, order, c.provider, lower(c.model), lower);
    }
    var first := FirstAt(matches, c.provider);
    return first.Some? && first.value.Free();
  }

  // ---- what is owed ----

  /**
   What the catalogue showed when asked whether the model is free, and then when asked for the free
   models. It takes its lock once for each, so discovery may have changed it in between.
   */
  datatype Seen = Seen(check: Knowledge, listing: Knowledge) {
    ghost predicate Filed() {
      WellFiled(check.discovered) && WellFiled(listing.discovered)
    }
  }

  function KeyOfProfile(p: Profile): string {
    FileKey(p.Place())
  }

  function OtherAt(c: Candidate): Profile -> bool {
    (p: Profile) => p.provider == c.provider && p.model != c.model
  }

  /** The provider's other free models, in listing order. */
  ghost function PoolKeys(k: Knowledge, c: Candidate): seq<string> {
    Map(KeyOfProfile, Filter(OtherAt(c), FreePool(k)))
  }

  /** The keys an error puts on the bench, in order. */
  ghost function OwedKeys(seen: Seen, faults: Faults, lower: string -> string, c: Candidate, error: string): seq<string> {
    if !faults.AccessDenied(error) then []
    else [FileKey(c)] + (if faults.spent(error) && FreeHere(seen.check, c, lower) then PoolKeys(seen.listing, c) else [])
  }

  /** One benching a key, in order, each at its own time. */
  ghost predicate BenchSteps(steps: seq<Step>, keys: seq<string>, from: int, to: int) {
    && |steps| == |keys|
    && forall i :: 0 <= i < |steps| ==> BenchStep(steps[i], keys[i], from, to)
  }

  predicate BenchStep(s: Step, key: string, from: int, to: int) {
    s.Benched? && s.key == key && from <= s.at <= to
  }

  lemma BenchStepsJoin(a: seq<Step>, ka: seq<string>, b: seq<Step>, kb: seq<string>, from: int, mid: int, to: int)
    requires BenchSteps(a, ka, from, mid) && BenchSteps(b, kb, mid, to) && from <= mid <= to
    ensures BenchSteps(a + b, ka + kb, from, to)
  {}

  // ---- benching it ----

  /** One benching, after whatever others do first. */
  method BenchAfter(g: Gateway, c: Candidate, others: seq<OtherStep>, ghost me: nat) returns (ghost steps: seq<Step>)
    requires g.Valid()
    modifies g
    ensures g.Valid() && Stepped(old(SpotOf(g)), SpotOf(g), me, steps)
    ensures BenchSteps(steps, [FileKey(c)], old(g.now), g.now)
  {
    ghost var start := SpotOf(g);
    Interfere(g, others, None, me);
    ghost var mid := SpotOf(g);
    steps := BenchNow(g, c, me);
    SteppedOn(start, mid, SpotOf(g), me, [], steps);
  }

  method BenchNow(g: Gateway, c: Candidate, ghost me: nat) returns (ghost steps: seq<Step>)
    requires g.Valid()
    modifies g`bench, g`history
    ensures g.Valid() && Stepped(old(SpotOf(g)), SpotOf(g), me, steps) && steps == [Benched(FileKey(c), g.now)]
  {
    steps := [Benched(FileKey(c), g.now)];
    g.BenchOne(c, me);
    SteppedOnce(old(SpotOf(g)), SpotOf(g), Entry(me, steps[0]), me);
  }

  /** Nothing unless access was denied; then the model, and behind it its pool when the allowance is spent. */
  method BenchIfAccessDenied(g: Gateway, seen: Seen, faults: Faults, lower: string -> string,
                             c: Candidate, error: string, others: nat -> seq<OtherStep>, ghost me: nat)
    returns (ghost steps: seq<Step>)
    requires g.Valid() && seen.Filed()
    modifies g
    ensures g.Valid() && Stepped(old(SpotOf(g)), SpotOf(g), me, steps)
    ensures BenchSteps(steps, OwedKeys(seen, faults, lower, c, error), old(g.now), g.now)
  {
    ghost var start := SpotOf(g);
    if !faults.AccessDenied(error) {
      steps := [];
      SteppedNone(start, start, me);
      return;
    }
    steps := BenchAfter(g, c, others(0), me);
    if faults.spent(error) {
      var free := IsFreeAt(seen.check, c, lower);
      if free {
        ghost var mid := SpotOf(g);
        ghost var more := BenchFreePool(g, seen.listing, c, others, me);
        SteppedOn(start, mid, SpotOf(g), me, steps, more);
        BenchStepsJoin(steps, [FileKey(c)], more, PoolKeys(seen.listing, c), start.now, mid.now, g.now);
        steps := steps + more;
      }
    }
  }

  /** Sidelines every other free model at the candidate's provider, one lock at a time. */
  method BenchFreePool(g: Gateway, k: Knowledge, c: Candidate, others: nat -> seq<OtherStep>, ghost me: nat)
    returns (ghost steps: seq<Step>)
    requires g.Valid() && WellFiled(k.discovered)
    modifies g
    ensures g.Valid() && Stepped(old(SpotOf(g)), SpotOf(g), me, steps)
    ensures BenchSteps(steps, PoolKeys(k, c), old(g.now), g.now)
  {
    var pool := FreeModelsOf(k);
    steps := BenchListed(g, pool, c, others, me);
  }

  method BenchListed(g: Gateway, pool: seq<Profile>, c: Candidate, others: nat -> seq<OtherStep>, ghost me: nat)
    returns (ghost steps: seq<Step>)
    requires g.Valid()
    modifies g
    ensures g.Valid() && Stepped(old(SpotOf(g)), SpotOf(g), me, steps)
    ensures BenchSteps(steps, Map(KeyOfProfile, Filter(OtherAt(c), pool)), old(g.now), g.now)
  {
    ghost var start := SpotOf(g);
    steps := [];
    SteppedNone(start, start, me);
    for i := 0 to |pool|
      invariant g.Valid() && Stepped(start, SpotOf(g), me, steps)
      invariant BenchSteps(steps, KeysUpTo(pool, c, i), start.now, g.now)
    {
      KeysUpToSnoc(pool, c, i);
      if pool[i].provider == c.provider && pool[i].model != c.model {
        ghost var mid := SpotOf(g);
        ghost var more := BenchAfter(g, pool[i].Place(), others(i + 1), me);
        SteppedOn(start, mid, SpotOf(g), me, steps, more);
        BenchStepsJoin(steps, KeysUpTo(pool, c, i), more, [KeyOfProfile(pool[i])], start.now, mid.now, g.now);
        steps := steps + more;
      }
    }
    assert pool[..|pool|] == pool;
  }

  function KeysUpTo(pool: seq<Profile>, c: Candidate, i: nat): seq<string>
    requires i <= |pool|
  {
    Map(KeyOfProfile, Filter(OtherAt(c), pool[..i]))
  }

  lemma KeysUpToSnoc(pool: seq<Profile>, c: Candidate, i: nat)
    requires i < |pool|
    ensures KeysUpTo(pool, c, i + 1) ==
      if OtherAt(c)(pool[i]) then KeysUpTo(pool, c, i) + [KeyOfProfile(pool[i])] else KeysUpTo(pool, c, i)
  {
    assert pool[..i + 1] == pool[..i] + [pool[i]];
    FilterSnoc(OtherAt(c), pool[..i], pool[i]);
    if OtherAt(c)(pool[i]) {
      MapSnoc(KeyOfProfile, Filter(OtherAt(c), pool[..i]), pool[i]);
    }
  }

  // ---- what a spent allowance means ----

  /** The place was listed as free, at the candidate's provider. */
  ghost predicate FreeAmong(seen: Seen, q: Candidate, c: Candidate) {
    q.provider == c.provider && FreeListed(seen.listing, q)
  }

  lemma PoolMember(k: Knowledge, p: Profile)
    ensures p in FreePool(k) <==> p.Free() && Known(k, p)
  {
    ListedMember(k.profiles, IsFree, k.discovered, SomeOrder(k.discovered.Keys), p);
  }

  lemma PoolKeysMember(k: Knowledge, c: Candidate, key: string)
    ensures key in PoolKeys(k, c) <==>
      exists p :: Known(k, p) && p.Free() && p.provider == c.provider && p.model != c.model && FileKey(p.Place()) == key
  {
    var pool := Filter(OtherAt(c), FreePool(k));
    if key in PoolKeys(k, c) {
      var i :| 0 <= i < |pool| && PoolKeys(k, c)[i] == key;
      FilterMember(OtherAt(c), FreePool(k), pool[i]);
      PoolMember(k, pool[i]);
    }
    if p :| Known(k, p) && p.Free() && p.provider == c.provider && p.model != c.model && FileKey(p.Place()) == key {
      PoolMember(k, p);
      FilterMember(OtherAt(c), FreePool(k), p);
      var i :| 0 <= i < |pool| && pool[i] == p;
      assert PoolKeys(k, c)[i] == key;
    }
  }

  /** The refused model and the free listings of its provider are benched, and, where names do not clash, nothing else. */
  lemma OwedMember(seen: Seen, faults: Faults, lower: string -> string, c: Candidate, error: string, q: Candidate)
    requires faults.spent(error) && FreeHere(seen.check, c, lower)
    ensures q == c || FreeAmong(seen, q, c) ==> FileKey(q) in OwedKeys(seen, faults, lower, c, error)
    ensures !Clashing(q.provider, c.provider) && FileKey(q) in OwedKeys(seen, faults, lower, c, error) ==>
      q == c || FreeAmong(seen, q, c)
  {
    var keys := OwedKeys(seen, faults, lower, c, error);
    assert keys[0] == FileKey(c);
    assert forall key :: key in keys <==> key == FileKey(c) || key in PoolKeys(seen.listing, c);
    PoolKeysMember(seen.listing, c, FileKey(q));
    if FreeAmong(seen, q, c) && q != c {
      var p :| Known(seen.listing, p) && p.Free() && p.provider == c.provider && p.Place() == q;
      assert p.model != c.model && FileKey(p.Place()) == FileKey(q);
    }
    if !Clashing(q.provider, c.provider) && FileKey(q) in keys {
      if FileKey(q) == FileKey(c) {
        FileKeyTells(q, c);
      } else {
        var p :| Known(seen.listing, p) && p.Free() && p.provider == c.provider && p.model != c.model && FileKey(p.Place()) == FileKey(q);
        FileKeyTells(q, p.Place());
      }
    }
  }

  /** A benching at step i of the history that holds for its hour, short of a later release. */
  ghost predicate HeldFrom(h: Log, key: string, i: nat, from: int) {
    && i < |h| && h[i].step.Benched? && h[i].step.key == key && h[i].step.at >= from
    && forall t :: t <= h[i].step.at + BENCH_DURATION && KeepsBenched(h[i + 1..], key) ==> OnBench(h, key, t)
  }

  lemma BenchingHolds(h: Log, i: nat, from: int, now: int)
    requires i < |h| && h[i].step.Benched? && h[i].step.at >= from && Timely(h, now)
    ensures HeldFrom(h, h[i].step.key, i, from)
  {
    var key, at := h[i].step.key, h[i].step.at;
    var rest := h[i + 1..];
    assert h == (h[..i] + [h[i]]) + rest;
    BenchSnoc(h[..i], h[i], key);
    forall t | t <= at + BENCH_DURATION && KeepsBenched(rest, key) ensures OnBench(h, key, t) {
      forall j | 0 <= j < |rest| && rest[j].step.Benched? ensures rest[j].step.at >= at {
        assert rest[j] == h[i + 1 + j];
      }
      BenchLasts(h[..i] + [h[i]], rest, key, at, t);
    }
  }

  /** Every free model of the provider has its own step among those owed. */
  lemma OwedStep(seen: Seen, faults: Faults, lower: string -> string, c: Candidate, error: string,
                 steps: seq<Step>, from: int, to: int, p: Profile)
    returns (s: Step)
    requires faults.spent(error) && FreeHere(seen.check, c, lower)
    requires BenchSteps(steps, OwedKeys(seen, faults, lower, c, error), from, to)
    requires Known(seen.listing, p) && p.Free() && p.provider == c.provider
    ensures s in steps && BenchStep(s, FileKey(p.Place()), from, to)
  {
    var keys := OwedKeys(seen, faults, lower, c, error);
    assert FreeAmong(seen, p.Place(), c);
    OwedMember(seen, faults, lower, c, error, p.Place());
    var j :| 0 <= j < |keys| && keys[j] == FileKey(p.Place());
    s := steps[j];
  }

  /**
   A spent free allowance takes down exactly the pool. In every history in which the steps it owes
   were taken after step `start`, each free model of the provider was benched after it, at its own
   moment no earlier than `from`, and stays out for the hour after that short of a release.
   */
  lemma SpentAllowance(seen: Seen, faults: Faults, lower: string -> string, c: Candidate, error: string,
                       steps: seq<Step>, h: Log, start: nat, me: nat, from: int, to: int, now: int, p: Profile)
    returns (i: nat)
    requires faults.spent(error) && FreeHere(seen.check, c, lower)
    requires BenchSteps(steps, OwedKeys(seen, faults, lower, c, error), from, to)
    requires start <= |h| && Timely(h, now) && forall s :: s in steps ==> s in Mine(h[start..], me)
    requires Known(seen.listing, p) && p.Free() && p.provider == c.provider
    ensures i >= start && HeldFrom(h, FileKey(p.Place()), i, from) && h[i].actor == me
  {
    var s := OwedStep(seen, faults, lower, c, error, steps, from, to, p);
    var rest := h[start..];
    i := MineStands(rest, me, s);
    i := i + start;
    BenchingHolds(h, i, from, now);
  }

  /** No step the refusal owes touches any other model: paid, or at a provider whose name does not clash. */
  lemma OthersUntouched(seen: Seen, faults: Faults, lower: string -> string, c: Candidate, error: string,
                        steps: seq<Step>, from: int, to: int, q: Candidate)
    requires faults.spent(error) && FreeHere(seen.check, c, lower)
    requires BenchSteps(steps, OwedKeys(seen, faults, lower, c, error), from, to)
    requires !Clashing(q.provider, c.provider) && q != c && !FreeAmong(seen, q, c)
    ensures forall s :: s in steps ==> !Touches(s, FileKey(q))
  {
    var keys := OwedKeys(seen, faults, lower, c, error);
    OwedMember(seen, faults, lower, c, error, q);
    forall s | s in steps ensures !Touches(s, FileKey(q)) {
      var j :| 0 <= j < |steps| && steps[j] == s;
      assert BenchStep(steps[j], keys[j], from, to) && keys[j] in keys;
    }
  }

  /** Hence, unless somebody else touches it meanwhile, such a model is on or off the bench as before. */
  lemma OthersAsBefore(seen: Seen, faults: Faults, lower: string -> string, c: Candidate, error: string,
                       steps: seq<Step>, from: int, to: int, q: Candidate, h: Log, more: Log, me: nat)
    requires faults.spent(error) && FreeHere(seen.check, c, lower)
    requires BenchSteps(steps, OwedKeys(seen, faults, lower, c, error), from, to)
    requires !Clashing(q.provider, c.provider) && q != c && !FreeAmong(seen, q, c)
    requires Mine(more, me) == steps
    requires forall i :: 0 <= i < |more| && more[i].actor != me ==> !Touches(more[i].step, FileKey(q))
    ensures LastBench(h + more, FileKey(q)) == LastBench(h, FileKey(q))
  {
    OthersUntouched(seen, faults, lower, c, error, steps, from, to, q);
    forall i | 0 <= i < |more| ensures !Touches(more[i].step, FileKey(q)) {
      if more[i].actor == me {
        StandsMine(more, me, i);
      }
    }
    BenchUntouched(h, more, FileKey(q));
  }

  /**
   What an error costs, kind by kind: a spent allowance on a free model its whole pool; any other
   refusal, or a model of the wrong kind, the model alone; anything else nothing.
   */
  lemma WhatIsOwed(seen: Seen, faults: Faults, lower: string -> string, c: Candidate, error: string)
    ensures var owed := OwedKeys(seen, faults, lower, c, error);
      && (faults.refused(error) && !faults.spent(error) ==> owed == [c.provider + "/" + c.model])
      && (faults.wrongKind(error) && !faults.spent(error) ==> owed == [c.provider + "/" + c.model])
      && (faults.spent(error) && !FreeHere(seen.check, c, lower) ==> owed == [c.provider + "/" + c.model])
      && (faults.spent(error) ==> owed != [] && owed[0] == c.provider + "/" + c.model)
      && (!faults.refused(error) && !faults.spent(error) && !faults.wrongKind(error) ==> owed == [])
  {}
}
