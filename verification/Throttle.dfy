/**
 The login throttle. Records are swept lazily, only when somebody asks; the specification never
 sweeps at all, and no caller can tell the two apart. Times are seconds on one monotone clock.
 */
module Throttle {

  const MAX_FAILED_ATTEMPTS := 5
  const LOCKOUT_WINDOW := 900
  const LOCKOUT_DURATION := 300

  /** Go's zero time: every clock reading lies far later. */
  const NEVER := 0

  datatype Record = Record(failures: int, first: int, until: int)

  datatype Attempt = Failed(key: string, at: int) | Succeeded(key: string, at: int)

  // ---- the specification: no sweeping ----

  predicate Expired(r: Record, now: int) {
    now - r.first > LOCKOUT_WINDOW
  }

  function AfterFailure(r: Record, now: int): Record {
    if r.failures + 1 >= MAX_FAILED_ATTEMPTS then Record(0, now, now + LOCKOUT_DURATION)
    else r.(failures := r.failures + 1)
  }

  function FailOn(records: map<string, Record>, key: string, now: int): map<string, Record> {
    records[key := if key !in records || Expired(records[key], now) then Record(1, now, NEVER) else AfterFailure(records[key], now)]
  }

  function Apply(records: map<string, Record>, a: Attempt): map<string, Record> {
    match a
    case Failed(key, at) => FailOn(records, key, at)
    case Succeeded(key, _) => records - {key}
  }

  function Replay(history: seq<Attempt>): map<string, Record> {
    if history == [] then map[] else Apply(Replay(history[..|history| - 1]), history[|history| - 1])
  }

  predicate LockedAt(records: map<string, Record>, key: string, now: int) {
    key in records && now <= records[key].until
  }

  function WaitAt(records: map<string, Record>, key: string, now: int): int {
    if LockedAt(records, key, now) then records[key].until - now else 0
  }

  /** Attempts in time order, all after the zero time by more than a window. */
  ghost predicate Chronological(history: seq<Attempt>, now: int) {
    && (forall i :: 0 <= i < |history| ==> LOCKOUT_WINDOW <= history[i].at <= now)
    && forall i, j :: 0 <= i < j < |history| ==> history[i].at <= history[j].at
  }

  /** Failures of a key since its last success that are no older than `from`. */
  function FailuresSince(history: seq<Attempt>, key: string, from: int): nat {
    if history == [] then 0
    else
      var a := history[|history| - 1];
      var before := FailuresSince(history[..|history| - 1], key, from);
      if a.key != key then before
      else if a.Succeeded? then 0
      else if a.at >= from then before + 1
      else before
  }

  // ---- what records mean ----

  /** A record's lock never outlives its window, and stands on real failures. */
  ghost predicate Sound(r: Record, history: seq<Attempt>, key: string, now: int) {
    && 0 <= r.failures < MAX_FAILED_ATTEMPTS
    && r.first <= now && r.until <= r.first + LOCKOUT_DURATION
    && FailuresSince(history, key, r.first) >= r.failures
    && (r.until == NEVER || (r.until > LOCKOUT_WINDOW &&
          FailuresSince(history, key, r.until - LOCKOUT_DURATION - LOCKOUT_WINDOW) >= MAX_FAILED_ATTEMPTS))
  }

  lemma {:induction false} FailuresMonotone(history: seq<Attempt>, key: string, from: int, later: int)
    requires from <= later
    ensures FailuresSince(history, key, from) >= FailuresSince(history, key, later)
  {
    if history != [] {
      FailuresMonotone(history[..|history| - 1], key, from, later);
    }
  }

  lemma {:induction false} ReplaySound(history: seq<Attempt>, now: int)
    requires Chronological(history, now)
    ensures forall key :: key in Replay(history) ==> Sound(Replay(history)[key], history, key, now)
  {
    if history != [] {
      var before, a := history[..|history| - 1], history[|history| - 1];
      ReplaySound(before, a.at);
      forall key | key in Replay(history) ensures Sound(Replay(history)[key], history, key, now) {
        if key in Replay(before) {
          var r := Replay(before)[key];
          assert Sound(r, before, key, a.at);
          if a == Failed(key, a.at) && !Expired(r, a.at) {
            FailuresMonotone(before, key, a.at - LOCKOUT_WINDOW, r.first);
          }
        }
      }
    }
  }

  /** Whoever is locked out has failed at least five times since the last success, within one window of the lock. */
  lemma LockedMeansFiveFailures(history: seq<Attempt>, key: string, now: int)
    requires Chronological(history, now) && LOCKOUT_WINDOW <= now && LockedAt(Replay(history), key, now)
    ensures FailuresSince(history, key, Replay(history)[key].until - 300 - 900) >= 5
  {
    ReplaySound(history, now);
    assert Sound(Replay(history)[key], history, key, now);
  }

  /** A failure never shortens a live lockout, its own or another's. */
  lemma FailureNeverShortens(history: seq<Attempt>, key: string, other: string, now: int)
    requires Chronological(history, now) && LOCKOUT_WINDOW <= now && LockedAt(Replay(history), other, now)
    ensures var after := Replay(history + [Failed(key, now)]);
      other in after && after[other].until >= Replay(history)[other].until
  {
    ReplaySound(history, now);
    assert Sound(Replay(history)[other], history, other, now);
    assert (history + [Failed(key, now)])[..|history|] == history;
  }

  function FailRun(records: map<string, Record>, key: string, times: seq<int>): map<string, Record> {
    if times == [] then records else FailOn(FailRun(records, key, times[..|times| - 1]), key, times[|times| - 1])
  }

  lemma {:induction false} CountingUp(records: map<string, Record>, key: string, times: seq<int>)
    requires key !in records && 0 < |times| < MAX_FAILED_ATTEMPTS
    requires forall i :: 0 <= i < |times| ==> times[i] - times[0] <= LOCKOUT_WINDOW
    ensures var after := FailRun(records, key, times);
      key in after && after[key] == Record(|times|, times[0], NEVER)
  {
    if |times| == 1 {
      assert times[..0] == [];
    } else {
      CountingUp(records, key, times[..|times| - 1]);
    }
  }

  /** From a clean slate, five failures within a window lock at once, for exactly the lockout duration. */
  lemma FiveFailuresLock(records: map<string, Record>, key: string, times: seq<int>, now: int)
    requires key !in records && |times| == 5 && 900 <= times[4] <= now
    requires forall i :: 0 <= i < |times| ==> times[i] - times[0] <= 900
    ensures LockedAt(FailRun(records, key, times), key, now) <==> now <= times[4] + 300
    ensures forall k :: 0 < k < 5 ==> !LockedAt(FailRun(records, key, times[..k]), key, times[4])
  {
    CountingUp(records, key, times[..4]);
    forall k | 0 < k < 5 ensures !LockedAt(FailRun(records, key, times[..k]), key, times[4]) {
      CountingUp(records, key, times[..k]);
    }
  }

  /** A failure more than a window after the first one counts as the first again, however many came between. */
  lemma LateFailureStartsOver(records: map<string, Record>, key: string, now: int, later: int)
    requires key in records && now - records[key].first > 900 && later >= now
    ensures var after := FailOn(records, key, now);
      after[key] == Record(1, now, 0) && (now > 0 ==> !LockedAt(after, key, later))
  {}

  /** A success wipes the slate. */
  lemma SuccessStartsOver(records: map<string, Record>, key: string, at: int)
    ensures key !in Apply(records, Succeeded(key, at))
    ensures forall other :: other != key && other in records ==>
      other in Apply(records, Succeeded(key, at)) && Apply(records, Succeeded(key, at))[other] == records[other]
  {}

  /** The wait announced is exact: barred to its last second, and no longer. */
  lemma WaitIsExact(records: map<string, Record>, key: string, now: int)
    requires LockedAt(records, key, now)
    ensures WaitAt(records, key, now) >= 0
    ensures LockedAt(records, key, now + WaitAt(records, key, now)) && !LockedAt(records, key, now + WaitAt(records, key, now) + 1)
  {}

  // ---- sweeping ----

  predicate Stale(r: Record, now: int) {
    now > r.until && now - r.first > LOCKOUT_WINDOW
  }

  /** What a sweep leaves. */
  function Fresh(records: map<string, Record>, now: int): map<string, Record> {
    map key | key in records && !Stale(records[key], now) :: records[key]
  }

  /** A sweep keeps exactly the records that still bar somebody or still count. */
  lemma SweepKeeps(records: map<string, Record>, now: int, key: string)
    ensures key in Fresh(records, now) <==> key in records && (now <= records[key].until || now - records[key].first <= 900)
    ensures key in Fresh(records, now) ==> Fresh(records, now)[key] == records[key]
  {}

  /** `kept` lacks at most records of `all` that are stale by now. */
  ghost predicate Covers(kept: map<string, Record>, all: map<string, Record>, now: int) {
    && (forall key :: key in kept ==> key in all && kept[key] == all[key])
    && (forall key :: key in all && key !in kept ==> Stale(all[key], now))
  }

  /** A covering table stays one, whatever happens to both at once, and answers alike. */
  lemma CoversStep(kept: map<string, Record>, all: map<string, Record>, since: int, a: Attempt)
    requires Covers(kept, all, since) && since <= a.at
    ensures Covers(Apply(kept, a), Apply(all, a), a.at)
  {}

  lemma CoversAnswers(kept: map<string, Record>, all: map<string, Record>, since: int, key: string, now: int)
    requires Covers(kept, all, since) && since <= now
    ensures LockedAt(kept, key, now) <==> LockedAt(all, key, now)
    ensures WaitAt(kept, key, now) == WaitAt(all, key, now)
  {}

  lemma HistorySnoc(history: seq<Attempt>, a: Attempt, clock: int)
    requires Chronological(history, clock) && LOCKOUT_WINDOW <= clock <= a.at
    ensures Replay(history + [a]) == Apply(Replay(history), a)
    ensures Chronological(history + [a], a.at)
  {
    assert (history + [a])[..|history|] == history;
  }

  lemma DropStale(kept: map<string, Record>, all: map<string, Record>, key: string, now: int)
    requires Covers(kept, all, now) && key in kept && Stale(kept[key], now)
    ensures Covers(kept - {key}, all, now)
  {}

  lemma CoversLater(kept: map<string, Record>, all: map<string, Record>, since: int, now: int)
    requires Covers(kept, all, since) && since <= now
    ensures Covers(kept, all, now)
  {}

  class LoginThrottle {
    var records: map<string, Record>
    var swept: int
    ghost var history: seq<Attempt>
    ghost var clock: int

    ghost predicate Valid()
      reads this
    {
      Chronological(history, clock) && LOCKOUT_WINDOW <= clock && Covers(records, Replay(history), clock)
    }

    constructor (ghost now: int)
      requires LOCKOUT_WINDOW <= now
      ensures Valid() && history == [] && clock == now
    {
      records, swept, history, clock := map[], NEVER, [], now;
    }

    /** Drops exactly the records nobody is counting any more, at most once a window. */
    method Sweep(now: int)
      requires Valid() && now >= clock
      modifies this`records, this`swept, this`clock
      ensures Valid() && clock == now
      ensures now - old(swept) < LOCKOUT_WINDOW ==> records == old(records) && swept == old(swept)
      ensures now - old(swept) >= LOCKOUT_WINDOW ==> records == Fresh(old(records), now) && swept == now
    {
      CoversLater(records, Replay(history), clock, now);
      clock := now;
      if now - swept < LOCKOUT_WINDOW {
        return;
      }
      swept := now;
      var keys := records.Keys;
      while keys != {}
        invariant clock == now && swept == now && Covers(records, Replay(history), now)
        invariant keys <= old(records).Keys && records.Keys <= old(records).Keys
        invariant forall k :: k in old(records) ==> (k in records <==> k in keys || !Stale(old(records)[k], now))
        invariant forall k :: k in records ==> records[k] == old(records)[k]
        decreases keys
      {
        var key :| key in keys;
        keys := keys - {key};
        if key in records && now > records[key].until && now - records[key].first > LOCKOUT_WINDOW {
          DropStale(records, Replay(history), key, now);
          records := records - {key};
        }
      }
      assert records == Fresh(old(records), now);
    }

    /** Whether an identity is barred and for how long: as if nothing had ever been swept. */
    method Locked(key: string, now: int) returns (barred: bool, wait: int)
      requires Valid() && now >= clock
      modifies this`records, this`swept, this`clock
      ensures Valid() && clock == now
      ensures barred == LockedAt(Replay(history), key, now) && wait == WaitAt(Replay(history), key, now)
    {
      Sweep(now);
      CoversAnswers(records, Replay(history), now, key, now);
      if key !in records || now > records[key].until {
        return false, 0;
      }
      return true, records[key].until - now;
    }

    method Fail(key: string, now: int)
      requires Valid() && now >= clock
      modifies this`records, this`history, this`clock
      ensures Valid() && clock == now && history == old(history) + [Failed(key, now)]
    {
      CoversStep(records, Replay(history), clock, Failed(key, now));
      HistorySnoc(history, Failed(key, now), clock);
      history := history + [Failed(key, now)];
      clock := now;
      if key !in records || now - records[key].first > LOCKOUT_WINDOW {
        records := records[key := Record(1, now, NEVER)];
        return;
      }
      var r := records[key].(failures := records[key].failures + 1);
      if r.failures >= MAX_FAILED_ATTEMPTS {
        r := Record(0, now, now + LOCKOUT_DURATION);
      }
      records := records[key := r];
    }

    method Succeed(key: string, ghost now: int)
      requires Valid() && now >= clock
      modifies this`records, this`history, this`clock
      ensures Valid() && clock == now && history == old(history) + [Succeeded(key, now)]
      ensures key !in Replay(history)
    {
      CoversStep(records, Replay(history), clock, Succeeded(key, now));
      HistorySnoc(history, Succeeded(key, now), clock);
      history := history + [Succeeded(key, now)];
      clock := now;
      records := records - {key};
    }
  }
}
