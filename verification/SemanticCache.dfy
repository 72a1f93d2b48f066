/**
 The semantic cache over an in-memory table. Expired rows are pruned now and then; what a lookup
 answers is decided by every row ever stored, as if none had been deleted.
 */
module SemanticCaching {
  import opened Sequences
  import opened Text

  const PRUNE_INTERVAL := 600

  /** Go's zero time, at which nothing has been pruned yet. */
  const NEVER := 0

  type Vector = seq<real>

  /** How alike two embeddings are; the nearer neighbour is the more alike. */
  type Similarity = (Vector, Vector) -> real

  datatype CacheRow = CacheRow(embedding: Vector, model: string, response: string, expires: Option<int>)

  datatype Embedding = Embedded(v: Vector) | NoKey | EmbedFailed

  datatype Found = Hit(response: string) | Miss | Disabled | LookupFailed

  datatype Kept = Stored | Skipped | StoreDisabled | StoreFailed

  predicate Alive(r: CacheRow, now: int) {
    r.expires.None? || r.expires.value > now
  }

  function AliveAt(now: int): CacheRow -> bool {
    (r: CacheRow) => Alive(r, now)
  }

  function VisibleTo(model: string, now: int): CacheRow -> bool {
    (r: CacheRow) => r.model == model && Alive(r, now)
  }

  /** The rows a lookup may answer from. */
  function Visible(rows: seq<CacheRow>, model: string, now: int): seq<CacheRow> {
    Filter(VisibleTo(model, now), rows)
  }

  /** The most similar row, the earliest of equals. */
  function Nearest(rows: seq<CacheRow>, v: Vector, sim: Similarity): CacheRow
    requires rows != []
  {
    if |rows| == 1 then rows[0]
    else
      var best, last := Nearest(rows[..|rows| - 1], v, sim), rows[|rows| - 1];
      if sim(last.embedding, v) > sim(best.embedding, v) then last else best
  }

  function AnswerFrom(rows: seq<CacheRow>, model: string, v: Vector, now: int, sim: Similarity, threshold: real): Found {
    var seen := Visible(rows, model, now);
    if seen == [] then Miss
    else
      var best := Nearest(seen, v, sim);
      if sim(best.embedding, v) < threshold then Miss else Hit(best.response)
  }

  // ---- what an answer means ----

  lemma {:induction false} NearestIsNearest(rows: seq<CacheRow>, v: Vector, sim: Similarity)
    requires rows != []
    ensures Nearest(rows, v, sim) in rows
    ensures forall r :: r in rows ==> sim(r.embedding, v) <= sim(Nearest(rows, v, sim).embedding, v)
  {
    if |rows| > 1 {
      NearestIsNearest(rows[..|rows| - 1], v, sim);
      assert rows == rows[..|rows| - 1] + [rows[|rows| - 1]];
    }
  }

  /** Some live row of this model reaches the threshold. */
  ghost predicate Answerable(rows: seq<CacheRow>, model: string, v: Vector, now: int, sim: Similarity, threshold: real) {
    exists r :: r in rows && r.model == model && (r.expires.Some? ==> now < r.expires.value) && sim(r.embedding, v) >= threshold
  }

  /** A lookup hits exactly when some live row of the model is near enough, and then answers from a nearest one. */
  lemma HitsExactly(rows: seq<CacheRow>, model: string, v: Vector, now: int, sim: Similarity, threshold: real)
    ensures AnswerFrom(rows, model, v, now, sim, threshold).Hit? <==> Answerable(rows, model, v, now, sim, threshold)
    ensures AnswerFrom(rows, model, v, now, sim, threshold).Hit? ==>
      exists r :: r in rows && AnswersBest(r, rows, model, v, now, sim, threshold)
  {
    var seen := Visible(rows, model, now);
    if Answerable(rows, model, v, now, sim, threshold) {
      var r :| r in rows && r.model == model && (r.expires.Some? ==> now < r.expires.value) && sim(r.embedding, v) >= threshold;
      FilterMember(VisibleTo(model, now), rows, r);
    }
    if seen != [] {
      NearestIsNearest(seen, v, sim);
      var best := Nearest(seen, v, sim);
      FilterMember(VisibleTo(model, now), rows, best);
      forall r | r in rows && r.model == model && Alive(r, now) ensures sim(r.embedding, v) <= sim(best.embedding, v) {
        FilterMember(VisibleTo(model, now), rows, r);
      }
      assert AnswerFrom(rows, model, v, now, sim, threshold).Hit? ==> AnswersBest(best, rows, model, v, now, sim, threshold);
    }
  }

  /** The row is live, of the model, near enough, and no live row of the model is nearer; its response is the answer. */
  ghost predicate AnswersBest(r: CacheRow, rows: seq<CacheRow>, model: string, v: Vector, now: int, sim: Similarity, threshold: real) {
    && r.model == model && (r.expires.Some? ==> now < r.expires.value) && sim(r.embedding, v) >= threshold
    && AnswerFrom(rows, model, v, now, sim, threshold) == Hit(r.response)
    && forall q :: q in rows && q.model == model && (q.expires.Some? ==> now < q.expires.value) ==> sim(q.embedding, v) <= sim(r.embedding, v)
  }

  // ---- pruning ----

  /** From `now` on, the two tables show the same rows. */
  ghost predicate Alike(rows: seq<CacheRow>, all: seq<CacheRow>, now: int) {
    forall t :: t >= now ==> Filter(AliveAt(t), rows) == Filter(AliveAt(t), all)
  }

  lemma {:induction false} VisibleOfAlive(rows: seq<CacheRow>, model: string, now: int)
    ensures Visible(rows, model, now) == Filter(VisibleTo(model, now), Filter(AliveAt(now), rows))
  {
    FilterTwice(VisibleTo(model, now), AliveAt(now), VisibleTo(model, now), rows);
  }

  /** Tables alike from some time on answer every later lookup alike. */
  lemma AlikeAnswers(rows: seq<CacheRow>, all: seq<CacheRow>, since: int, model: string, v: Vector, now: int, sim: Similarity, threshold: real)
    requires Alike(rows, all, since) && since <= now
    ensures AnswerFrom(rows, model, v, now, sim, threshold) == AnswerFrom(all, model, v, now, sim, threshold)
  {
    VisibleOfAlive(rows, model, now);
    VisibleOfAlive(all, model, now);
  }

  lemma PruningAlike(rows: seq<CacheRow>, all: seq<CacheRow>, since: int, now: int)
    requires Alike(rows, all, since) && since <= now
    ensures Alike(Filter(AliveAt(now), rows), all, now)
  {
    forall t | t >= now ensures Filter(AliveAt(t), Filter(AliveAt(now), rows)) == Filter(AliveAt(t), all) {
      FilterTwice(AliveAt(t), AliveAt(now), AliveAt(t), rows);
    }
  }

  lemma StoringAlike(rows: seq<CacheRow>, all: seq<CacheRow>, since: int, r: CacheRow)
    requires Alike(rows, all, since)
    ensures Alike(rows + [r], all + [r], since)
  {
    forall t | t >= since ensures Filter(AliveAt(t), rows + [r]) == Filter(AliveAt(t), all + [r]) {
      FilterSnoc(AliveAt(t), rows, r);
      FilterSnoc(AliveAt(t), all, r);
    }
  }

  lemma VisibleSnoc(rows: seq<CacheRow>, model: string, now: int, i: nat)
    requires i < |rows|
    ensures Visible(rows[..i + 1], model, now) ==
      if rows[i].model == model && Alive(rows[i], now) then Visible(rows[..i], model, now) + [rows[i]] else Visible(rows[..i], model, now)
  {
    assert rows[..i + 1] == rows[..i] + [rows[i]];
    FilterSnoc(VisibleTo(model, now), rows[..i], rows[i]);
  }

  class SemanticCache {
    const threshold: real
    const ttl: int
    const enabled: bool
    const sim: Similarity
    var rows: seq<CacheRow>
    var hits: nat
    var misses: nat
    var errs: nat
    var lastPrune: int
    ghost var stored: seq<CacheRow>
    ghost var clock: int

    ghost predicate Valid()
      reads this
    {
      Alike(rows, stored, clock)
    }

    /** A cache without an embedder, a table or a usable threshold never answers. */
    constructor (hasEmbedder: bool, hasTable: bool, threshold: real, ttl: int, sim: Similarity, ghost now: int)
      ensures Valid() && stored == [] && clock == now && hits == misses == errs == 0
      ensures enabled <==> hasEmbedder && hasTable && 0.0 < threshold <= 1.0
      ensures this.threshold == threshold && this.ttl == ttl && this.sim == sim
    {
      this.threshold, this.ttl, this.sim := threshold, ttl, sim;
      enabled := hasEmbedder && hasTable && !(threshold <= 0.0 || threshold > 1.0);
      rows, hits, misses, errs, lastPrune := [], 0, 0, 0, NEVER;
      stored, clock := [], now;
    }

    /** What a lookup answers depends on the rows ever stored, never on what was pruned; each counts once. */
    method Lookup(model: string, embedding: Embedding, queryFails: bool, now: int) returns (found: Found)
      requires Valid() && now >= clock
      modifies this`hits, this`misses, this`errs, this`clock
      ensures Valid() && clock == now
      ensures !enabled <==> found == Disabled
      ensures enabled && embedding.NoKey? ==> found == Miss
      ensures enabled && (embedding.EmbedFailed? || (embedding.Embedded? && queryFails)) ==> found == LookupFailed
      ensures enabled && embedding.Embedded? && !queryFails ==> found == AnswerFrom(stored, model, embedding.v, now, sim, threshold)
      ensures hits == old(hits) + (if found.Hit? then 1 else 0)
      ensures misses == old(misses) + (if found.Miss? then 1 else 0)
      ensures errs == old(errs) + (if found.LookupFailed? then 1 else 0)
    {
      ghost var since := clock;
      clock := now;
      if !enabled {
        return Disabled;
      }
      if embedding.NoKey? {
        misses := misses + 1;
        return Miss;
      }
      if embedding.EmbedFailed? || queryFails {
        errs := errs + 1;
        return LookupFailed;
      }
      AlikeAnswers(rows, stored, since, model, embedding.v, now, sim, threshold);
      var best := QueryNearest(model, embedding.v, now);
      if best.None? || sim(best.value.embedding, embedding.v) < threshold {
        misses := misses + 1;
        return Miss;
      }
      hits := hits + 1;
      return Hit(best.value.response);
    }

    /** The query: the live row of this model nearest to the vector, if there is one. */
    method QueryNearest(model: string, v: Vector, now: int) returns (best: Option<CacheRow>)
      ensures best == if Visible(rows, model, now) == [] then None else Some(Nearest(Visible(rows, model, now), v, sim))
    {
      best := None;
      for i := 0 to |rows|
        invariant best == if Visible(rows[..i], model, now) == [] then None else Some(Nearest(Visible(rows[..i], model, now), v, sim))
      {
        VisibleSnoc(rows, model, now, i);
        if rows[i].model == model && Alive(rows[i], now) {
          SnocParts(Visible(rows[..i], model, now), rows[i]);
          if best.None? || sim(rows[i].embedding, v) > sim(best.value.embedding, v) {
            best := Some(rows[i]);
          }
        }
      }
      assert rows[..|rows|] == rows;
    }

    /** Saves a completion unless it is blank; every store may prune. */
    method Store(model: string, response: string, embedding: Embedding, insertFails: bool, pruneFails: bool, now: int) returns (kept: Kept)
      requires Valid() && now >= clock
      modifies this`rows, this`errs, this`lastPrune, this`stored, this`clock
      ensures Valid() && clock == now
      ensures kept == if !enabled then StoreDisabled
        else if Trim(response) == "" || embedding.NoKey? then Skipped
        else if embedding.EmbedFailed? || insertFails then StoreFailed
        else Stored
      ensures errs == old(errs) + (if kept == StoreFailed then 1 else 0)
      ensures stored == if kept == Stored then
        old(stored) + [CacheRow(embedding.v, model, response, if ttl > 0 then Some(now + ttl) else None)] else old(stored)
    {
      ghost var since := clock;
      clock := now;
      if !enabled {
        return StoreDisabled;
      }
      if Trim(response) == "" || embedding.NoKey? {
        return Skipped;
      }
      if embedding.EmbedFailed? || insertFails {
        errs := errs + 1;
        return StoreFailed;
      }
      var expires := None;
      if ttl > 0 {
        expires := Some(now + ttl);
      }
      var row := CacheRow(embedding.v, model, response, expires);
      StoringAlike(rows, stored, since, row);
      rows, stored := rows + [row], stored + [row];
      MaybePrune(pruneFails, now);
      return Stored;
    }

    /** Deletes what has expired, at most once an interval; nobody can tell from a lookup. */
    method MaybePrune(pruneFails: bool, now: int)
      requires Alike(rows, stored, now)
      modifies this`rows, this`lastPrune
      ensures Alike(rows, stored, now)
      ensures rows == if now - old(lastPrune) < 600 || pruneFails then old(rows) else Filter(AliveAt(now), old(rows))
      ensures lastPrune == if now - old(lastPrune) < 600 then old(lastPrune) else now
    {
      if now - lastPrune < PRUNE_INTERVAL {
        return;
      }
      lastPrune := now;
      if !pruneFails {
        PruningAlike(rows, stored, now, now);
        rows := Filter(AliveAt(now), rows);
      }
    }
  }
}
