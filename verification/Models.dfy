/** The records routing works on: models at providers, and what is known of them. */
module Models {
  import opened Sequences

  type Task = string

  /** What this deployment's own traffic says about a model. */
  datatype Reliability = Reliability(attempts: int, successes: int, medianLatencyMs: int)

  datatype Candidate = Candidate(provider: string, model: string)

  /** Prices are dollars per million tokens; `priceKnown` separates free from unpublished. */
  datatype Profile = Profile(
    model: string,
    provider: string,
    latencyMs: int,
    inputCost: real,
    outputCost: real,
    tasks: seq<Task>,
    observed: int,
    priceKnown: bool,
    reliability: Reliability)
  {
    predicate Free() {
      priceKnown && inputCost == 0.0 && outputCost == 0.0
    }

    function Place(): Candidate {
      Candidate(provider, model)
    }

    function EffectiveLatency(): int {
      if observed > 0 then observed else latencyMs
    }

    function BlendedCost(): real {
      0.75 * inputCost + 0.25 * outputCost
    }
  }

  function PlaceOf(p: Profile): Candidate { p.Place() }

  /** A provider counts as keyed when a non-empty key is stored for it. */
  predicate Keyed(keys: map<string, string>, provider: string) {
    provider in keys && keys[provider] != ""
  }

  /** The string a model at a provider is filed under in the bench, the tags and the probes. */
  function FileKey(c: Candidate): string {
    c.provider + "/" + c.model
  }

  /** One provider's name, with a slash, opens the other's: the only way two providers' keys can meet. */
  predicate Clashing(p: string, q: string) {
    p + "/" <= q || q + "/" <= p
  }

  lemma ShorterOpens(a: Candidate, b: Candidate)
    requires FileKey(a) == FileKey(b) && |a.provider| < |b.provider|
    ensures a.provider + "/" <= b.provider
  {
    var k, n := FileKey(a), |a.provider| + 1;
    assert a.provider + "/" == k[..n] == b.provider[..n];
  }

  /** Keys of providers that do not clash tell models apart. */
  lemma FileKeyTells(a: Candidate, b: Candidate)
    requires !Clashing(a.provider, b.provider) && FileKey(a) == FileKey(b)
    ensures a == b
  {
    var k := FileKey(a);
    if |a.provider| < |b.provider| {
      ShorterOpens(a, b);
    } else if |b.provider| < |a.provider| {
      ShorterOpens(b, a);
    } else {
      assert a.provider == k[..|a.provider|] == b.provider;
      assert a.model == k[|a.provider| + 1..] == b.model;
    }
  }

  /** Some two different models at these providers are filed under one key. */
  ghost predicate KeysMeet(p: string, q: string) {
    exists x: string, y: string :: Candidate(p, x) != Candidate(q, y) && FileKey(Candidate(p, x)) == FileKey(Candidate(q, y))
  }

  lemma ClashMeets(p: string, q: string)
    requires p + "/" <= q
    ensures KeysMeet(p, q)
  {
    var x := q[|p| + 1..] + "/" + "m";
    assert q == p + "/" + q[|p| + 1..];
    assert FileKey(Candidate(p, x)) == FileKey(Candidate(q, "m"));
    assert |p| < |q|;
    assert Candidate(p, x) != Candidate(q, "m");
  }

  /**
   Filing is unambiguous for a set of providers exactly when no provider's name followed by a slash
   begins another's.
   */
  lemma FilingUnambiguous(names: set<string>)
    ensures (forall p, q :: p in names && q in names ==> !KeysMeet(p, q))
      <==> (forall p, q :: p in names && q in names ==> !(p + "/" <= q))
  {
    forall p, q | p in names && q in names && p + "/" <= q ensures KeysMeet(p, q) {
      ClashMeets(p, q);
    }
    forall p, q | p in names && q in names && KeysMeet(p, q) ensures Clashing(p, q) {
      var x: string, y: string :| Candidate(p, x) != Candidate(q, y) && FileKey(Candidate(p, x)) == FileKey(Candidate(q, y));
      if !Clashing(p, q) {
        FileKeyTells(Candidate(p, x), Candidate(q, y));
        assert false;
      }
    }
  }
}
