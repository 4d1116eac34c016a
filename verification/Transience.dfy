// Which failures say nothing about the event: the walk through an error's causes.
// Source: apps/api/src/events/relay.ts.

module Transience {
  import opened LogOrder

  /** Postgres and Prisma codes of deadlocks, conflicts, timeouts and lost connections. */
  const TRANSIENT: set<string> := {"40P01", "40001", "55P03", "57014", "08006", "P2028", "P2034", "P1001", "P1017"}

  const MAX_DEPTH: nat := 4

  /**
   * A thrown value as the walk sees it: whether it is a `TransientFailure`, the code
   * it carries if it is an object with one, and what its cause, meta, driver and
   * original error are. Causes that go round in a circle are unrolled.
   */
  datatype Thrown = Thrown(transientFailure: bool, isObject: bool, code: Option<string>, causes: seq<Thrown>)

  predicate IsTransient(e: Thrown, depth: nat)
    requires depth <= MAX_DEPTH + 1
    decreases MAX_DEPTH + 1 - depth
  {
    if e.transientFailure then true
    else if !e.isObject || depth > MAX_DEPTH then false
    else if e.code.Some? && e.code.value in TRANSIENT then true
    else exists c :: c in e.causes && IsTransient(c, depth + 1)
  }

  /** A chain of causes, from an error to one of its causes and on. */
  ghost predicate Chain(e: Thrown, chain: seq<Thrown>) {
    chain != [] && chain[0] == e &&
    forall i :: 0 <= i < |chain| - 1 ==> Linked(chain[i], chain[i + 1])
  }

  ghost predicate Linked(e: Thrown, cause: Thrown) {
    e.isObject && cause in e.causes
  }

  /** What ends the walk: the consumer's own word for it, or a known code on an object not too deep. */
  ghost predicate Speaks(e: Thrown, depth: nat) {
    e.transientFailure || (e.isObject && depth <= MAX_DEPTH && e.code.Some? && e.code.value in TRANSIENT)
  }

  ghost predicate Reached(e: Thrown, chain: seq<Thrown>, depth: nat) {
    Chain(e, chain) && depth + |chain| - 1 <= MAX_DEPTH + 1 && Speaks(chain[|chain| - 1], depth + |chain| - 1)
  }

  lemma ChainGrows(e: Thrown, c: Thrown, chain: seq<Thrown>)
    requires Linked(e, c) && Chain(c, chain)
    ensures Chain(e, [e] + chain)
  {
    var longer := [e] + chain;
    forall i | 0 <= i < |longer| - 1 ensures Linked(longer[i], longer[i + 1]) {
      if i > 0 { assert Linked(chain[i - 1], chain[i]); }
    }
  }

  lemma ChainShrinks(e: Thrown, chain: seq<Thrown>)
    requires Chain(e, chain) && |chain| > 1
    ensures Linked(e, chain[1]) && Chain(chain[1], chain[1..])
  {
    assert Linked(chain[0], chain[1]);
    forall i | 0 <= i < |chain[1..]| - 1 ensures Linked(chain[1..][i], chain[1..][i + 1]) {
      assert Linked(chain[i + 1], chain[i + 2]);
    }
  }

  /**
   * Transient exactly when some chain of causes leads to an error that says so: a
   * known code at most four causes down, or a `TransientFailure` at most five.
   */
  lemma {:induction false} TransientIff(e: Thrown, depth: nat)
    requires depth <= MAX_DEPTH + 1
    ensures IsTransient(e, depth) <==> exists chain :: Reached(e, chain, depth)
    decreases MAX_DEPTH + 1 - depth
  {
    if Speaks(e, depth) {
      assert Reached(e, [e], depth);
    } else {
      if depth <= MAX_DEPTH {
        var next := depth + 1;
        forall c | c in e.causes ensures IsTransient(c, next) <==> exists chain :: Reached(c, chain, next) {
          TransientIff(c, depth + 1);
        }
      }
      if IsTransient(e, depth) {
        var c :| c in e.causes && IsTransient(c, depth + 1);
        var chain :| Reached(c, chain, depth + 1);
        ChainGrows(e, c, chain);
        assert Reached(e, [e] + chain, depth);
      }
      forall chain | Reached(e, chain, depth) ensures IsTransient(e, depth) {
        ChainShrinks(e, chain);
        assert Reached(chain[1], chain[1..], depth + 1);
      }
    }
  }
}
