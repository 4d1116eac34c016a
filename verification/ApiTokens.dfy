// The bearer path's caches: what stands in for the slow password hash, and why it
// always answers what the hash would.
// Source: apps/api/src/api-tokens/api-token-verifier.ts.

module InsertionOrder {
  /** Keys without one of them, the others in order. */
  function Without(keys: seq<string>, key: string): (rest: seq<string>)
    ensures forall k :: k in rest <==> k in keys && k != key
    ensures |rest| <= |keys| && (key in keys ==> |rest| < |keys|)
    ensures Distinct(keys) ==> Distinct(rest)
  {
    if keys == [] then []
    else if keys[0] == key then
      DistinctTail(keys);
      Without(keys[1..], key)
    else
      DistinctTail(keys);
      var rest := Without(keys[1..], key);
      assert keys[0] in keys[1..] || keys[0] !in rest;
      [keys[0]] + rest
  }

  predicate Distinct(keys: seq<string>) {
    forall i, j :: 0 <= i < j < |keys| ==> keys[i] != keys[j]
  }

  lemma DistinctTail(keys: seq<string>)
    requires keys != []
    ensures Distinct(keys) ==> Distinct(keys[1..]) && keys[0] !in keys[1..]
  {
  }

  lemma {:induction false} WithoutAbsent(keys: seq<string>, key: string)
    requires key !in keys
    ensures Without(keys, key) == keys
  {
    if keys != [] { WithoutAbsent(keys[1..], key); }
  }

  lemma WithoutFirst(keys: seq<string>)
    requires keys != [] && Distinct(keys)
    ensures Without(keys, keys[0]) == keys[1..]
  {
    DistinctTail(keys);
    WithoutAbsent(keys[1..], keys[0]);
  }

  /** A map that remembers the order its keys were first put in. */
  datatype Ordered<V> = Ordered(keys: seq<string>, values: map<string, V>)
  {
    ghost predicate Valid() {
      Distinct(keys) && forall k :: k in keys <==> k in values
    }

    /** Putting an existing key again keeps its place. */
    function Put(key: string, value: V): (r: Ordered<V>)
      requires Valid()
      ensures r.Valid()
      ensures |r.keys| <= |keys| + if key in values then 0 else 1
    {
      Ordered(if key in values then keys else keys + [key], values[key := value])
    }

    function Delete(key: string): (r: Ordered<V>)
      requires Valid()
      ensures r.Valid() && r.values == values - {key}
      ensures |r.keys| <= |keys| && (key in values ==> |r.keys| < |keys|)
    {
      Ordered(Without(keys, key), values - {key})
    }

    /** The key first put in goes when the map is full, whichever key is coming. */
    function Evicted(limit: nat): (r: Ordered<V>)
      requires Valid() && limit > 0
      ensures r.Valid() && r.values.Keys <= values.Keys && forall k :: k in r.values ==> r.values[k] == values[k]
      ensures |keys| <= limit ==> |r.keys| < limit
      ensures r.keys == if |keys| >= limit then keys[1..] else keys
      ensures forall k :: k in values && (|keys| < limit || k != keys[0]) ==> k in r.values
    {
      if |keys| >= limit then
        DistinctTail(keys);
        WithoutFirst(keys);
        Delete(keys[0])
      else this
    }
  }
}

module ApiTokens {
  import opened LogOrder
  import opened InsertionOrder

  const CACHE_MS: nat := 300_000
  const CACHE_LIMIT: nat := 1_000
  const REJECTED_PER_PREFIX: nat := 64

  /** Argon2id against the token's stored hash, and SHA-256, both as functions of their inputs. */
  datatype Hashes = Hashes(matches: (string, string) -> bool, digest: string -> string)

  ghost predicate Injective(h: Hashes) {
    forall s, s' :: h.digest(s) == h.digest(s') ==> s == s'
  }

  datatype Known = Known(digest: string, until: int)

  /** A slow check that came out right: whose token, which secret, and the clock its request read. */
  datatype Success = Success(prefix: string, secret: string, at: int)

  /** Every remembered yes is a real success, good for five minutes from it. */
  ghost predicate KnownInv(h: Hashes, verified: Ordered<Known>, successes: set<Success>) {
    forall p :: p in verified.values ==> exists s :: s in successes && Stands(h, p, verified.values[p], s)
  }

  predicate Stands(h: Hashes, p: string, known: Known, s: Success) {
    s.prefix == p && h.digest(s.secret) == known.digest && known.until == s.at + CACHE_MS
  }

  ghost predicate SuccessInv(h: Hashes, successes: set<Success>) {
    forall s :: s in successes ==> h.matches(s.prefix, s.secret)
  }

  /** Every remembered no is the digest of nothing but wrong secrets. */
  ghost predicate RejectedInv(h: Hashes, rejected: Ordered<seq<string>>) {
    forall p, s :: p in rejected.values && h.digest(s) in rejected.values[p] ==> !h.matches(p, s)
  }

  ghost predicate Bounded(verified: Ordered<Known>, rejected: Ordered<seq<string>>) {
    && |verified.keys| <= CACHE_LIMIT && |rejected.keys| <= CACHE_LIMIT
    && (forall p :: p in rejected.values ==> |rejected.values[p]| <= REJECTED_PER_PREFIX && Distinct(rejected.values[p]))
  }

  ghost predicate Sound(h: Hashes, verified: Ordered<Known>, rejected: Ordered<seq<string>>, successes: set<Success>) {
    && verified.Valid() && rejected.Valid()
    && KnownInv(h, verified, successes) && SuccessInv(h, successes) && RejectedInv(h, rejected)
    && Bounded(verified, rejected)
  }

  /** `rememberRejected`: the oldest digest of a full set goes, and a known one keeps its place. */
  function Joined(seen: seq<string>, digest: string): (r: seq<string>)
    requires Distinct(seen) && |seen| <= REJECTED_PER_PREFIX
    ensures Distinct(r) && |r| <= REJECTED_PER_PREFIX
    ensures digest in r && forall d :: d in r ==> d == digest || d in seen
    ensures forall d :: d in seen && (|seen| < REJECTED_PER_PREFIX || d != seen[0]) ==> d in r
  {
    var kept := if |seen| >= REJECTED_PER_PREFIX then seen[1..] else seen;
    if digest in kept then kept else kept + [digest]
  }

  function RememberNo(rejected: Ordered<seq<string>>, prefix: string, digest: string): Ordered<seq<string>>
    requires rejected.Valid() && forall p :: p in rejected.values ==> Distinct(rejected.values[p]) && |rejected.values[p]| <= REJECTED_PER_PREFIX
  {
    var room := rejected.Evicted(CACHE_LIMIT);
    room.Put(prefix, Joined(if prefix in room.values then room.values[prefix] else [], digest))
  }

  /** The digests rejected for a prefix stay rejected, but for the oldest of a full set and all of a prefix that made room. */
  ghost predicate SeenStay(before: Ordered<seq<string>>, now: seq<string>, prefix: string) {
    prefix in before.values && !(|before.keys| >= CACHE_LIMIT && prefix == before.keys[0]) ==>
      forall d :: d in before.values[prefix] && (|before.values[prefix]| < REJECTED_PER_PREFIX || d != before.values[prefix][0]) ==> d in now
  }

  lemma NoEntered(rejected: Ordered<seq<string>>, prefix: string, digest: string)
    requires rejected.Valid() && forall p :: p in rejected.values ==> Distinct(rejected.values[p]) && |rejected.values[p]| <= REJECTED_PER_PREFIX
    ensures var after := RememberNo(rejected, prefix, digest);
            && prefix in after.values && digest in after.values[prefix]
            && Entered(rejected, after, prefix, after.values[prefix]) && SeenStay(rejected, after.values[prefix], prefix)
  {
    var room := rejected.Evicted(CACHE_LIMIT);
    EnteredNow(rejected, prefix, Joined(if prefix in room.values then room.values[prefix] else [], digest));
  }

  /** A wrong secret remembered is never another secret's no. */
  lemma NoStaysSound(h: Hashes, verified: Ordered<Known>, rejected: Ordered<seq<string>>, successes: set<Success>, prefix: string, secret: string)
    requires Injective(h) && Sound(h, verified, rejected, successes) && !h.matches(prefix, secret)
    ensures Sound(h, verified, RememberNo(rejected, prefix, h.digest(secret)), successes)
  {
    var after := RememberNo(rejected, prefix, h.digest(secret));
    forall p, s | p in after.values && h.digest(s) in after.values[p] ensures !h.matches(p, s) {
      if p == prefix && h.digest(s) == h.digest(secret) { assert s == secret; }
    }
  }

  lemma YesStaysSound(h: Hashes, verified: Ordered<Known>, rejected: Ordered<seq<string>>, successes: set<Success>,
                      prefix: string, secret: string, now: int)
    requires Sound(h, verified, rejected, successes) && h.matches(prefix, secret)
    ensures Sound(h, verified.Evicted(CACHE_LIMIT).Put(prefix, Known(h.digest(secret), now + CACHE_MS)), rejected.Delete(prefix),
                  successes + {Success(prefix, secret, now)})
  {
    var known, success := Known(h.digest(secret), now + CACHE_MS), Success(prefix, secret, now);
    var after := verified.Evicted(CACHE_LIMIT).Put(prefix, known);
    forall p | p in after.values ensures exists s :: s in successes + {success} && Stands(h, p, after.values[p], s) {
      if p == prefix {
        assert Stands(h, p, known, success);
      } else {
        assert p in verified.values && after.values[p] == verified.values[p];
        var s :| s in successes && Stands(h, p, verified.values[p], s);
        assert s in successes + {success};
      }
    }
  }

  /** A remembered digest that equals this secret's is this secret's, checked within the last five minutes. */
  lemma KnownIsRight(h: Hashes, verified: Ordered<Known>, successes: set<Success>, prefix: string, secret: string)
    requires Injective(h) && KnownInv(h, verified, successes) && SuccessInv(h, successes)
    requires prefix in verified.values && verified.values[prefix].digest == h.digest(secret)
    ensures h.matches(prefix, secret)
    ensures Success(prefix, secret, verified.values[prefix].until - CACHE_MS) in successes
  {
    var s :| s in successes && Stands(h, prefix, verified.values[prefix], s);
    assert s == Success(prefix, secret, verified.values[prefix].until - CACHE_MS);
  }

  /** How an answer was come by. */
  datatype How = Remembered(known: Known) | RememberedWrong | Hashed

  /** Both caches, as they stand when an await is over. */
  datatype Caches = Caches(verified: Ordered<Known>, rejected: Ordered<seq<string>>)

  /** `prefix` is remembered with this entry; the key first put in is gone if the map was full, and no other has moved. */
  ghost predicate Entered<V>(before: Ordered<V>, after: Ordered<V>, prefix: string, value: V) {
    var full := |before.keys| >= CACHE_LIMIT;
    && prefix in after.values && after.values[prefix] == value
    && (forall p :: p != prefix ==> (p in after.values <==> p in before.values && !(full && p == before.keys[0])))
    && (forall p :: p != prefix && p in after.values ==> after.values[p] == before.values[p])
  }

  lemma EnteredNow<V>(before: Ordered<V>, prefix: string, value: V)
    requires before.Valid()
    ensures Entered(before, before.Evicted(CACHE_LIMIT).Put(prefix, value), prefix, value)
  {
    assert |before.keys| >= CACHE_LIMIT ==> before.keys[0] !in before.keys[1..] by { if before.keys != [] { DistinctTail(before.keys); } }
    var room := before.Evicted(CACHE_LIMIT);
    assert forall p :: p in room.values <==> p in room.keys;
  }

  /** An API token's row, as the repository reads it on every request. */
  datatype Credential = Credential(usable: bool, serviceAccountActive: bool)

  class ApiTokenVerifier {
    const hashes: Hashes
    var verified: Ordered<Known>
    var rejected: Ordered<seq<string>>
    // Every slow check that came out right, by any request of this process.
    ghost var successes: set<Success>

    ghost predicate Valid()
      reads this
    {
      Injective(hashes) && Sound(hashes, verified, rejected, successes)
    }

    constructor (hashes: Hashes)
      requires Injective(hashes)
      ensures Valid() && this.hashes == hashes && verified.keys == [] && rejected.keys == []
    {
      this.hashes := hashes;
      verified, rejected, successes := Ordered([], map[]), Ordered([], map[]), {};
    }

    /**
     * `await passwords.verify`: while it runs, any number of other requests go
     * through `SecretMatches` and leave the caches as `during`, and their own
     * successes in `won`.
     */
    method Verify(prefix: string, secret: string, during: Caches, ghost won: set<Success>) returns (ok: bool)
      requires Valid() && successes <= won && Sound(hashes, during.verified, during.rejected, won)
      modifies this
      ensures Valid() && verified == during.verified && rejected == during.rejected && successes == won
      ensures ok == hashes.matches(prefix, secret)
    {
      verified, rejected, successes := during.verified, during.rejected, won;
      ok := hashes.matches(prefix, secret);
    }

    /**
     * Answers what the slow check would. It hashes exactly when neither cache
     * knows this secret: a remembered yes is a real success of it less than five
     * minutes old. What it learned is remembered in the caches as the others left them.
     */
    method SecretMatches(prefix: string, secret: string, now: int, during: Caches, ghost won: set<Success>) returns (yes: bool, how: How)
      requires Valid() && successes <= won && Sound(hashes, during.verified, during.rejected, won)
      modifies this
      ensures Valid() && old(successes) <= successes
      ensures yes == hashes.matches(prefix, secret)
      ensures how.Remembered? <==>
                && prefix in old(verified).values && now < old(verified).values[prefix].until
                && old(verified).values[prefix].digest == hashes.digest(secret)
      ensures how.Remembered? ==> yes && exists at :: Success(prefix, secret, at) in old(successes) && now < at + CACHE_MS
      ensures how.RememberedWrong? <==>
                !how.Remembered? && prefix in old(rejected).values && hashes.digest(secret) in old(rejected).values[prefix]
      ensures how.RememberedWrong? ==> !yes
      ensures !how.Hashed? ==> verified == old(verified) && rejected == old(rejected)
      // The answer is remembered for the next request, and nothing else is forgotten but to make room for it.
      ensures how.Hashed? && yes ==>
                && Entered(during.verified, verified, prefix, Known(hashes.digest(secret), now + CACHE_MS))
                && rejected.values == during.rejected.values - {prefix}
                && successes == won + {Success(prefix, secret, now)}
      ensures how.Hashed? && !yes ==>
                && verified == during.verified && prefix in rejected.values && hashes.digest(secret) in rejected.values[prefix]
                && Entered(during.rejected, rejected, prefix, rejected.values[prefix])
                && SeenStay(during.rejected, rejected.values[prefix], prefix)
      ensures |verified.keys| <= CACHE_LIMIT && |rejected.keys| <= CACHE_LIMIT
      ensures forall p :: p in rejected.values ==> |rejected.values[p]| <= REJECTED_PER_PREFIX
    {
      var digest := hashes.digest(secret);
      if prefix in verified.values && now < verified.values[prefix].until && verified.values[prefix].digest == digest {
        KnownIsRight(hashes, verified, successes, prefix, secret);
        return true, Remembered(verified.values[prefix]);
      }
      if prefix in rejected.values && digest in rejected.values[prefix] {
        return false, RememberedWrong;
      }
      yes := Verify(prefix, secret, during, won);
      how := Hashed;
      if yes {
        RememberYes(prefix, secret, now);
      } else {
        NoStaysSound(hashes, verified, rejected, successes, prefix, secret);
        NoEntered(rejected, prefix, digest);
        rejected := RememberNo(rejected, prefix, digest);
      }
    }

    method RememberYes(prefix: string, secret: string, now: int)
      requires Valid() && hashes.matches(prefix, secret)
      modifies this
      ensures Valid() && successes == old(successes) + {Success(prefix, secret, now)}
      ensures Entered(old(verified), verified, prefix, Known(hashes.digest(secret), now + CACHE_MS))
      ensures rejected.values == old(rejected).values - {prefix}
    {
      YesStaysSound(hashes, verified, rejected, successes, prefix, secret, now);
      EnteredNow(verified, prefix, Known(hashes.digest(secret), now + CACHE_MS));
      verified := verified.Evicted(CACHE_LIMIT).Put(prefix, Known(hashes.digest(secret), now + CACHE_MS));
      rejected := rejected.Delete(prefix);
      successes := successes + {Success(prefix, secret, now)};
    }

    /** The row decides on every request; whatever is remembered, a token that is not usable now answers nothing. */
    method Authenticate(row: Option<Credential>, prefix: string, secret: string, now: int, during: Caches, ghost won: set<Success>)
      returns (accepted: bool)
      requires Valid() && successes <= won && Sound(hashes, during.verified, during.rejected, won)
      modifies this
      ensures Valid()
      ensures accepted <==> row.Some? && row.value.usable && row.value.serviceAccountActive && hashes.matches(prefix, secret)
    {
      accepted := false;
      if row.Some? && row.value.usable && row.value.serviceAccountActive {
        var how;
        accepted, how := SecretMatches(prefix, secret, now, during, won);
      }
    }
  }
}
