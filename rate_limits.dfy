/**
 * The rate limiter `TbRateLimits` as the admission filter sees it, and the
 * get-or-create registries that cache one limiter per tenant or customer.
 *
 * The token-bucket arithmetic and the parsing of rule strings such as
 * "10:1,600:60" live inside `TbRateLimits`, which is not part of this model.
 * A limiter is therefore abstract: it remembers the configuration string it
 * was built from, and the history of answers its `tryConsume` gave. What
 * `tryConsume` answers is supplied from outside and never constrained.
 */
module RateLimits {
  import opened Wrappers

  /** The observable state of one limiter: the rule string it was built
      from, and the answers of every `tryConsume` call so far, oldest first. */
  datatype Limits = Limits(configuration: string, answers: seq<bool>)

  /** A limiter object, updated in place by `TryConsume`. */
  class TbRateLimits {
    const configuration: string
    ghost var answers: seq<bool>

    /** `new TbRateLimits(configuration)`: a limiter nobody has consulted yet. */
    constructor (configuration: string)
      ensures this.configuration == configuration && answers == []
    {
      this.configuration := configuration;
      answers := [];
    }

    /** The value this object currently stands for. */
    ghost function State(): Limits
      reads this
    {
      Limits(configuration, answers)
    }

    /** `tryConsume()`; `granted` is the token bucket's answer at this moment,
        which the model takes as given. */
    method TryConsume(granted: bool) returns (ok: bool)
      modifies this
      ensures ok == granted
      ensures answers == old(answers) + [granted]
    {
      ok := granted;
      answers := answers + [granted];
    }
  }

  /** The values a registry of limiter objects currently stands for. */
  ghost function States<K>(registry: map<K, TbRateLimits>): map<K, Limits>
    reads registry.Values
  {
    map k | k in registry :: registry[k].State()
  }

  /** No limiter object is stored under two keys. */
  ghost predicate Distinct<K>(registry: map<K, TbRateLimits>) {
    forall k, k' :: k in registry && k' in registry && k != k' ==> registry[k] != registry[k']
  }

  /** `tryConsume()` on the limiter a registry holds for `key`: that one
      limiter records the answer; every other limiter of `registry` and of
      `other` is as it was. */
  method TryConsumeCached<K, L>(registry: map<K, TbRateLimits>, key: K, ghost other: map<L, TbRateLimits>, granted: bool)
    returns (ok: bool)
    requires key in registry && Distinct(registry) && Disjoint(registry, other)
    modifies registry[key]
    ensures ok == granted
    ensures States(registry) == old(States(registry))[key := Limits(registry[key].configuration, old(registry[key].answers) + [granted])]
    ensures States(other) == old(States(other))
  {
    ok := registry[key].TryConsume(granted);
  }

  /** `registry.computeIfAbsent(key, id -> new TbRateLimits(configuration))`
      on a registry of limiter objects: the registry afterwards, and the
      limiter it holds for `key`. */
  method ComputeIfAbsent<K, L>(registry: map<K, TbRateLimits>, key: K, configuration: string, ghost other: map<L, TbRateLimits>)
    returns (registry': map<K, TbRateLimits>, rateLimits: TbRateLimits)
    ensures key in registry ==> registry' == registry && rateLimits == registry[key]
    ensures key !in registry ==>
      && fresh(rateLimits) && rateLimits.State() == Limits(configuration, [])
      && registry' == registry[key := rateLimits]
    ensures States(registry') == States(registry)[key := rateLimits.State()]
    ensures Distinct(registry) ==> Distinct(registry')
    ensures Disjoint(registry, other) ==> Disjoint(registry', other)
  {
    if key in registry {
      registry', rateLimits := registry, registry[key];
    } else {
      rateLimits := new TbRateLimits(configuration);
      registry' := registry[key := rateLimits];
    }
  }

  /** No limiter object is held by both registries. */
  ghost predicate Disjoint<K, L>(registry: map<K, TbRateLimits>, other: map<L, TbRateLimits>) {
    forall k, l :: k in registry && l in other ==> registry[k] != other[l]
  }

  /** `registry.computeIfAbsent(key, ...).tryConsume()` on limiter objects:
      the registry's state changes as `ComputeIfAbsentAndConsume` says, the
      limiters it already held stay under their keys, and no limiter of the
      `other` registry changes. */
  method ComputeIfAbsentAndTryConsume<K, L>(
    registry: map<K, TbRateLimits>, key: K, configuration: string, ghost other: map<L, TbRateLimits>, granted: bool)
    returns (registry': map<K, TbRateLimits>, ok: bool)
    requires Distinct(registry) && Disjoint(registry, other)
    modifies registry.Values
    ensures ok == granted
    ensures States(registry') == ComputeIfAbsentAndConsume(old(States(registry)), Consult(key, configuration, granted))
    ensures States(other) == old(States(other))
    ensures Distinct(registry') && Disjoint(registry', other)
    ensures forall k :: k in registry ==> k in registry' && registry'[k] == registry[k]
    ensures forall k :: k in registry' && k !in registry ==> fresh(registry'[k])
  {
    var rateLimits;
    registry', rateLimits := ComputeIfAbsent(registry, key, configuration, other);
    ok := TryConsumeCached(registry', key, other, granted);
  }

  /** One visit of a registry on the request path: get or create the limiter
      for `key` from `configuration`, then ask it, getting `granted`. */
  datatype Consult<K> = Consult(key: K, configuration: string, granted: bool)

  /** `registry.computeIfAbsent(key, id -> new TbRateLimits(configuration))`
      followed by `tryConsume()` on the limiter it returns, on values. */
  function ComputeIfAbsentAndConsume<K>(registry: map<K, Limits>, c: Consult<K>): map<K, Limits> {
    var limits := if c.key in registry then registry[c.key] else Limits(c.configuration, []);
    registry[c.key := limits.(answers := limits.answers + [c.granted])]
  }

  /** Get-or-create never replaces: an entry already present is reused even
      when its configuration differs from the current one, and records the
      answer; a missing entry is built from the current configuration; no
      other entry changes, and no entry is removed. */
  lemma GetOrCreate<K>(registry: map<K, Limits>, c: Consult<K>)
    ensures var r := ComputeIfAbsentAndConsume(registry, c);
      && r.Keys == registry.Keys + {c.key}
      && |r.Keys| <= |registry.Keys| + 1
      && (forall k :: k in registry && k != c.key ==> r[k] == registry[k])
      && (c.key in registry ==>
            r[c.key] == Limits(registry[c.key].configuration, registry[c.key].answers + [c.granted]))
      && (c.key !in registry ==> r[c.key] == Limits(c.configuration, [c.granted]))
  {
  }

  /** The registry after a whole sequence of consults, in order. */
  function Replay<K>(registry: map<K, Limits>, cs: seq<Consult<K>>): map<K, Limits>
    decreases |cs|
  {
    if cs == [] then registry else Replay(ComputeIfAbsentAndConsume(registry, cs[0]), cs[1..])
  }

  /** The answers the consults in `cs` addressed to `key`, in order. */
  function Answers<K(==)>(cs: seq<Consult<K>>, key: K): seq<bool>
    decreases |cs|
  {
    if cs == [] then []
    else (if cs[0].key == key then [cs[0].granted] else []) + Answers(cs[1..], key)
  }

  /** The configuration carried by the first consult of `key` in `cs`. */
  function FirstConfiguration<K(==)>(cs: seq<Consult<K>>, key: K): Option<string>
    decreases |cs|
  {
    if cs == [] then None
    else if cs[0].key == key then Some(cs[0].configuration)
    else FirstConfiguration(cs[1..], key)
  }

  /** A registry only grows, by at most one key per consult. */
  lemma {:induction false} ReplayOnlyGrows<K>(registry: map<K, Limits>, cs: seq<Consult<K>>)
    ensures registry.Keys <= Replay(registry, cs).Keys
    ensures |Replay(registry, cs).Keys| <= |registry.Keys| + |cs|
    decreases |cs|
  {
    if cs != [] {
      ReplayOnlyGrows(ComputeIfAbsentAndConsume(registry, cs[0]), cs[1..]);
    }
  }

  /** A cached limiter is never replaced: it keeps its configuration whatever
      configurations later consults carry, and it has seen exactly the
      answers addressed to its key. */
  lemma {:induction false} ReplayKeepsCached<K>(registry: map<K, Limits>, cs: seq<Consult<K>>, key: K)
    requires key in registry
    ensures key in Replay(registry, cs)
    ensures Replay(registry, cs)[key]
         == Limits(registry[key].configuration, registry[key].answers + Answers(cs, key))
    decreases |cs|
  {
    if cs != [] {
      var next := ComputeIfAbsentAndConsume(registry, cs[0]);
      ReplayKeepsCached(next, cs[1..], key);
      if cs[0].key == key {
        assert registry[key].answers + Answers(cs, key)
            == (registry[key].answers + [cs[0].granted]) + Answers(cs[1..], key);
      }
    }
  }

  /** A key absent at first is present afterwards exactly when some consult
      addressed it, and its limiter is then the one built from the
      configuration of the first such consult. */
  lemma {:induction false} ReplayCreatesOnFirstConsult<K>(registry: map<K, Limits>, cs: seq<Consult<K>>, key: K)
    requires key !in registry
    ensures key in Replay(registry, cs) <==> FirstConfiguration(cs, key).Some?
    ensures key in Replay(registry, cs) <==> Answers(cs, key) != []
    ensures key in Replay(registry, cs) ==>
      Replay(registry, cs)[key] == Limits(FirstConfiguration(cs, key).value, Answers(cs, key))
    decreases |cs|
  {
    if cs != [] {
      var next := ComputeIfAbsentAndConsume(registry, cs[0]);
      if cs[0].key == key {
        ReplayKeepsCached(next, cs[1..], key);
      } else {
        ReplayCreatesOnFirstConsult(next, cs[1..], key);
      }
    }
  }
}
