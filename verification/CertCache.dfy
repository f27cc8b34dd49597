/**
 Certificate rotation for the HTTP/3 listener (`src/h3_server.rs`): `CertSource.swap`, which takes a
 generation and then stores the material in two separate steps, and `ensure_config`, which rebuilds its
 cached config when the stored generation differs from the cached one. Any number of swaps may be under
 way at once, so the stored generations may go backwards.
 */
module CertCache {
  import opened Wrappers

  /** Generations are counted in a `u64` that wraps round. */
  const GENERATIONS: nat := 0x1_0000_0000_0000_0000

  datatype Material = Material(cert: string, key: string)

  datatype Pem = Pem(generation: nat, material: Material)

  /** A config is known by what it was built from. */
  datatype Config = Config(builtFrom: Material)

  datatype Cached = Cached(generation: nat, config: Config)

  /** `inFlight` holds, per swapping task, the material that has its generation but is not stored yet. */
  datatype State = State(current: Pem, next: nat, cached: Option<Cached>, inFlight: map<nat, Pem>)

  datatype Action =
    | TakeGeneration(task: nat, material: Material)
    | Store(task: nat)
    | EnsureConfig(builds: bool)

  function Initial(m: Material): State {
    State(Pem(0, m), 1, None, map[])
  }

  predicate Possible(s: State, a: Action) {
    match a
    case TakeGeneration(t, _) => t !in s.inFlight
    case Store(t) => t in s.inFlight
    case EnsureConfig(_) => true
  }

  /** The config `ensure_config` returns; none if building one failed. */
  function Answer(s: State, builds: bool): Option<Config> {
    if s.cached.Some? && s.cached.value.generation == s.current.generation then Some(s.cached.value.config)
    else if builds then Some(Config(s.current.material))
    else None
  }

  function Apply(s: State, a: Action): State
    requires Possible(s, a)
  {
    match a
    case TakeGeneration(t, m) =>
      s.(next := (s.next + 1) % GENERATIONS, inFlight := s.inFlight[t := Pem(s.next, m)])
    case Store(t) => s.(current := s.inFlight[t], inFlight := s.inFlight - {t})
    case EnsureConfig(builds) =>
      if Answer(s, builds).None? then s
      else s.(cached := Some(Cached(s.current.generation, Answer(s, builds).value)))
  }

  // ---------------------------------------------------------------- the code's own form

  class CertSource {
    var current: Pem
    var nextGeneration: nat

    constructor (m: Material)
      ensures current == Pem(0, m) && nextGeneration == 1
    {
      current := Pem(0, m);
      nextGeneration := 1;
    }

    /** First half of `swap`: an atomic fetch-and-add. */
    method FetchGeneration() returns (generation: nat)
      modifies this`nextGeneration
      ensures generation == old(nextGeneration) && nextGeneration == (old(nextGeneration) + 1) % GENERATIONS
    {
      generation := nextGeneration;
      nextGeneration := (nextGeneration + 1) % GENERATIONS;
    }

    /** Second half of `swap`: an atomic store. */
    method StoreMaterial(generation: nat, m: Material)
      modifies this`current
      ensures current == Pem(generation, m)
    {
      current := Pem(generation, m);
    }

    /** `swap`, when nothing comes between its halves. */
    method Swap(m: Material)
      modifies this
      ensures current == Pem(old(nextGeneration), m)
      ensures nextGeneration == (old(nextGeneration) + 1) % GENERATIONS
    {
      var generation := FetchGeneration();
      StoreMaterial(generation, m);
    }
  }

  /** The listener's side: the slot `ensure_config` keeps its config in. */
  class ConfigSlot {
    var cached: Option<Cached>

    constructor ()
      ensures cached == None
    {
      cached := None;
    }

    /** The state of the protocol these two objects are in, besides the swaps under way. */
    ghost function View(certs: CertSource, inFlight: map<nat, Pem>): State
      reads this, certs
    {
      State(certs.current, certs.nextGeneration, cached, inFlight)
    }

    /** `ensure_config`; `builds` says whether `server_config` would succeed. */
    method EnsureConfig(certs: CertSource, builds: bool) returns (r: Option<Config>)
      modifies this
      ensures forall f: map<nat, Pem> ::
        r == Answer(old(View(certs, f)), builds) &&
        View(certs, f) == Apply(old(View(certs, f)), Action.EnsureConfig(builds))
    {
      var pem := certs.current;
      if cached.None? || cached.value.generation != pem.generation {
        if !builds {
          return None;
        }
        cached := Some(Cached(pem.generation, Config(pem.material)));
      }
      r := Some(cached.value.config);
    }
  }

  // ---------------------------------------------------------------- every run

  /** What the actions have given generations to so far, in order; the first is the initial material. */
  function Issued(first: Material, run: seq<Action>): (r: seq<Material>)
    ensures |r| >= 1
  {
    if run == [] then [first]
    else
      var last := run[|run| - 1];
      Issued(first, run[..|run| - 1]) + if last.TakeGeneration? then [last.material] else []
  }

  /** The state after a run, if the run is possible. */
  function After(first: Material, run: seq<Action>): Option<State> {
    if run == [] then Some(Initial(first))
    else
      var before := After(first, run[..|run| - 1]);
      if before.Some? && Possible(before.value, run[|run| - 1]) then Some(Apply(before.value, run[|run| - 1]))
      else None
  }

  /** The pair was issued together; generation numbers are reused only after `GENERATIONS` of them. */
  ghost predicate IssuedPair(issued: seq<Material>, generation: nat, m: Material) {
    exists i :: 0 <= i < |issued| && issued[i] == m && i % GENERATIONS == generation
  }

  ghost predicate Inv(s: State, issued: seq<Material>) {
    s.next == |issued| % GENERATIONS &&
    IssuedPair(issued, s.current.generation, s.current.material) &&
    (forall t :: t in s.inFlight ==> IssuedPair(issued, s.inFlight[t].generation, s.inFlight[t].material)) &&
    (s.cached.Some? ==> IssuedPair(issued, s.cached.value.generation, s.cached.value.config.builtFrom))
  }

  lemma IssuedStays(issued: seq<Material>, more: Material, generation: nat, m: Material)
    requires IssuedPair(issued, generation, m)
    ensures IssuedPair(issued + [more], generation, m)
  {
    var i :| 0 <= i < |issued| && issued[i] == m && i % GENERATIONS == generation;
    assert (issued + [more])[i] == m;
  }

  lemma StepKeepsInv(s: State, issued: seq<Material>, a: Action)
    requires Inv(s, issued) && Possible(s, a)
    ensures Inv(Apply(s, a), issued + if a.TakeGeneration? then [a.material] else [])
  {
    if a.TakeGeneration? {
      var longer := issued + [a.material];
      assert longer[|issued|] == a.material;
      assert IssuedPair(longer, s.next, a.material);
      IssuedStays(issued, a.material, s.current.generation, s.current.material);
      forall t | t in s.inFlight ensures IssuedPair(longer, s.inFlight[t].generation, s.inFlight[t].material) {
        IssuedStays(issued, a.material, s.inFlight[t].generation, s.inFlight[t].material);
      }
      if s.cached.Some? {
        IssuedStays(issued, a.material, s.cached.value.generation, s.cached.value.config.builtFrom);
      }
      NextGeneration(|issued|);
    } else {
      assert issued + [] == issued;
    }
  }

  lemma NextGeneration(n: nat)
    ensures (n % GENERATIONS + 1) % GENERATIONS == (n + 1) % GENERATIONS
  {
    var q, r := n / GENERATIONS, n % GENERATIONS;
    assert n == q * GENERATIONS + r;
    if r + 1 < GENERATIONS {
      Remainder(q, r + 1);
    } else {
      assert n + 1 == (q + 1) * GENERATIONS + 0;
      Remainder(q + 1, 0);
    }
  }

  lemma Remainder(q: nat, r: nat)
    requires r < GENERATIONS
    ensures (q * GENERATIONS + r) % GENERATIONS == r
  {
  }

  lemma {:induction false} RunKeepsInv(first: Material, run: seq<Action>)
    requires After(first, run).Some?
    ensures Inv(After(first, run).value, Issued(first, run))
    decreases |run|
  {
    if run == [] {
      assert Issued(first, run)[0] == first;
    } else {
      RunKeepsInv(first, run[..|run| - 1]);
      StepKeepsInv(After(first, run[..|run| - 1]).value, Issued(first, run[..|run| - 1]), run[|run| - 1]);
    }
  }

  /** The cache would hand out a config for other material than the stored one. */
  predicate Stale(s: State) {
    s.cached.Some? && s.cached.value.generation == s.current.generation &&
    s.cached.value.config.builtFrom != s.current.material
  }

  /** A call returns the config of the material it loads, or fails and changes nothing; the one exception is
      a stale cache. */
  lemma AnswerExactly(s: State, builds: bool)
    ensures Answer(s, builds).Some? ==> (Answer(s, builds) == Some(Config(s.current.material)) <==> !Stale(s))
    ensures Answer(s, builds).None? ==> Apply(s, EnsureConfig(builds)) == s
    ensures Answer(s, builds).None? <==>
              !builds && (s.cached.None? || s.cached.value.generation != s.current.generation)
  {
  }

  /** In every interleaving of swaps and calls, as long as the generations have not wrapped round, each call
      that succeeds returns the config built from the material it loads. */
  lemma CacheIsCoherent(first: Material, run: seq<Action>, builds: bool)
    requires After(first, run).Some? && |Issued(first, run)| <= 0x1_0000_0000_0000_0000
    ensures var s := After(first, run).value;
            !Stale(s) && (Answer(s, builds).Some? ==> Answer(s, builds).value == Config(s.current.material))
  {
    RunKeepsInv(first, run);
    var s, issued := After(first, run).value, Issued(first, run);
    if s.cached.Some? && s.cached.value.generation == s.current.generation {
      var i :| 0 <= i < |issued| && issued[i] == s.current.material && i % GENERATIONS == s.current.generation;
      var j :| 0 <= j < |issued| && issued[j] == s.cached.value.config.builtFrom &&
        j % GENERATIONS == s.cached.value.generation;
      Remainder(0, i);
      Remainder(0, j);
    }
  }

  // ---------------------------------------------------------------- going backwards, and wrapping round

  lemma AfterSnoc(first: Material, run: seq<Action>, a: Action)
    requires After(first, run).Some? && Possible(After(first, run).value, a)
    ensures After(first, run + [a]) == Some(Apply(After(first, run).value, a))
    ensures Issued(first, run + [a]) == Issued(first, run) + if a.TakeGeneration? then [a.material] else []
  {
    assert (run + [a])[..|run|] == run;
  }

  /** Two swaps that overlap can leave the older generation stored. */
  lemma GenerationsGoBack(a: Material, b: Material, c: Material)
    ensures var early := [TakeGeneration(1, b), TakeGeneration(2, c), Store(2)];
            After(a, early).Some? && After(a, early).value.current == Pem(2, c) &&
            After(a, early + [Store(1)]).Some? && After(a, early + [Store(1)]).value.current == Pem(1, b)
  {
    var one, two := [TakeGeneration(1, b)], [TakeGeneration(1, b), TakeGeneration(2, c)];
    AfterSnoc(a, [], TakeGeneration(1, b));
    assert [] + one == one && one + [TakeGeneration(2, c)] == two;
    AfterSnoc(a, one, TakeGeneration(2, c));
    AfterSnoc(a, two, Store(2));
    assert two + [Store(2)] == [TakeGeneration(1, b), TakeGeneration(2, c), Store(2)];
    AfterSnoc(a, two + [Store(2)], Store(1));
  }

  /** A call, and then `n` swaps to `b`, one after the other. */
  function CallThenSwaps(b: Material, n: nat): seq<Action> {
    if n == 0 then [EnsureConfig(true)]
    else CallThenSwaps(b, n - 1) + [TakeGeneration(0, b)] + [Store(0)]
  }

  lemma SwapStep(s: State, b: Material, n: nat)
    requires s.next == n % GENERATIONS && s.inFlight == map[]
    ensures var taken := Apply(s, TakeGeneration(0, b));
            Possible(taken, Store(0)) &&
            Apply(taken, Store(0)) == State(Pem(n % GENERATIONS, b), (n + 1) % GENERATIONS, s.cached, map[])
  {
    NextGeneration(n);
    assert map[0 := Pem(n % GENERATIONS, b)] - {0} == map[];
  }

  lemma {:induction false} SwapsLead(a: Material, b: Material, n: nat)
    ensures var run := CallThenSwaps(b, n);
            After(a, run).Some? && |Issued(a, run)| == n + 1 &&
            After(a, run).value == State(Pem(n % GENERATIONS, if n == 0 then a else b), (n + 1) % GENERATIONS,
                                         Some(Cached(0, Config(a))), map[])
  {
    if n == 0 {
      AfterSnoc(a, [], EnsureConfig(true));
      assert [] + [EnsureConfig(true)] == CallThenSwaps(b, 0);
    } else {
      SwapsLead(a, b, n - 1);
      var run := CallThenSwaps(b, n - 1);
      SwapStep(After(a, run).value, b, n);
      AfterSnoc(a, run, TakeGeneration(0, b));
      AfterSnoc(a, run + [TakeGeneration(0, b)], Store(0));
    }
  }

  /** The bound is the right one: with one generation more the count is back at 0, and a call then returns
      the config of material long replaced. */
  lemma WrapGoesStale(a: Material, b: Material)
    requires a != b
    ensures var run := CallThenSwaps(b, GENERATIONS);
            After(a, run).Some? && |Issued(a, run)| == GENERATIONS + 1 && Stale(After(a, run).value) &&
            Answer(After(a, run).value, true) == Some(Config(a))
  {
    SwapsLead(a, b, GENERATIONS);
    Remainder(1, 0);
  }
}
