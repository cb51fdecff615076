/**
  * The host plug-in shim: every wrapper keeps the pointer it resolved, with the generation it
  * resolved it in, and trusts it while the generation is the same.  Instances of the plug-in are
  * numbered by the loads that made them; what dlsym finds is fixed for each instance.
  */
module SymbolCache {
  import opened Osal

  type Pointer = nat
  type Wrapper = nat

  /** What dlsym finds for a wrapper's name in an instance. */
  type Symbols = (nat, Wrapper) -> Option<Pointer>

  /** The static variables of one wrapper. */
  datatype Static = Static(f: Option<Pointer>, currGen: int)

  datatype LoadResult = Loaded | AlreadyLoaded | NoPlugin

  datatype Result = BadState | BadSymbol | Calls(f: Pointer)

  const GENERATIONS := 0x1_0000_0000

  /**
    * The n-th increment of an int32_t that starts at zero.  The increment of the greatest one is signed
    * overflow, which C++ leaves undefined; it is taken to wrap.
    */
  function Generation(n: nat): int
  {
    (n + 0x8000_0000) % GENERATIONS - 0x8000_0000
  }

  lemma NextGeneration(n: nat)
    ensures Generation(n + 1) == if Generation(n) == 0x7FFF_FFFF then -0x8000_0000 else Generation(n) + 1
  {
  }

  lemma GenerationsRepeat(m: nat, n: nat)
    ensures Generation(m) == Generation(n) <==> m % GENERATIONS == n % GENERATIONS
  {
  }

  /** The shim: the instance loaded, how many were loaded, and the statics initialised so far. */
  datatype Shim = Shim(plugin: Option<nat>, loads: nat, statics: map<Wrapper, Static>)
  {
    function Gen(): int { Generation(loads) }
  }

  const INITIAL := Shim(None, 0, map[])

  datatype Event = Load(opens: bool) | Unload | Call(w: Wrapper)

  /** The statics of a wrapper as its call finds them: the first call initialises them. */
  function StaticOf(s: Shim, w: Wrapper): Static
  {
    if w in s.statics then s.statics[w] else Static(None, s.Gen())
  }

  /** `_load` */
  function Resolve(dlsym: Symbols, s: Shim, w: Wrapper): (Static, Result)
  {
    var st := StaticOf(s, w);
    if s.plugin == None then (st, BadState)
    else if st.f == None || st.currGen != s.Gen() then
      match dlsym(s.plugin.value, w)
      case None => (st.(f := None), BadSymbol)
      case Some(p) => (Static(Some(p), s.Gen()), Calls(p))
    else (st, Calls(st.f.value))
  }

  function After(dlsym: Symbols, s: Shim, e: Event): Shim
  {
    match e
    case Load(opens) => if s.plugin == None && opens then s.(plugin := Some(s.loads + 1), loads := s.loads + 1) else s
    case Unload => s.(plugin := None)
    case Call(w) => s.(statics := s.statics[w := Resolve(dlsym, s, w).0])
  }

  function AfterAll(dlsym: Symbols, events: seq<Event>): Shim
  {
    if events == [] then INITIAL else After(dlsym, AfterAll(dlsym, events[..|events| - 1]), events[|events| - 1])
  }

  /** What a call would do if it looked its symbol up every time. */
  function Direct(dlsym: Symbols, s: Shim, w: Wrapper): Result
  {
    if s.plugin == None then BadState
    else match dlsym(s.plugin.value, w)
         case None => BadSymbol
         case Some(p) => Calls(p)
  }

  // ------------------------------------------------------------- when a call is stale

  predicate SameGeneration(m: nat, n: nat) { m % GENERATIONS == n % GENERATIONS }

  /**
    * The load in which the wrapper last looked its symbol up, if it found it: a call looks it up when a
    * plug-in is loaded and the last find is none, or of a load whose number differs modulo 2^32.
    */
  function ResolvedAt(dlsym: Symbols, events: seq<Event>, w: Wrapper): Option<nat>
  {
    if events == [] then None
    else
      var before := events[..|events| - 1];
      var s, at := AfterAll(dlsym, before), ResolvedAt(dlsym, before, w);
      if events[|events| - 1] != Call(w) || s.plugin == None then at
      else if at.Some? && SameGeneration(at.value, s.loads) then at
      else if dlsym(s.loads, w).Some? then Some(s.loads)
      else None
  }

  /** The wrapper's static variables tell the last find. */
  ghost predicate Remembers(dlsym: Symbols, s: Shim, w: Wrapper, at: Option<nat>)
  {
    && (s.plugin.Some? ==> s.plugin.value == s.loads)
    && (at == None ==> w !in s.statics || s.statics[w].f == None)
    && (at.Some? ==>
          && at.value <= s.loads && dlsym(at.value, w).Some?
          && w in s.statics && s.statics[w] == Static(dlsym(at.value, w), Generation(at.value)))
  }

  lemma {:induction false} StaticsRemember(dlsym: Symbols, events: seq<Event>, w: Wrapper)
    ensures Remembers(dlsym, AfterAll(dlsym, events), w, ResolvedAt(dlsym, events, w))
  {
    if events != [] {
      var before := events[..|events| - 1];
      StaticsRemember(dlsym, before, w);
      var at := ResolvedAt(dlsym, before, w);
      if at.Some? {
        GenerationsRepeat(at.value, AfterAll(dlsym, before).loads);
      }
    }
  }

  /** A call goes through the last find while the generation seems the same, and else looks up. */
  lemma CallUsesLastFind(dlsym: Symbols, events: seq<Event>, w: Wrapper)
    ensures var s, at := AfterAll(dlsym, events), ResolvedAt(dlsym, events, w);
            && (s.plugin.Some? ==> s.plugin.value == s.loads)
            && (at.Some? ==> at.value <= s.loads && dlsym(at.value, w).Some?)
            && Resolve(dlsym, s, w).1 ==
               if s.plugin.Some? && at.Some? && SameGeneration(at.value, s.loads) then Calls(dlsym(at.value, w).value)
               else Direct(dlsym, s, w)
  {
    StaticsRemember(dlsym, events, w);
    var s, at := AfterAll(dlsym, events), ResolvedAt(dlsym, events, w);
    if at.Some? {
      GenerationsRepeat(at.value, s.loads);
    }
  }

  /** The last find is of an earlier instance, a multiple of 2^32 loads back, that resolves differently. */
  predicate IsStale(dlsym: Symbols, events: seq<Event>, w: Wrapper)
  {
    var s, at := AfterAll(dlsym, events), ResolvedAt(dlsym, events, w);
    && s.plugin.Some? && at.Some? && at.value < s.loads && SameGeneration(at.value, s.loads)
    && dlsym(at.value, w) != dlsym(s.loads, w)
  }

  /** After any events a call differs from a direct lookup if and only if the last find is stale. */
  lemma CallDiffersExactly(dlsym: Symbols, events: seq<Event>, w: Wrapper)
    ensures var s := AfterAll(dlsym, events);
            Resolve(dlsym, s, w).1 != Direct(dlsym, s, w) <==> IsStale(dlsym, events, w)
  {
    CallUsesLastFind(dlsym, events, w);
  }

  /** While the generation has not wrapped, the cache agrees with direct lookup. */
  lemma CacheIsCoherent(dlsym: Symbols, events: seq<Event>, w: Wrapper)
    requires AfterAll(dlsym, events).loads < GENERATIONS
    ensures var s := AfterAll(dlsym, events); Resolve(dlsym, s, w).1 == Direct(dlsym, s, w)
  {
    CallDiffersExactly(dlsym, events, w);
  }

  /** Events without a call of the wrapper leave its last find. */
  lemma {:induction false} FindIsKept(dlsym: Symbols, events: seq<Event>, more: seq<Event>, w: Wrapper)
    requires Call(w) !in more
    ensures ResolvedAt(dlsym, events + more, w) == ResolvedAt(dlsym, events, w)
  {
    if more == [] {
      assert events + more == events;
    } else {
      var n := |more| - 1;
      FindIsKept(dlsym, events, more[..n], w);
      assert (events + more)[..|events| + n] == events + more[..n];
      assert (events + more)[|events| + n] == more[n] && more[n] in more;
    }
  }

  // ------------------------------------------------------------- the wrap

  /** Load and unload, n times. */
  function Cycles(n: nat): seq<Event>
  {
    if n == 0 then [] else Cycles(n - 1) + [Load(true), Unload]
  }

  function AfterMore(dlsym: Symbols, s: Shim, events: seq<Event>): Shim
  {
    if events == [] then s else After(dlsym, AfterMore(dlsym, s, events[..|events| - 1]), events[|events| - 1])
  }

  lemma LastOfConcat(a: seq<Event>, b: seq<Event>)
    requires b != []
    ensures a + b != [] && (a + b)[|a + b| - 1] == b[|b| - 1] && (a + b)[..|a + b| - 1] == a + b[..|b| - 1]
  {
  }

  lemma {:induction false} AfterConcat(dlsym: Symbols, a: seq<Event>, b: seq<Event>)
    ensures AfterAll(dlsym, a + b) == AfterMore(dlsym, AfterAll(dlsym, a), b)
  {
    hide After;
    if b == [] {
      assert a + b == a;
    } else {
      var init := b[..|b| - 1];
      AfterConcat(dlsym, a, init);
      LastOfConcat(a, b);
      assert AfterAll(dlsym, a + b) == After(dlsym, AfterAll(dlsym, a + init), b[|b| - 1]);
    }
  }

  lemma {:induction false} AfterCycles(dlsym: Symbols, s: Shim, n: nat)
    requires s.plugin == None
    ensures AfterMore(dlsym, s, Cycles(n)) == s.(loads := s.loads + n)
  {
    if n != 0 {
      AfterCycles(dlsym, s, n - 1);
      var es, before := Cycles(n), Cycles(n - 1);
      assert es[..|es| - 1] == before + [Load(true)];
      assert (before + [Load(true)])[..|before|] == before;
      assert AfterMore(dlsym, s, before + [Load(true)]) == s.(plugin := Some(s.loads + n), loads := s.loads + n);
    }
  }

  /** One call, and 2^32 loads later the same wrapper still calls into the first instance. */
  function Wrapping(w: Wrapper): seq<Event>
  {
    [Load(true), Call(w), Unload] + Cycles(GENERATIONS - 1) + [Load(true)]
  }

  lemma FirstCall(dlsym: Symbols, w: Wrapper)
    requires dlsym(1, w).Some?
    ensures AfterAll(dlsym, [Load(true), Call(w), Unload]) ==
            Shim(None, 1, map[w := Static(dlsym(1, w), Generation(1))])
  {
    var first := [Load(true), Call(w), Unload];
    assert first[..2] == [Load(true), Call(w)] && first[..2][..1] == [Load(true)];
    assert AfterAll(dlsym, [Load(true)]) == Shim(Some(1), 1, map[]);
    assert AfterAll(dlsym, first[..2]) == Shim(Some(1), 1, map[w := Static(dlsym(1, w), Generation(1))]);
  }

  lemma FirstFind(dlsym: Symbols, w: Wrapper)
    requires dlsym(1, w).Some?
    ensures ResolvedAt(dlsym, [Load(true), Call(w), Unload], w) == Some(1)
  {
    var first := [Load(true), Call(w), Unload];
    assert first[..2] == [Load(true), Call(w)] && first[..2][..1] == [Load(true)];
    assert AfterAll(dlsym, [Load(true)]) == Shim(Some(1), 1, map[]);
    assert ResolvedAt(dlsym, [Load(true)], w) == None;
    assert ResolvedAt(dlsym, first[..2], w) == Some(1);
  }

  lemma {:induction false} CyclesDoNotCall(n: nat, w: Wrapper)
    ensures Call(w) !in Cycles(n)
  {
    if n != 0 {
      CyclesDoNotCall(n - 1, w);
    }
  }

  lemma WrapIsStale(dlsym: Symbols, w: Wrapper)
    requires dlsym(1, w).Some?
    ensures var s := AfterAll(dlsym, Wrapping(w));
            && s.plugin == Some(GENERATIONS + 1) && ResolvedAt(dlsym, Wrapping(w), w) == Some(1)
            && Resolve(dlsym, s, w).1 == Calls(dlsym(1, w).value)
            && (IsStale(dlsym, Wrapping(w), w) <==> dlsym(1, w) != dlsym(GENERATIONS + 1, w))
  {
    hide Cycles;
    var first, cycles := [Load(true), Call(w), Unload], Cycles(GENERATIONS - 1);
    FirstCall(dlsym, w);
    FirstFind(dlsym, w);
    var s1 := AfterAll(dlsym, first);
    AfterConcat(dlsym, first, cycles);
    AfterCycles(dlsym, s1, GENERATIONS - 1);
    assert Wrapping(w)[..|first + cycles|] == first + cycles;
    CyclesDoNotCall(GENERATIONS - 1, w);
    FindIsKept(dlsym, first, cycles + [Load(true)], w);
    assert Wrapping(w) == first + (cycles + [Load(true)]);
    CallUsesLastFind(dlsym, Wrapping(w), w);
  }

  // ------------------------------------------------------------- the shim's variables

  class HostShim {
    const dlsym: Symbols
    var plugin: Option<nat>
    var pluginGen: int
    var statics: map<Wrapper, Static>
    ghost var loads: nat

    ghost predicate Valid()
      reads this
    {
      pluginGen == Generation(loads)
    }

    ghost function State(): Shim
      reads this
    {
      Shim(plugin, loads, statics)
    }

    constructor (dlsym: Symbols)
      ensures Valid() && State() == INITIAL && this.dlsym == dlsym
    {
      this.dlsym := dlsym;
      plugin, pluginGen, statics, loads := None, 0, map[], 0;
    }

    /** `handle` is what dlopen gives, if anything: the next instance. */
    method LoadPlugin(handle: Option<nat>) returns (r: LoadResult)
      requires Valid() && (handle.Some? ==> handle.value == loads + 1)
      modifies this
      ensures Valid() && State() == After(dlsym, old(State()), Load(handle.Some?))
      ensures plugin == if old(plugin).Some? then old(plugin) else handle
      ensures pluginGen == if old(plugin).Some? || handle == None then old(pluginGen)
                           else if old(pluginGen) == 0x7FFF_FFFF then -0x8000_0000
                           else old(pluginGen) + 1
      ensures statics == old(statics)
      ensures r == if old(plugin).Some? then AlreadyLoaded else if handle.Some? then Loaded else NoPlugin
    {
      hide Generation;
      NextGeneration(loads);
      if plugin == None {
        plugin := handle;
        if plugin == None {
          return NoPlugin;
        }
        pluginGen := if pluginGen == 0x7FFF_FFFF then -0x8000_0000 else pluginGen + 1;
        loads := loads + 1;
        return Loaded;
      }
      return AlreadyLoaded;
    }

    method UnloadPlugin() returns (loaded: bool)
      requires Valid()
      modifies this
      ensures Valid() && State() == After(dlsym, old(State()), Unload)
      ensures plugin == None && pluginGen == old(pluginGen) && statics == old(statics)
      ensures loaded <==> old(plugin).Some?
    {
      loaded := plugin.Some?;
      if loaded {
        plugin := None;
      }
    }

    /** A wrapper's call, up to the call through the pointer. */
    method CallThrough(w: Wrapper) returns (r: Result)
      requires Valid()
      modifies this
      ensures Valid() && State() == After(dlsym, old(State()), Call(w))
      ensures r == Resolve(dlsym, old(State()), w).1
      ensures r == BadState <==> plugin == None
      ensures plugin == old(plugin) && pluginGen == old(pluginGen)
    {
      if w !in statics {
        statics := statics[w := Static(None, pluginGen)];
      }
      var f, currGen := statics[w].f, statics[w].currGen;
      if plugin == None {
        return BadState;
      }
      r := BadSymbol;
      if f == None || currGen != pluginGen {
        f := dlsym(plugin.value, w);
        if f != None {
          currGen := pluginGen;
        }
        statics := statics[w := Static(f, currGen)];
      }
      if f.Some? {
        r := Calls(f.value);
      }
    }
  }
}
