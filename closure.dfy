/** What `dependencies` computes on a cycle, against what the name promises.

    The direct dependencies of a symbol are the symbols its instances name. The
    dependencies it is evidently meant to report are every symbol reachable from it
    through one or more instances: the least set that holds the direct dependencies
    and is closed under them. The cached resolution never reports a symbol outside
    that set, but on a cycle it can report too little. The symbol that is reached
    again through the cycle answers with its partly filled cache. The symbol that
    asked keeps that partial answer for good. */
module Closure {
  import opened Common
  import opened Symbols

  // ---------------------------------------------------------------- graphs

  /** Every symbol of a successful instance in `rs`. */
  function InstanceSymbols(rs: seq<Result<SymbolInstance>>): (r: set<Symbol>)
    ensures forall j :: 0 <= j < |rs| && rs[j].Ok? ==> rs[j].value.symbol in r
  {
    set j | 0 <= j < |rs| && rs[j].Ok? :: rs[j].value.symbol
  }

  /** The direct dependencies of each symbol of `syms`: the symbols that its instances
      resolve to in `entries`. An instance that fails to resolve adds nothing. */
  function DirectGraph(entries: map<string, Symbol>, syms: set<Symbol>): (g: map<Symbol, set<Symbol>>)
    ensures g.Keys == syms
  {
    map s | s in syms :: InstanceSymbols(Instantiations(entries, Occurrences(s.timelines)))
  }

  /** `s` holds the direct dependencies of each of its members. */
  predicate Closed<T>(g: map<T, set<T>>, s: set<T>)
  {
    forall y :: y in s && y in g ==> g[y] <= s
  }

  // ---------------------------------------------------------------- the closure

  /** The transitive dependencies of `x`: a worklist that starts from the direct
      dependencies of `x` and adds the direct dependencies of each symbol it takes
      until none is new. The result holds the direct dependencies, is closed, and lies
      within every closed set that holds them, so it is exactly the set of symbols
      reachable from `x`. It does not depend on the order in which symbols are
      visited, and a cycle through `x` puts `x` in it. */
  method TransitiveDeps<T>(g: map<T, set<T>>, x: T) returns (deps: set<T>)
    requires x in g
    requires forall y :: y in g ==> g[y] <= g.Keys
    ensures g[x] <= deps <= g.Keys
    ensures Closed(g, deps)
    ensures forall s :: g[x] <= s && Closed(g, s) ==> deps <= s
  {
    deps := {};
    var work := g[x];
    while work != {}
      invariant deps <= g.Keys && work <= g.Keys && deps !! work
      invariant g[x] <= deps + work
      invariant forall y :: y in deps ==> g[y] <= deps + work
      invariant forall s :: g[x] <= s && Closed(g, s) ==> deps + work <= s
      decreases g.Keys - deps
    {
      var y :| y in work;
      deps := deps + {y};
      work := (work - {y}) + (g[y] - deps);
    }
  }

  // ---------------------------------------------------------------- the cached sets

  /** Every symbol of `st` whose direct dependencies lie in `t` has its cached set in
      `t`. For a closed `t`, resolution keeps this: a cached set never leaves the
      symbols reachable from its own symbol. */
  predicate Bounded(g: map<Symbol, set<Symbol>>, st: State, t: set<Symbol>)
  {
    forall s :: s in st && st[s].Some? && s in g && g[s] <= t ==> st[s].value.deps <= t
  }

  /** `g` has an edge from each of its symbols to each symbol its instances resolve
      to. `DirectGraph` is the least such graph. */
  predicate HasEdges(entries: map<string, Symbol>, g: map<Symbol, set<Symbol>>)
  {
    forall s :: s in g ==> InstanceSymbols(Instantiations(entries, Occurrences(s.timelines))) <= g[s]
  }

  /** Resolution keeps every cached set within the dependencies reachable from its
      symbol, whatever order the symbols are asked in. */
  lemma {:induction false} ResolveBounded(entries: map<string, Symbol>, g: map<Symbol, set<Symbol>>, st: State,
                                          x: Symbol, t: set<Symbol>)
    requires x in st && entries.Values <= st.Keys <= g.Keys && HasEdges(entries, g)
    requires Closed(g, t) && Bounded(g, st, t)
    ensures Bounded(g, Resolve(entries, st, x).st, t)
    decreases Pending(st), 0
  {
    if st[x].None? {
      var st1 := st[x := Some(Cache({}, []))];
      assert x in Pending(st) && Pending(st1) == Pending(st) - {x};
      ResolveFromBounded(entries, g, st1, x, Instantiations(entries, Occurrences(x.timelines)), 0, t);
    }
  }

  lemma {:induction false} AbsorbBounded(entries: map<string, Symbol>, g: map<Symbol, set<Symbol>>, st: State,
                                         x: Symbol, inst: SymbolInstance, t: set<Symbol>)
    requires x in st && st[x].Some? && entries.Values <= st.Keys <= g.Keys && HasEdges(entries, g)
    requires inst.symbol in entries.Values && inst.symbol in g[x]
    requires Closed(g, t) && Bounded(g, st, t)
    ensures Bounded(g, Absorb(entries, st, x, inst).st, t)
    decreases Pending(st), 1
  {
    var y := inst.symbol;
    var c := st[x].value;
    var st1 := st[x := Some(Cache(c.deps + {y}, c.instances + [inst]))];
    assert Pending(st1) == Pending(st);
    UpdateBounded(g, st, x, Cache(c.deps + {y}, c.instances + [inst]), t);
    ResolveBounded(entries, g, st1, y, t);
    ResolveSound(entries, st1, y);
    var mid := Resolve(entries, st1, y);
    if mid.result.Ok? {
      var c2 := mid.st[x].value;
      if g[x] <= t {
        assert g[y] <= t;
      }
      UpdateBounded(g, mid.st, x, Cache(c2.deps + mid.result.value, c2.instances), t);
    }
  }

  /** Setting the cache of `x` keeps `Bounded` when the new set is allowed for `x`. */
  lemma UpdateBounded(g: map<Symbol, set<Symbol>>, st: State, x: Symbol, c: Cache, t: set<Symbol>)
    requires Bounded(g, st, t) && x in st
    requires x in g && g[x] <= t ==> c.deps <= t
    ensures Bounded(g, st[x := Some(c)], t)
  {
  }

  lemma {:induction false} ResolveFromBounded(entries: map<string, Symbol>, g: map<Symbol, set<Symbol>>, st: State,
                                              x: Symbol, rs: seq<Result<SymbolInstance>>, i: nat, t: set<Symbol>)
    requires x in st && st[x].Some? && entries.Values <= st.Keys <= g.Keys && HasEdges(entries, g) && i <= |rs|
    requires Targets(rs, entries.Values)
    requires forall j :: 0 <= j < |rs| && rs[j].Ok? ==> rs[j].value.symbol in g[x]
    requires Closed(g, t) && Bounded(g, st, t)
    ensures Bounded(g, ResolveFrom(entries, st, x, rs, i).st, t)
    decreases Pending(st), 2, |rs| - i
  {
    if i < |rs| && rs[i].Ok? {
      AbsorbBounded(entries, g, st, x, rs[i].value, t);
      var step := Absorb(entries, st, x, rs[i].value);
      if step.result.Ok? {
        ResolveFromBounded(entries, g, step.st, x, rs, i + 1, t);
      }
    }
  }

  /** Starting with no symbol resolved, a successful resolution of `x` gives a set
      within every closed set that holds the direct dependencies of `x`: in particular
      within the transitive dependencies `TransitiveDeps` computes. */
  lemma ResolvedWithinClosure(entries: map<string, Symbol>, st: State, x: Symbol, t: set<Symbol>)
    requires x in st && entries.Values <= st.Keys
    requires forall s :: s in st ==> st[s].None?
    requires Resolve(entries, st, x).result.Ok?
    requires DirectGraph(entries, st.Keys)[x] <= t && Closed(DirectGraph(entries, st.Keys), t)
    ensures Resolve(entries, st, x).result.value <= t
  {
    ResolveBounded(entries, DirectGraph(entries, st.Keys), st, x, t);
    ResolveSound(entries, st, x);
  }

  // ---------------------------------------------------------------- the cycle

  /** `b`, whose one instance is of `a`, is asked while `a` holds the partial cache
      `{b}`: it takes in `a`, gets `{b}` back, and keeps `{a, b}`. */
  lemma CycleInner(entries: map<string, Symbol>, st: State, a: Symbol, b: Symbol, ia: SymbolInstance, ib: SymbolInstance)
    requires a != b && a in st && b in st && entries.Values <= st.Keys
    requires st[a] == Some(Cache({b}, [ib])) && st[b].None?
    requires ia.symbol == a && a in entries.Values
    requires Instantiations(entries, Occurrences(b.timelines)) == [Ok(ia)]
    ensures Resolve(entries, st, b) == Outcome(st[b := Some(Cache({a, b}, [ia]))], Ok({a, b}))
  {
    var rb := [Ok(ia)];
    var st3 := st[b := Some(Cache({}, []))];
    var st4 := st[b := Some(Cache({a}, [ia]))];
    assert st3[b := Some(Cache({} + {a}, [] + [ia]))] == st4 by {
      assert {} + {a} == {a} && [] + [ia] == [ia];
    }
    assert Resolve(entries, st4, a) == Outcome(st4, Ok({b}));
    var st5 := st[b := Some(Cache({a, b}, [ia]))];
    assert st4[b := Some(Cache({a} + {b}, [ia]))] == st5 by {
      assert {a} + {b} == {a, b};
    }
    assert Absorb(entries, st3, b, ia) == Outcome(st5, Ok({a, b}));
    assert ResolveFrom(entries, st5, b, rb, 1) == Outcome(st5, Ok({a, b}));
    assert ResolveFrom(entries, st3, b, rb, 0) == Outcome(st5, Ok({a, b}));
  }

  /** A symbol without instances resolves to the empty set. */
  lemma Leaf(entries: map<string, Symbol>, st: State, c: Symbol)
    requires c in st && entries.Values <= st.Keys && st[c].None?
    requires Instantiations(entries, Occurrences(c.timelines)) == []
    ensures Resolve(entries, st, c) == Outcome(st[c := Some(Cache({}, []))], Ok({}))
  {
    assert ResolveFrom(entries, st[c := Some(Cache({}, []))], c, [], 0)
      == Outcome(st[c := Some(Cache({}, []))], Ok({}));
  }

  /** `a`, holding `{a, b}` after its first instance, takes in its second instance `c`,
      which has no instances of its own. */
  lemma CycleTail(entries: map<string, Symbol>, st: State, a: Symbol, b: Symbol, c: Symbol,
                  ib: SymbolInstance, ic: SymbolInstance)
    requires a != c && a in st && c in st && entries.Values <= st.Keys
    requires st[a] == Some(Cache({a, b}, [ib])) && st[c].None?
    requires ic.symbol == c && c in entries.Values
    requires Instantiations(entries, Occurrences(c.timelines)) == []
    requires Targets([Ok(ib), Ok(ic)], entries.Values)
    ensures var st9 := st[c := Some(Cache({}, []))][a := Some(Cache({a, b, c}, [ib, ic]))];
      ResolveFrom(entries, st, a, [Ok(ib), Ok(ic)], 1) == Outcome(st9, Ok({a, b, c}))
  {
    var ra := [Ok(ib), Ok(ic)];
    var st7 := st[a := Some(Cache({a, b, c}, [ib, ic]))];
    assert st[a := Some(Cache({a, b} + {c}, [ib] + [ic]))] == st7 by {
      assert {a, b} + {c} == {a, b, c} && [ib] + [ic] == [ib, ic];
    }
    Leaf(entries, st7, c);
    var st8 := st7[c := Some(Cache({}, []))];
    var st9 := st[c := Some(Cache({}, []))][a := Some(Cache({a, b, c}, [ib, ic]))];
    assert st8[a := Some(Cache({a, b, c} + {}, [ib, ic]))] == st9 by {
      assert {a, b, c} + {} == {a, b, c};
    }
    assert Absorb(entries, st, a, ic) == Outcome(st9, Ok({a, b, c}));
    assert ResolveFrom(entries, st9, a, ra, 2) == Outcome(st9, Ok({a, b, c}));
  }

  /** Three symbols where `a` instantiates `b` and then `c`, `b` instantiates `a`, and
      `c` instantiates nothing. Asking `a` first leaves `b` with the cache `{a, b}`:
      `b` asked `a` while `a` was still being filled, and `a` had only `b` then. So `c`
      is reachable from `b` (through `a`) and is in the set of `a`, but not in the set
      of `b`, and `b`'s set is not closed. */
  lemma CycleLosesDependency(entries: map<string, Symbol>, a: Symbol, b: Symbol, c: Symbol,
                             ia: SymbolInstance, ib: SymbolInstance, ic: SymbolInstance)
    requires a != b && b != c && a != c
    requires entries.Values == {a, b, c}
    requires ia.symbol == a && ib.symbol == b && ic.symbol == c
    requires Instantiations(entries, Occurrences(a.timelines)) == [Ok(ib), Ok(ic)]
    requires Instantiations(entries, Occurrences(b.timelines)) == [Ok(ia)]
    requires Instantiations(entries, Occurrences(c.timelines)) == []
    ensures var out := Resolve(entries, map[a := None, b := None, c := None], a);
      && out.result == Ok({a, b, c})
      && out.st[b] == Some(Cache({a, b}, [ia]))
      && a in out.st[b].value.deps && c in out.st[a].value.deps && c !in out.st[b].value.deps
      && !Closed(DirectGraph(entries, {a, b, c}), out.st[b].value.deps)
  {
    var st0: State := map[a := None, b := None, c := None];
    var ra := [Ok(ib), Ok(ic)];
    // `a` starts with an empty cache and takes in `b`, which answers `{a, b}`.
    var st1 := st0[a := Some(Cache({}, []))];
    var st2 := st0[a := Some(Cache({b}, [ib]))];
    assert st1[a := Some(Cache({} + {b}, [] + [ib]))] == st2 by {
      assert {} + {b} == {b} && [] + [ib] == [ib];
    }
    CycleInner(entries, st2, a, b, ia, ib);
    var st5 := st2[b := Some(Cache({a, b}, [ia]))];
    var st6 := st5[a := Some(Cache({a, b}, [ib]))];
    assert st5[a := Some(Cache({b} + {a, b}, [ib]))] == st6 by {
      assert {b} + {a, b} == {a, b};
    }
    assert Absorb(entries, st1, a, ib) == Outcome(st6, Ok({a, b}));
    // `a` then takes in `c`, which has no instances.
    CycleTail(entries, st6, a, b, c, ib, ic);
    var st9 := st6[c := Some(Cache({}, []))][a := Some(Cache({a, b, c}, [ib, ic]))];
    assert ResolveFrom(entries, st1, a, ra, 0) == Outcome(st9, Ok({a, b, c}));
    assert st9[b] == Some(Cache({a, b}, [ia]));
    var g := DirectGraph(entries, {a, b, c});
    assert c in g[a] by {
      assert ra[1].Ok? && ra[1].value.symbol == c;
    }
    assert a in g && a in st9[b].value.deps && c !in st9[b].value.deps;
  }
}
