/** Library symbols: the parts of a symbol's backing document the library reads, the
    `SymbolInstance` records found on its timelines, the lazily computed and cached
    dependency set, and the linkage (exported class name) accessors.

    Dependency resolution is a recursive method over `Symbol` objects that fills
    their caches in place. It is proved equal to `Resolve`, a function over a snapshot
    of all caches; the properties of the resolution are stated about `Resolve`. */
module Symbols {
  import opened Common
  import opened PyStrings
  import opened Attributes
  import opened Markup

  // ---------------------------------------------------------------- backing documents

  /** A `DOMFrame` element: its attributes and the `DOMSymbolInstance` elements in it. */
  datatype Frame = Frame(attrib: Attrs, instances: seq<Attrs>)

  /** A `DOMLayer` element and its frames. */
  datatype Layer = Layer(attrib: Attrs, frames: seq<Frame>)

  /** A `DOMTimeline` element and its layers. */
  datatype Timeline = Timeline(attrib: Attrs, layers: seq<Layer>)

  /** A parsed symbol file: the namespace of its root tag, the root's attributes and the
      timelines in document order. */
  datatype SymbolDom = SymbolDom(namespace: string, root: Attrs, timelines: seq<Timeline>)

  /** One symbol instance with the frame, layer and timeline it was found in. */
  datatype Occurrence = Occurrence(timeline: Attrs, layer: Attrs, frame: Attrs, instance: Attrs)

  function FrameOccurrences(t: Attrs, l: Attrs, f: Frame): (r: seq<Occurrence>)
    ensures |r| == |f.instances|
    ensures forall k :: 0 <= k < |r| ==> r[k] == Occurrence(t, l, f.attrib, f.instances[k])
  {
    seq(|f.instances|, k requires 0 <= k < |f.instances| => Occurrence(t, l, f.attrib, f.instances[k]))
  }

  function FramesOccurrences(t: Attrs, l: Attrs, fs: seq<Frame>): seq<Occurrence>
  {
    if fs == [] then [] else FrameOccurrences(t, l, fs[0]) + FramesOccurrences(t, l, fs[1..])
  }

  function LayersOccurrences(t: Attrs, ls: seq<Layer>): seq<Occurrence>
  {
    if ls == [] then [] else FramesOccurrences(t, ls[0].attrib, ls[0].frames) + LayersOccurrences(t, ls[1..])
  }

  /** The instances the four nested loops of `_dependencies` visit, in visiting order:
      timeline by timeline, layer by layer, frame by frame. */
  function Occurrences(ts: seq<Timeline>): seq<Occurrence>
  {
    if ts == [] then [] else LayersOccurrences(ts[0].attrib, ts[0].layers) + Occurrences(ts[1..])
  }

  lemma {:induction false} FramesOccurrencesMembers(t: Attrs, l: Attrs, fs: seq<Frame>, o: Occurrence)
    ensures o in FramesOccurrences(t, l, fs) <==>
      o.timeline == t && o.layer == l && exists f :: f in fs && o.frame == f.attrib && o.instance in f.instances
  {
    if fs != [] {
      FramesOccurrencesMembers(t, l, fs[1..], o);
      var head := FrameOccurrences(t, l, fs[0]);
      if o in head {
        var k :| 0 <= k < |head| && head[k] == o;
        assert fs[0] in fs && o.instance == fs[0].instances[k];
      }
      if o.timeline == t && o.layer == l && o.frame == fs[0].attrib && o.instance in fs[0].instances {
        var k :| 0 <= k < |fs[0].instances| && fs[0].instances[k] == o.instance;
        assert head[k] == o;
      }
      assert forall f :: f in fs <==> f == fs[0] || f in fs[1..];
    }
  }

  lemma {:induction false} LayersOccurrencesMembers(t: Attrs, ls: seq<Layer>, o: Occurrence)
    ensures o in LayersOccurrences(t, ls) <==>
      o.timeline == t &&
      (exists l, f :: l in ls && f in l.frames && o.layer == l.attrib &&
         o.frame == f.attrib && o.instance in f.instances)
  {
    if ls != [] {
      LayersOccurrencesMembers(t, ls[1..], o);
      FramesOccurrencesMembers(t, ls[0].attrib, ls[0].frames, o);
      assert forall l :: l in ls <==> l == ls[0] || l in ls[1..];
    }
  }

  /** An occurrence is visited exactly when its instance lies in a frame of a layer of a
      timeline of the document, and it carries the attributes of those three. */
  lemma {:induction false} OccurrencesMembers(ts: seq<Timeline>, o: Occurrence)
    ensures o in Occurrences(ts) <==>
      exists t, l, f :: t in ts && l in t.layers && f in l.frames && o.timeline == t.attrib &&
        o.layer == l.attrib && o.frame == f.attrib && o.instance in f.instances
  {
    if ts != [] {
      OccurrencesMembers(ts[1..], o);
      LayersOccurrencesMembers(ts[0].attrib, ts[0].layers, o);
      assert forall t :: t in ts <==> t == ts[0] || t in ts[1..];
    }
  }

  // ---------------------------------------------------------------- instances

  /** `SymbolInstance`: the instantiated symbol, the instance name, the 1-based frame
      number and the names of the layer and timeline. */
  datatype SymbolInstance = SymbolInstance(symbol: Symbol, name: string, frame: int, layer: string, timeline: string)

  /** The body of the innermost loop of `_dependencies` up to the point where the
      instance is recorded: the library item name with `:`, `<` and `>` replaced by
      character references, the strict lookup in the owner's symbol map, then the
      `SymbolInstance` constructor with `int(index) + 1`. Every failure is the
      exception Python raises at that point, in evaluation order. */
  function Instantiate(entries: map<string, Symbol>, o: Occurrence): (r: Result<SymbolInstance>)
    ensures r.Ok? ==> r.value.symbol in entries.Values
  {
    var raw :- Lookup(o.instance, "libraryItemName");
    var key := FixEntities(raw, EntitiesFix);
    if key !in entries then Err(KeyError(key))
    else
      var name :- Lookup(o.instance, "name");
      var index :- Lookup(o.frame, "index");
      var layer :- Lookup(o.layer, "name");
      var timeline :- Lookup(o.timeline, "name");
      var n :- ParseInt(index);
      Ok(SymbolInstance(entries[key], name, n + 1, layer, timeline))
  }

  /** The outcomes of building one instance: a missing `libraryItemName` or a name not
      in the map is the `KeyError` for that key; a built instance is of the symbol the
      fixed name maps to and carries the instance, layer and timeline names and the
      frame index plus one. */
  lemma InstantiateCases(entries: map<string, Symbol>, o: Occurrence)
    ensures var r := Instantiate(entries, o);
      Get(o.instance, "libraryItemName").None? ==> r == Err(KeyError("libraryItemName"))
    ensures var r := Instantiate(entries, o);
      Get(o.instance, "libraryItemName").Some? ==>
        var key := FixEntities(Get(o.instance, "libraryItemName").value, EntitiesFix);
        && (key !in entries ==> r == Err(KeyError(key)))
        && (r.Ok? ==> key in entries && r.value.symbol == entries[key])
    ensures var r := Instantiate(entries, o);
      r.Ok? ==>
        && Get(o.instance, "libraryItemName").Some?
        && Get(o.instance, "name") == Some(r.value.name)
        && Get(o.layer, "name") == Some(r.value.layer)
        && Get(o.timeline, "name") == Some(r.value.timeline)
        && Get(o.frame, "index").Some?
        && ParseInt(Get(o.frame, "index").value) == Ok(r.value.frame - 1)
  {
  }

  /** The outcomes once the fixed name is found in the map, in the order the source
      evaluates the constructor's arguments: the instance's `name`, the frame's
      `index`, the layer's and the timeline's `name`, each a `KeyError` when missing,
      then `int(index)`, a `ValueError` when it does not parse. When all of them are
      there and the index parses, the instance is built. */
  lemma InstantiateAfterLookup(entries: map<string, Symbol>, o: Occurrence)
    requires Get(o.instance, "libraryItemName").Some?
    requires FixEntities(Get(o.instance, "libraryItemName").value, EntitiesFix) in entries
    ensures var r := Instantiate(entries, o);
      Get(o.instance, "name").None? ==> r == Err(KeyError("name"))
    ensures var r := Instantiate(entries, o);
      Get(o.instance, "name").Some? && Get(o.frame, "index").None? ==> r == Err(KeyError("index"))
    ensures var r := Instantiate(entries, o);
      (Get(o.instance, "name").Some? && Get(o.frame, "index").Some? &&
       (Get(o.layer, "name").None? || Get(o.timeline, "name").None?)) ==> r == Err(KeyError("name"))
    ensures var r := Instantiate(entries, o);
      var key := FixEntities(Get(o.instance, "libraryItemName").value, EntitiesFix);
      (Get(o.instance, "name").Some? && Get(o.frame, "index").Some? &&
       Get(o.layer, "name").Some? && Get(o.timeline, "name").Some?) ==>
        var index := Get(o.frame, "index").value;
        && (ParseInt(index).Err? ==> r == Err(ValueError(index)))
        && (ParseInt(index).Ok? ==>
              r == Ok(SymbolInstance(entries[key], Get(o.instance, "name").value, ParseInt(index).value + 1,
                                     Get(o.layer, "name").value, Get(o.timeline, "name").value)))
  {
  }

  /** A frame written as `"%d" % n` in the document gives an instance on frame `n + 1`;
      in particular index "0" is frame 1. */
  lemma InstanceFrame(entries: map<string, Symbol>, o: Occurrence, n: nat)
    requires Get(o.frame, "index") == Some(Decimal(n))
    requires Instantiate(entries, o).Ok?
    ensures Instantiate(entries, o).value.frame == n + 1
  {
    InstantiateCases(entries, o);
    ParseDecimal(n);
  }

  /** The instance (or the exception) each occurrence gives, in visiting order. */
  function Instantiations(entries: map<string, Symbol>, occs: seq<Occurrence>): (rs: seq<Result<SymbolInstance>>)
    ensures |rs| == |occs|
    ensures forall j :: 0 <= j < |rs| ==> rs[j] == Instantiate(entries, occs[j])
    ensures forall j :: 0 <= j < |rs| && rs[j].Ok? ==> rs[j].value.symbol in entries.Values
  {
    seq(|occs|, j requires 0 <= j < |occs| => Instantiate(entries, occs[j]))
  }

  /** The values of `rs[i..]`, or the first error among them: what a loop that stops at
      the first exception has produced when it gets to the end. */
  function Collect<T>(rs: seq<Result<T>>, i: nat): (r: Result<seq<T>>)
    requires i <= |rs|
    ensures r.Ok? <==> forall j :: i <= j < |rs| ==> rs[j].Ok?
    ensures r.Ok? ==> |r.value| == |rs| - i && forall j :: i <= j < |rs| ==> rs[j] == Ok(r.value[j - i])
    decreases |rs| - i
  {
    if i == |rs| then Ok([])
    else
      match rs[i]
      case Err(e) => Err(e)
      case Ok(v) =>
        match Collect(rs, i + 1)
        case Err(e) => Err(e)
        case Ok(rest) => Ok([v] + rest)
  }

  /** The direct instances of a symbol with timelines `ts`. */
  function DirectInstances(entries: map<string, Symbol>, ts: seq<Timeline>): Result<seq<SymbolInstance>>
  {
    Collect(Instantiations(entries, Occurrences(ts)), 0)
  }

  // ---------------------------------------------------------------- resolution

  /** The cached pair `(_depcache, _instances)` of one symbol. */
  datatype Cache = Cache(deps: set<Symbol>, instances: seq<SymbolInstance>)

  /** The caches of a set of symbols; `None` is a symbol not resolved yet. */
  type State = map<Symbol, Option<Cache>>

  /** The caches after a resolution, and its value or the exception that stopped it. */
  datatype Outcome<T> = Outcome(st: State, result: Result<T>)

  /** The symbols not resolved yet: resolution only ever shrinks this set. */
  function Pending(st: State): set<Symbol>
  {
    set s | s in st && st[s].None?
  }

  /** Every cached dependency set lies within `syms`. */
  predicate Within(st: State, syms: set<Symbol>)
  {
    forall s :: s in st && st[s].Some? ==> st[s].value.deps <= syms
  }

  /** Every instance in `rs` is of a symbol in `syms`. */
  predicate Targets(rs: seq<Result<SymbolInstance>>, syms: set<Symbol>)
  {
    forall j :: 0 <= j < |rs| && rs[j].Ok? ==> rs[j].value.symbol in syms
  }

  /** `x.dependencies` when the caches are `st` and the owner's symbol map is `entries`.
      A cached symbol answers from its cache and changes nothing. Otherwise its cache is
      set to an empty set and empty list before anything else, so that a symbol reached
      again through a cycle answers with what has been collected so far. */
  function Resolve(entries: map<string, Symbol>, st: State, x: Symbol): (out: Outcome<set<Symbol>>)
    requires x in st && entries.Values <= st.Keys
    ensures out.st.Keys == st.Keys
    ensures Pending(out.st) <= Pending(st) - {x}
    ensures forall s :: s in st && st[s].Some? ==> out.st[s] == st[s]
    ensures st[x].Some? ==> out == Outcome(st, Ok(st[x].value.deps))
    decreases Pending(st), 0
  {
    if st[x].Some? then Outcome(st, Ok(st[x].value.deps))
    else
      var st1 := st[x := Some(Cache({}, []))];
      assert x in Pending(st) && Pending(st1) == Pending(st) - {x};
      ResolveFrom(entries, st1, x, Instantiations(entries, Occurrences(x.timelines)), 0)
  }

  /** The body of the innermost loop once the instance is built: append it to the
      instances of `x`, add its symbol to the set of `x`, resolve that symbol and join
      its set in. The value is the new set of `x`. */
  function Absorb(entries: map<string, Symbol>, st: State, x: Symbol, inst: SymbolInstance): (out: Outcome<set<Symbol>>)
    requires x in st && st[x].Some? && entries.Values <= st.Keys && inst.symbol in entries.Values
    ensures out.st.Keys == st.Keys
    ensures Pending(out.st) <= Pending(st)
    ensures forall s :: s in st && st[s].Some? && s != x ==> out.st[s] == st[s]
    ensures out.st[x].Some?
    decreases Pending(st), 1
  {
    var c := st[x].value;
    var st1 := st[x := Some(Cache(c.deps + {inst.symbol}, c.instances + [inst]))];
    assert Pending(st1) == Pending(st);
    var mid := Resolve(entries, st1, inst.symbol);
    match mid.result
    case Err(e) => Outcome(mid.st, Err(e))
    case Ok(ys) =>
      var c2 := mid.st[x].value;
      Outcome(mid.st[x := Some(Cache(c2.deps + ys, c2.instances))], Ok(c2.deps + ys))
  }

  /** The loop of `_dependencies` from occurrence `i` on, for the symbol `x` whose cache
      is being filled; `rs` holds what each occurrence gives. An exception stops the
      loop and leaves the caches as far as they got. */
  function ResolveFrom(entries: map<string, Symbol>, st: State, x: Symbol, rs: seq<Result<SymbolInstance>>, i: nat)
    : (out: Outcome<set<Symbol>>)
    requires x in st && st[x].Some? && entries.Values <= st.Keys && i <= |rs|
    requires Targets(rs, entries.Values)
    ensures out.st.Keys == st.Keys
    ensures Pending(out.st) <= Pending(st)
    ensures forall s :: s in st && st[s].Some? && s != x ==> out.st[s] == st[s]
    ensures out.st[x].Some?
    decreases Pending(st), 2, |rs| - i
  {
    if i == |rs| then Outcome(st, Ok(st[x].value.deps))
    else
      match rs[i]
      case Err(e) => Outcome(st, Err(e))
      case Ok(inst) =>
        var step := Absorb(entries, st, x, inst);
        if step.result.Err? then step else ResolveFrom(entries, step.st, x, rs, i + 1)
  }

  /** The dependency set `deps` of `x` holds the symbol of every instance in `insts`,
      and, for each of those symbols other than `x`, the set that symbol has cached in
      `st`. */
  predicate Covers(st: State, x: Symbol, deps: set<Symbol>, insts: seq<SymbolInstance>)
  {
    forall k :: 0 <= k < |insts| ==>
      && insts[k].symbol in deps
      && (insts[k].symbol != x ==>
            insts[k].symbol in st && st[insts[k].symbol].Some? && st[insts[k].symbol].value.deps <= deps)
  }

  /** What a resolution establishes. On success the value is the new cached set; for a
      symbol that had no cache, the cached instance list is the list of its direct
      instances in visiting order, and the set covers them: it holds the symbol of every
      one of them and the set each of them (other than `x` itself) has cached when `x` is
      done. */
  lemma {:induction false} ResolveSound(entries: map<string, Symbol>, st: State, x: Symbol)
    requires x in st && entries.Values <= st.Keys
    ensures var out := Resolve(entries, st, x);
      out.result.Ok? ==> out.st[x].Some? && out.result.value == out.st[x].value.deps
    ensures var out := Resolve(entries, st, x);
      st[x].None? && out.result.Ok? ==>
        && DirectInstances(entries, x.timelines).Ok?
        && out.st[x].value.instances == DirectInstances(entries, x.timelines).value
        && Covers(out.st, x, out.result.value, out.st[x].value.instances)
    decreases Pending(st), 0
  {
    if st[x].None? {
      var st1 := st[x := Some(Cache({}, []))];
      assert x in Pending(st) && Pending(st1) == Pending(st) - {x};
      ResolveFromSound(entries, st1, x, Instantiations(entries, Occurrences(x.timelines)), 0);
    }
  }

  lemma {:induction false} AbsorbSound(entries: map<string, Symbol>, st: State, x: Symbol, inst: SymbolInstance)
    requires x in st && st[x].Some? && entries.Values <= st.Keys && inst.symbol in entries.Values
    ensures var out := Absorb(entries, st, x, inst);
      out.result.Ok? ==>
        && out.result.value == out.st[x].value.deps
        && out.st[x].value.instances == st[x].value.instances + [inst]
        && st[x].value.deps + {inst.symbol} <= out.result.value
        && (inst.symbol != x ==>
              out.st[inst.symbol].Some? && out.st[inst.symbol].value.deps <= out.result.value)
    decreases Pending(st), 1
  {
    var c := st[x].value;
    var st1 := st[x := Some(Cache(c.deps + {inst.symbol}, c.instances + [inst]))];
    assert Pending(st1) == Pending(st);
    ResolveSound(entries, st1, inst.symbol);
  }

  lemma {:induction false} ResolveFromSound(entries: map<string, Symbol>, st: State, x: Symbol,
                                            rs: seq<Result<SymbolInstance>>, i: nat)
    requires x in st && st[x].Some? && entries.Values <= st.Keys && i <= |rs|
    requires Targets(rs, entries.Values)
    ensures var out := ResolveFrom(entries, st, x, rs, i);
      out.result.Ok? ==>
        && out.result.value == out.st[x].value.deps
        && Collect(rs, i).Ok?
        && out.st[x].value.instances == st[x].value.instances + Collect(rs, i).value
        && st[x].value.deps <= out.result.value
        && Covers(out.st, x, out.result.value, Collect(rs, i).value)
    decreases Pending(st), 2, |rs| - i
  {
    if i == |rs| {
      assert st[x].value.instances + [] == st[x].value.instances;
    } else if rs[i].Ok? {
      var inst := rs[i].value;
      var step := Absorb(entries, st, x, inst);
      AbsorbSound(entries, st, x, inst);
      if step.result.Ok? {
        ResolveFromSound(entries, step.st, x, rs, i + 1);
        var out := ResolveFrom(entries, step.st, x, rs, i + 1);
        assert out == ResolveFrom(entries, st, x, rs, i);
        if out.result.Ok? {
          var rest := Collect(rs, i + 1).value;
          assert Collect(rs, i) == Ok([inst] + rest);
          SoundStep(x, st[x].value, inst, step, out, rest);
        }
      }
    }
  }

  /** One step of `ResolveFromSound`, on the outcomes alone: `step` is what absorbing
      `inst` gave and `out` what the rest of the loop gave after it. */
  lemma SoundStep(x: Symbol, c: Cache, inst: SymbolInstance, step: Outcome<set<Symbol>>,
                  out: Outcome<set<Symbol>>, rest: seq<SymbolInstance>)
    requires x in step.st && step.st[x].Some? && step.result.Ok?
    requires step.result.value == step.st[x].value.deps
    requires step.st[x].value.instances == c.instances + [inst]
    requires c.deps + {inst.symbol} <= step.result.value
    requires inst.symbol != x ==>
      inst.symbol in step.st && step.st[inst.symbol].Some? && step.st[inst.symbol].value.deps <= step.result.value
    requires x in out.st && out.st[x].Some? && out.result.Ok?
    requires out.result.value == out.st[x].value.deps
    requires out.st[x].value.instances == step.st[x].value.instances + rest
    requires step.st[x].value.deps <= out.result.value
    requires Covers(out.st, x, out.result.value, rest)
    requires inst.symbol != x ==> inst.symbol in out.st && out.st[inst.symbol] == step.st[inst.symbol]
    ensures out.st[x].value.instances == c.instances + ([inst] + rest)
    ensures c.deps <= out.result.value
    ensures Covers(out.st, x, out.result.value, [inst] + rest)
  {
    assert (c.instances + [inst]) + rest == c.instances + ([inst] + rest);
    CoversCons(out.st, x, out.result.value, inst, rest);
  }

  lemma CoversCons(st: State, x: Symbol, deps: set<Symbol>, inst: SymbolInstance, rest: seq<SymbolInstance>)
    requires Covers(st, x, deps, rest)
    requires inst.symbol in deps
    requires inst.symbol != x ==> inst.symbol in st && st[inst.symbol].Some? && st[inst.symbol].value.deps <= deps
    ensures Covers(st, x, deps, [inst] + rest)
  {
    var all := [inst] + rest;
    forall k | 0 <= k < |all|
      ensures all[k].symbol in deps
    {
      if k > 0 {
        assert all[k] == rest[k - 1];
      }
    }
  }

  /** Cached sets never leave the owner's symbols. */
  lemma {:induction false} ResolveWithin(entries: map<string, Symbol>, st: State, x: Symbol)
    requires x in st && entries.Values <= st.Keys
    requires Within(st, entries.Values)
    ensures Within(Resolve(entries, st, x).st, entries.Values)
    decreases Pending(st), 0
  {
    if st[x].None? {
      var st1 := st[x := Some(Cache({}, []))];
      assert x in Pending(st) && Pending(st1) == Pending(st) - {x};
      ResolveFromWithin(entries, st1, x, Instantiations(entries, Occurrences(x.timelines)), 0);
    }
  }

  lemma {:induction false} AbsorbWithin(entries: map<string, Symbol>, st: State, x: Symbol, inst: SymbolInstance)
    requires x in st && st[x].Some? && entries.Values <= st.Keys && inst.symbol in entries.Values
    requires Within(st, entries.Values)
    ensures Within(Absorb(entries, st, x, inst).st, entries.Values)
    decreases Pending(st), 1
  {
    var c := st[x].value;
    var st1 := st[x := Some(Cache(c.deps + {inst.symbol}, c.instances + [inst]))];
    assert Pending(st1) == Pending(st);
    assert Within(st1, entries.Values);
    ResolveWithin(entries, st1, inst.symbol);
    ResolveSound(entries, st1, inst.symbol);
  }

  lemma {:induction false} ResolveFromWithin(entries: map<string, Symbol>, st: State, x: Symbol,
                                             rs: seq<Result<SymbolInstance>>, i: nat)
    requires x in st && st[x].Some? && entries.Values <= st.Keys && i <= |rs|
    requires Targets(rs, entries.Values)
    requires Within(st, entries.Values)
    ensures Within(ResolveFrom(entries, st, x, rs, i).st, entries.Values)
    decreases Pending(st), 2, |rs| - i
  {
    if i < |rs| && rs[i].Ok? {
      AbsorbWithin(entries, st, x, rs[i].value);
      var step := Absorb(entries, st, x, rs[i].value);
      if step.result.Ok? {
        ResolveFromWithin(entries, step.st, x, rs, i + 1);
      }
    }
  }

  /** `x.instances`: resolves `x` first when it has no cache yet. */
  function ResolveInstances(entries: map<string, Symbol>, st: State, x: Symbol): (out: Outcome<seq<SymbolInstance>>)
    requires x in st && entries.Values <= st.Keys
    ensures st[x].Some? ==> out == Outcome(st, Ok(st[x].value.instances))
    ensures st[x].None? && out.result.Ok? ==>
      DirectInstances(entries, x.timelines) == Ok(out.result.value)
  {
    if st[x].Some? then Outcome(st, Ok(st[x].value.instances))
    else
      var out := Resolve(entries, st, x);
      ResolveSound(entries, st, x);
      match out.result
      case Err(e) => Outcome(out.st, Err(e))
      case Ok(_) => Outcome(out.st, Ok(out.st[x].value.instances))
  }

  /** Dependencies are computed at most once: asking again after a successful resolution
      returns the same set and changes no cache. */
  lemma ResolveTwice(entries: map<string, Symbol>, st: State, x: Symbol)
    requires x in st && entries.Values <= st.Keys
    requires Resolve(entries, st, x).result.Ok?
    ensures var out := Resolve(entries, st, x);
      Resolve(entries, out.st, x) == out
  {
    ResolveSound(entries, st, x);
  }

  // ---------------------------------------------------------------- objects

  /** The dictionary object a symbol resolves library item names in: the `symbols` map
      of the FLA that loaded it. */
  class SymbolTable {
    var entries: map<string, Symbol>

    constructor (entries: map<string, Symbol>)
      ensures this.entries == entries
    {
      this.entries := entries;
    }

    /** Every symbol in the map was loaded into this map. */
    predicate Owns()
      reads this
    {
      forall s :: s in entries.Values ==> s.table == this
    }
  }

  /** The caches of the symbols in `syms`. */
  ghost function Snapshot(syms: set<Symbol>): (st: State)
    reads syms
    ensures st.Keys == syms
  {
    map s | s in syms :: s.cache
  }

  /** Python's truth test on the cached linkage: `None` and `""` are false. */
  predicate Truthy(linkage: Option<string>)
  {
    linkage.Some? && linkage.value != ""
  }

  /** What `_get_linkage` returns: a truthy cached name, otherwise the root's
      `linkageClassName`, `None` when the root has none. */
  function LinkageOf(cached: Option<string>, root: Attrs): Option<string>
  {
    if Truthy(cached) then cached else Get(root, "linkageClassName")
  }

  /** The value `_get_linkage` stores is the value it returns, so a second read returns
      the same name. */
  lemma LinkageStable(cached: Option<string>, root: Attrs)
    ensures LinkageOf(LinkageOf(cached, root), root) == LinkageOf(cached, root)
  {
  }

  /** The root attributes after `_set_linkage(name)`. */
  function LinkedRoot(root: Attrs, name: string): Attrs
  {
    Put(Put(root, "linkageClassName", name), "linkageExportForAS", "true")
  }

  /** After `_set_linkage(name)` the linkage reads back as `name`, whether or not `name`
      is empty; the symbol is exported for ActionScript; nothing else on the root
      changes. */
  lemma LinkageAfterSet(root: Attrs, name: string)
    ensures LinkageOf(Some(name), LinkedRoot(root, name)) == Some(name)
    ensures Get(LinkedRoot(root, name), "linkageExportForAS") == Some("true")
    ensures forall k :: k != "linkageClassName" && k != "linkageExportForAS" ==>
      Get(LinkedRoot(root, name), k) == Get(root, k)
  {
  }

  /** One library item: its `Include` tag attributes, its backing file and parsed
      document, the linkage cache and the dependency cache. */
  class Symbol {
    /** `tag['href']` at load time. */
    const href: string
    /** `basename(href)[:-4]`. */
    const name: string
    /** `_symbols`: the map library item names are looked up in. */
    const table: SymbolTable
    /** The timelines of the backing document, which the library never changes. */
    const timelines: seq<Timeline>
    /** `attrs`: the `Include` tag's attributes. */
    var attrs: Attrs
    /** `dom.attrib`: the backing document's root attributes, `xmlns` included. */
    var rootAttrs: Attrs
    /** `xml`: the path of the backing file. */
    var xml: string
    /** `_linkage`. */
    var linkage: Option<string>
    /** `_depcache` and `_instances`, which are always `None` together. */
    var cache: Option<Cache>

    /** The tag still carries the href the symbol was loaded with. */
    ghost predicate Valid()
      reads this`attrs
    {
      Get(attrs, "href") == Some(href)
    }

    /** `Symbol(tag, symbols, directory)`, given the parsed backing document. */
    constructor (tag: Attrs, table: SymbolTable, directory: string, dom: SymbolDom)
      requires Get(tag, "href").Some?
      ensures Valid()
      ensures href == Get(tag, "href").value && attrs == tag
      ensures name == DropLast(Basename(href), 4)
      ensures this.table == table && timelines == dom.timelines
      ensures xml == directory + "/LIBRARY/" + href
      ensures rootAttrs == Put(dom.root, "xmlns", dom.namespace)
      ensures linkage == None && cache == None
    {
      href := Get(tag, "href").value;
      name := DropLast(Basename(Get(tag, "href").value), 4);
      this.table := table;
      timelines := dom.timelines;
      attrs := tag;
      xml := directory + "/LIBRARY/" + Get(tag, "href").value;
      rootAttrs := Put(dom.root, "xmlns", dom.namespace);
      linkage := None;
      cache := None;
    }

    /** `to_xml`: the self-closing `Include` tag of the library listing. */
    function ToXml(): (r: string)
      reads this
      ensures |r| >= 2 && r[|r| - 2..] == "/>"
    {
      TagEnding("Include", attrs, true);
      TagFromAttrs("Include", attrs, true)
    }

    /** The `linkage` getter. */
    method GetLinkage() returns (r: Option<string>)
      modifies this`linkage
      ensures r == LinkageOf(old(linkage), rootAttrs)
      ensures linkage == r
    {
      if Truthy(linkage) {
        return linkage;
      }
      linkage := Get(rootAttrs, "linkageClassName");
      r := linkage;
    }

    /** The `linkage` setter. Returns the new `DOMSymbolItem` opening tag that the source
        writes over the one in the backing file. */
    method SetLinkage(n: string) returns (tag: string)
      modifies this`rootAttrs, this`attrs, this`linkage
      ensures rootAttrs == LinkedRoot(old(rootAttrs), n)
      ensures tag == TagFromAttrs("DOMSymbolItem", rootAttrs, false)
      ensures attrs == if Get(old(attrs), "loadImmediate").Some? then Delete(old(attrs), "loadImmediate") else old(attrs)
      ensures Get(attrs, "loadImmediate") == None
      ensures forall k :: k != "loadImmediate" ==> Get(attrs, k) == Get(old(attrs), k)
      ensures linkage == Some(n)
      ensures old(Valid()) ==> Valid()
    {
      rootAttrs := Put(rootAttrs, "linkageClassName", n);
      rootAttrs := Put(rootAttrs, "linkageExportForAS", "true");
      tag := TagFromAttrs("DOMSymbolItem", rootAttrs, false);
      if Get(attrs, "loadImmediate").Some? {
        attrs := Delete(attrs, "loadImmediate");
      }
      linkage := Some(n);
    }

    /** The `dependencies` property. `within` names the symbols whose caches the call may
        fill: any set holding this symbol and every symbol of its table. */
    method Dependencies(ghost within: set<Symbol>) returns (r: Result<set<Symbol>>)
      requires this in within && table.entries.Values <= within && table.Owns()
      modifies within`cache
      ensures Outcome(Snapshot(within), r) == Resolve(table.entries, old(Snapshot(within)), this)
      decreases Pending(Snapshot(within)), 0
    {
      ghost var st0 := Snapshot(within);
      ghost var goal := Resolve(table.entries, st0, this);
      if cache.Some? {
        return Ok(cache.value.deps);
      }
      Store(within, Cache({}, []));
      var occs := Occurrences(timelines);
      ghost var rs := Instantiations(table.entries, occs);
      var i := 0;
      while i < |occs|
        invariant 0 <= i <= |occs|
        invariant cache.Some?
        invariant Pending(Snapshot(within)) <= Pending(st0) - {this}
        invariant ResolveFrom(table.entries, Snapshot(within), this, rs, i) == goal
      {
        var deps := Visit(within, occs[i], rs, i);
        if deps.Err? {
          return deps;
        }
        i := i + 1;
      }
      assert ResolveFrom(table.entries, Snapshot(within), this, rs, i) == Outcome(Snapshot(within), Ok(cache.value.deps));
      r := Ok(cache.value.deps);
    }

    /** One pass of the innermost loop body: build the instance the occurrence names
        (the first exception ends the whole resolution) and take it in. */
    method Visit(ghost within: set<Symbol>, occ: Occurrence, ghost rs: seq<Result<SymbolInstance>>, ghost i: nat)
      returns (r: Result<set<Symbol>>)
      requires this in within && table.entries.Values <= within && table.Owns()
      requires cache.Some? && i < |rs| && rs[i] == Instantiate(table.entries, occ)
      requires Targets(rs, table.entries.Values)
      modifies within`cache
      ensures cache.Some? && Pending(Snapshot(within)) <= old(Pending(Snapshot(within)))
      ensures r.Err? ==>
        Outcome(Snapshot(within), r) == ResolveFrom(table.entries, old(Snapshot(within)), this, rs, i)
      ensures r.Ok? ==>
        ResolveFrom(table.entries, Snapshot(within), this, rs, i + 1)
          == ResolveFrom(table.entries, old(Snapshot(within)), this, rs, i)
      decreases Pending(Snapshot(within)), 2
    {
      var res := Instantiate(table.entries, occ);
      if res.Err? {
        return Err(res.error);
      }
      r := AddInstance(within, res.value);
    }

    /** One pass of the innermost loop body once the instance is built. */
    method AddInstance(ghost within: set<Symbol>, inst: SymbolInstance) returns (r: Result<set<Symbol>>)
      requires this in within && table.entries.Values <= within && table.Owns()
      requires cache.Some? && inst.symbol in table.entries.Values
      modifies within`cache
      ensures Outcome(Snapshot(within), r) == Absorb(table.entries, old(Snapshot(within)), this, inst)
      decreases Pending(Snapshot(within)), 1
    {
      ghost var st := Snapshot(within);
      Store(within, Cache(cache.value.deps + {inst.symbol}, cache.value.instances + [inst]));
      ghost var st1 := Snapshot(within);
      assert Pending(st1) == Pending(st);
      var ys :- inst.symbol.Dependencies(within);
      ghost var mid := Resolve(table.entries, st1, inst.symbol);
      assert mid.st[this] == cache;
      Store(within, Cache(cache.value.deps + ys, cache.value.instances));
      r := Ok(cache.value.deps);
    }

    /** Sets this symbol's cache: the snapshot of `within` changes at this symbol only. */
    method Store(ghost within: set<Symbol>, c: Cache)
      requires this in within
      modifies this`cache
      ensures cache == Some(c)
      ensures Snapshot(within) == old(Snapshot(within))[this := Some(c)]
    {
      cache := Some(c);
    }

    /** The `instances` property. */
    method Instances(ghost within: set<Symbol>) returns (r: Result<seq<SymbolInstance>>)
      requires this in within && table.entries.Values <= within && table.Owns()
      modifies within`cache
      ensures Outcome(Snapshot(within), r) == ResolveInstances(table.entries, old(Snapshot(within)), this)
    {
      if cache.None? {
        var d :- Dependencies(within);
      }
      r := Ok(cache.value.instances);
    }
  }
}
