/** The `FLA` library object: its folder map and symbol map, loading them from the
    container's main document, merging two libraries, rebuilding the folders from the
    symbols, and the documents `save` writes. */
module Fla {
  import opened Common
  import opened PyStrings
  import opened Attributes
  import opened Markup
  import opened Folders
  import opened Symbols
  import opened Sorting

  // ---------------------------------------------------------------- symbol maps

  /** `dict(a, **b)`: a right-biased union. */
  function Merge(a: map<string, Symbol>, b: map<string, Symbol>): (r: map<string, Symbol>)
    ensures r.Keys == a.Keys + b.Keys
    ensures forall k :: k in b ==> r[k] == b[k]
    ensures forall k :: k in a && k !in b ==> r[k] == a[k]
    ensures r.Values <= a.Values + b.Values
  {
    a + b
  }

  /** Merging a library with itself changes nothing, and merging the result with either
      operand again adds nothing new. */
  lemma MergeAbsorbs(a: map<string, Symbol>, b: map<string, Symbol>)
    ensures Merge(a, a) == a
    ensures Merge(Merge(a, b), b) == Merge(a, b)
    ensures Merge(a, Merge(a, b)) == Merge(a, b)
  {
  }

  /** `order` lists every key of `m` exactly once: how `dict.items()` enumerates it. */
  ghost predicate Enumerates(order: seq<string>, m: map<string, Symbol>)
  {
    && (forall i, j :: 0 <= i < j < |order| ==> order[i] != order[j])
    && (forall k :: k in m <==> k in order)
  }

  /** No symbol is stored under two keys. */
  ghost predicate Injective(m: map<string, Symbol>)
  {
    forall k1, k2 :: k1 in m && k2 in m && m[k1] == m[k2] ==> k1 == k2
  }

  /** Position `j` of `objs` is the last one before `i` that holds its symbol. */
  ghost predicate LastVisit(objs: seq<Symbol>, j: nat, i: nat)
    requires j < i <= |objs|
  {
    forall k :: j < k < i ==> objs[k] != objs[j]
  }

  /** Every symbol of `objs[..i]` points at the file of the last key it was listed
      under. */
  ghost predicate Placed(objs: seq<Symbol>, keys: seq<string>, directory: string, i: nat)
    requires i <= |objs| == |keys|
    reads objs
  {
    forall j :: 0 <= j < i && LastVisit(objs, j, i) ==> objs[j].xml == LibraryPath(directory, keys[j])
  }

  /** When no symbol is stored under two keys, the position of each key is the last
      visit of its symbol. */
  lemma InjectiveLastVisit(syms: map<string, Symbol>, order: seq<string>, k: string) returns (j: nat)
    requires Enumerates(order, syms) && Injective(syms) && k in syms
    ensures j < |order| && order[j] == k && LastVisit(Listed(syms, order), j, |order|)
  {
    j :| 0 <= j < |order| && order[j] == k;
  }

  /** When no symbol is stored under two keys, every symbol points at the file of its
      own key. */
  lemma PlacedInjective(syms: map<string, Symbol>, order: seq<string>, directory: string)
    requires Enumerates(order, syms) && Injective(syms)
    requires Placed(Listed(syms, order), order, directory, |order|)
    ensures forall k :: k in syms ==> syms[k].xml == LibraryPath(directory, k)
  {
    forall k | k in syms
      ensures syms[k].xml == LibraryPath(directory, k)
    {
      var j := InjectiveLastVisit(syms, order, k);
    }
  }

  /** `"%s/LIBRARY/%s.xml" % (directory, key)`: where `from_symbols` points a symbol. */
  function LibraryPath(directory: string, key: string): string
  {
    directory + "/LIBRARY/" + key + ".xml"
  }

  /** A symbol keyed by its href without the `.xml` extension is pointed back at the
      very file it was loaded from when the directory stays the same. */
  lemma LibraryPathOfLoaded(directory: string, href: string)
    requires |href| >= 4 && href[|href| - 4..] == ".xml"
    ensures LibraryPath(directory, DropLast(href, 4)) == directory + "/LIBRARY/" + href
  {
    assert href == DropLast(href, 4) + ".xml";
  }

  // ---------------------------------------------------------------- folder derivation

  /** The symbols of `order`, in that order. */
  function Listed(symbols: map<string, Symbol>, order: seq<string>): (r: seq<Symbol>)
    requires forall i :: 0 <= i < |order| ==> order[i] in symbols
    ensures |r| == |order| && forall i :: 0 <= i < |order| ==> r[i] == symbols[order[i]]
  {
    seq(|order|, i requires 0 <= i < |order| => symbols[order[i]])
  }

  /** The hrefs of `objs`, in order. */
  function HrefsOf(objs: seq<Symbol>): (r: seq<string>)
    ensures |r| == |objs| && forall i :: 0 <= i < |objs| ==> r[i] == objs[i].href
  {
    seq(|objs|, i requires 0 <= i < |objs| => objs[i].href)
  }

  /** The hrefs of the symbols of `order`, in that order. */
  function Hrefs(symbols: map<string, Symbol>, order: seq<string>): (r: seq<string>)
    requires forall i :: 0 <= i < |order| ==> order[i] in symbols
    ensures |r| == |order| && forall i :: 0 <= i < |order| ==> r[i] == symbols[order[i]].href
  {
    HrefsOf(Listed(symbols, order))
  }

  /** The folder paths `from_symbols` visits for symbols with these hrefs: every prefix
      of the directory of each href, shortest first. */
  function FolderPaths(hrefs: seq<string>): seq<string>
  {
    if hrefs == [] then [] else FolderPaths(hrefs[..|hrefs| - 1]) + Paths(Dirname(hrefs[|hrefs| - 1]))
  }

  lemma FolderPathsSnoc(hrefs: seq<string>, i: nat)
    requires i < |hrefs|
    ensures FolderPaths(hrefs[..i + 1]) == FolderPaths(hrefs[..i]) + Paths(Dirname(hrefs[i]))
  {
    assert hrefs[..i + 1][..i] == hrefs[..i];
  }

  lemma {:induction false} FolderPathsMembers(hrefs: seq<string>, i: nat, p: string)
    requires i < |hrefs| && p in Paths(Dirname(hrefs[i]))
    ensures p in FolderPaths(hrefs)
  {
    if i < |hrefs| - 1 {
      FolderPathsMembers(hrefs[..|hrefs| - 1], i, p);
    }
  }

  /** The folder map after `folders[p] = {'name': p, 'itemID': ...}` for each `p` in
      `ps`, in order. */
  function AddFolders(m: FolderMap, ps: seq<string>, md5: Digest): FolderMap
    decreases |ps|
  {
    if ps == [] then m
    else AddFolders(m, ps[..|ps| - 1], md5).Put(ps[|ps| - 1], MakeFolder(ps[|ps| - 1], md5))
  }

  /** Adding folders never removes one, the keys already there keep their place, every
      path added is a key, and its entry is the one built for it. */
  lemma {:induction false} AddFoldersSpec(m: FolderMap, ps: seq<string>, md5: Digest)
    requires m.Valid()
    ensures var r := AddFolders(m, ps, md5);
      && r.Valid()
      && |m.order| <= |r.order| && r.order[..|m.order|] == m.order
      && (forall p :: p in r.entries <==> p in m.entries || p in ps)
      && (forall p :: p in ps ==> r.entries[p] == MakeFolder(p, md5))
      && (forall p :: p in m.entries && p !in ps ==> r.entries[p] == m.entries[p])
    decreases |ps|
  {
    if ps != [] {
      var last := ps[|ps| - 1];
      assert forall p :: p in ps <==> p in ps[..|ps| - 1] || p == last by {
        assert ps == ps[..|ps| - 1] + [last];
      }
      AddFoldersSpec(m, ps[..|ps| - 1], md5);
    }
  }

  lemma {:induction false} AddFoldersAppend(m: FolderMap, a: seq<string>, b: seq<string>, md5: Digest)
    ensures AddFolders(m, a + b, md5) == AddFolders(AddFolders(m, a, md5), b, md5)
    decreases |b|
  {
    if b == [] {
      assert a + b == a;
    } else {
      assert (a + b)[..|a + b| - 1] == a + b[..|b| - 1];
      AddFoldersAppend(m, a, b[..|b| - 1], md5);
    }
  }

  /** A folder map whose entries are all built by `MakeFolder` stays so. */
  lemma AddFoldersCanonical(m: FolderMap, ps: seq<string>, md5: Digest)
    requires m.Valid() && Canonical(m, md5)
    ensures Canonical(AddFolders(m, ps, md5), md5)
  {
    var r := AddFolders(m, ps, md5);
    AddFoldersSpec(m, ps, md5);
    forall p | p in r.entries ensures r.entries[p] == MakeFolder(p, md5) {
      if p !in ps {
        assert p in m.entries;
      }
    }
  }

  /** After the folders are rebuilt, every folder a symbol's href lies in has its entry:
      for `a/b/c.xml` both `a` and `a/b`. */
  lemma FoldersCoverSymbols(m: FolderMap, hrefs: seq<string>, md5: Digest, i: nat, p: string)
    requires m.Valid()
    requires i < |hrefs| && RelPath(Dirname(hrefs[i])) && IsDirPrefix(p, Dirname(hrefs[i]))
    ensures var r := AddFolders(m, FolderPaths(hrefs), md5);
      p in r.entries && r.entries[p] == MakeFolder(p, md5)
  {
    PathsAreDirPrefixes(Dirname(hrefs[i]), p);
    FolderPathsMembers(hrefs, i, p);
    AddFoldersSpec(m, FolderPaths(hrefs), md5);
  }

  // ---------------------------------------------------------------- loading

  /** The parts of `DOMDocument.xml` loading reads: the attributes of each folder entry
      and of each symbol entry, `None` when the element is absent. */
  datatype Document = Document(folders: Option<seq<Attrs>>, symbols: Option<seq<Attrs>>)

  /** The children of the `folders` element; none when the element is missing. */
  function FolderElems(d: Document): seq<Attrs>
  {
    if d.folders.Some? then d.folders.value else []
  }

  /** The children of the `symbols` element; none when the element is missing. */
  function SymbolElems(d: Document): seq<Attrs>
  {
    if d.symbols.Some? then d.symbols.value else []
  }

  /** `folder.attrib['name']` of each folder entry; the KeyError when one has none. */
  function FolderNames(fs: seq<Attrs>): (r: Result<seq<string>>)
    ensures r.Ok? <==> forall i :: 0 <= i < |fs| ==> Get(fs[i], "name").Some?
    ensures r.Ok? ==> |r.value| == |fs| && forall i :: 0 <= i < |fs| ==> Get(fs[i], "name") == Some(r.value[i])
    ensures r.Err? ==> r.error == KeyError("name")
  {
    if fs == [] then Ok([])
    else
      var init :- FolderNames(fs[..|fs| - 1]);
      var n :- Lookup(fs[|fs| - 1], "name");
      Ok(init + [n])
  }

  /** The backing file a symbol entry names in the unpacked directory. */
  function SymbolFile(directory: string, href: string): string
  {
    directory + "/LIBRARY/" + href
  }

  /** The symbol map loading builds, as attributes per key: each entry is stored under
      its href without the last four characters, a later entry replaces an earlier one
      with the same key, and an entry whose backing file is missing is skipped. An
      entry without an href raises the KeyError. */
  function LoadedSymbols(ss: seq<Attrs>, directory: string, files: map<string, SymbolDom>): (r: Result<map<string, Attrs>>)
    ensures r.Ok? <==> forall i :: 0 <= i < |ss| ==> Get(ss[i], "href").Some?
    ensures r.Err? ==> r.error == KeyError("href")
    ensures r.Ok? ==> forall k :: k in r.value ==>
      && r.value[k] in ss
      && Get(r.value[k], "href").Some?
      && DropLast(Get(r.value[k], "href").value, 4) == k
      && SymbolFile(directory, Get(r.value[k], "href").value) in files
    ensures r.Ok? ==> forall i :: 0 <= i < |ss| && SymbolFile(directory, Get(ss[i], "href").value) in files ==>
      DropLast(Get(ss[i], "href").value, 4) in r.value
    decreases |ss|
  {
    if ss == [] then Ok(map[])
    else
      var init, last := ss[..|ss| - 1], ss[|ss| - 1];
      assert forall a :: a in ss <==> a in init || a == last by {
        assert ss == init + [last];
      }
      var m :- LoadedSymbols(init, directory, files);
      var href :- Lookup(last, "href");
      if SymbolFile(directory, href) in files then Ok(m[DropLast(href, 4) := last]) else Ok(m)
  }

  /** Of several entries with the same key, the last one whose backing file exists is
      the one loading keeps. */
  lemma {:induction false} LoadedSymbolsLastWins(ss: seq<Attrs>, directory: string, files: map<string, SymbolDom>, i: nat)
    requires LoadedSymbols(ss, directory, files).Ok?
    requires i < |ss| && SymbolFile(directory, Get(ss[i], "href").value) in files
    requires forall j :: i < j < |ss| && SymbolFile(directory, Get(ss[j], "href").value) in files ==>
      DropLast(Get(ss[j], "href").value, 4) != DropLast(Get(ss[i], "href").value, 4)
    ensures LoadedSymbols(ss, directory, files).value[DropLast(Get(ss[i], "href").value, 4)] == ss[i]
    decreases |ss|
  {
    var init, last := ss[..|ss| - 1], ss[|ss| - 1];
    var m := LoadedSymbols(init, directory, files);
    var href := Get(last, "href").value;
    assert m.Ok?;
    assert LoadedSymbols(ss, directory, files).value ==
      if SymbolFile(directory, href) in files then m.value[DropLast(href, 4) := last] else m.value;
    if i < |ss| - 1 {
      assert init[i] == ss[i];
      forall j | i < j < |init| && SymbolFile(directory, Get(init[j], "href").value) in files
        ensures DropLast(Get(init[j], "href").value, 4) != DropLast(Get(init[i], "href").value, 4)
      {
        assert init[j] == ss[j];
      }
      LoadedSymbolsLastWins(init, directory, files, i);
    }
  }

  /** The symbol loop of `fromfile`: a `Symbol` for every symbol entry whose backing
      file exists, stored in `table` under its href without the extension, stopping at
      the first entry without an href. */
  method LoadSymbols(ss: seq<Attrs>, dir: string, files: map<string, SymbolDom>, table: SymbolTable)
    returns (r: Result<map<string, Attrs>>)
    requires table.entries == map[]
    modifies table
    ensures r == LoadedSymbols(ss, dir, files)
    ensures r.Ok? ==>
      && table.entries.Keys == r.value.Keys
      && forall k :: k in table.entries ==>
           && fresh(table.entries[k]) && table.entries[k].Valid()
           && table.entries[k].attrs == r.value[k]
           && table.entries[k].table == table && table.entries[k].cache.None?
  {
    var m := map[];
    for i := 0 to |ss|
      invariant LoadedSymbols(ss[..i], dir, files) == Ok(m)
      invariant table.entries.Keys == m.Keys
      invariant forall k :: k in table.entries ==>
        && fresh(table.entries[k]) && table.entries[k].Valid()
        && table.entries[k].attrs == m[k]
        && table.entries[k].table == table && table.entries[k].cache.None?
    {
      assert ss[..i + 1][..i] == ss[..i];
      var href :- Lookup(ss[i], "href");
      if SymbolFile(dir, href) in files {
        var s := new Symbol(ss[i], table, dir, files[SymbolFile(dir, href)]);
        table.entries := table.entries[DropLast(href, 4) := s];
        m := m[DropLast(href, 4) := ss[i]];
      }
    }
    assert ss[..|ss|] == ss;
    r := Ok(m);
  }

  /** What `fromfile` builds from the folder elements `fs` and the symbol elements
      `ss`: the library is named after the file up to its first dot and lives in the
      unpacked directory; its folders are the named ones in document order; it holds a
      symbol for every loaded entry, with that entry's attributes, sharing the
      library's own symbol map, whose every symbol was loaded into it, and with
      nothing resolved yet. */
  ghost predicate Opened(fla: FLA, filepath: string, dir: string, fs: seq<Attrs>, ss: seq<Attrs>,
                         files: map<string, SymbolDom>, md5: Digest)
    reads fla, fla.symbols.Values, set s | s in fla.symbols.Values :: s.table
  {
    && fla.Valid()
    && fla.name == UpToFirstDot(Basename(filepath)) && fla.directory == dir
    && FolderNames(fs).Ok? && fla.folders == AddFolders(NoFolders, FolderNames(fs).value, md5)
    && LoadedSymbols(ss, dir, files).Ok?
    && fla.symbols.Keys == LoadedSymbols(ss, dir, files).value.Keys
    && forall k :: k in fla.symbols ==>
         && fla.symbols[k].Valid()
         && fla.symbols[k].attrs == LoadedSymbols(ss, dir, files).value[k]
         && fla.symbols[k].table.entries == fla.symbols
         && fla.symbols[k].table.Owns()
         && fla.symbols[k].cache.None?
  }

  // ---------------------------------------------------------------- the library

  class FLA {
    var name: string
    var directory: string
    var symbols: map<string, Symbol>
    /** The OrderedDict of folder entries. */
    var folders: FolderMap
    const width: int
    const height: int
    const mimetype: string
    /** The `PublishSettings.xml` template. */
    const xconf: string
    /** The `DOMDocument.xml` template. */
    const xdom: string

    /** The folder map is well formed. */
    ghost predicate Valid()
      reads this`folders
    {
      folders.Valid()
    }

    /** `FLA(name=..., directory=...)`. The default configuration is overridden by the
        keyword arguments, so a given `directory` is kept even when it is empty;
        `tmp` is the directory `mkdtemp` would create; `conf` and `dom` are the two
        template files. */
    constructor (name: string, directory: Option<string>, tmp: string, conf: string, dom: string)
      ensures Valid()
      ensures this.name == name
      ensures this.directory == if directory.Some? then directory.value else tmp
      ensures symbols == map[] && folders == NoFolders
      ensures width == 760 && height == 600 && mimetype == "application/vnd.adobe.xfl"
      ensures xconf == conf && xdom == dom
    {
      this.name := name;
      this.directory := if directory.Some? then directory.value else tmp;
      symbols := map[];
      folders := NoFolders;
      width := 760;
      height := 600;
      mimetype := "application/vnd.adobe.xfl";
      xconf := conf;
      xdom := dom;
    }

    /** `folders[path] = {...}` for each path of `ps` in turn. */
    method AddPaths(ps: seq<string>, md5: Digest)
      modifies this`folders
      ensures folders == AddFolders(old(folders), ps, md5)
    {
      ghost var start := folders;
      for j := 0 to |ps|
        invariant folders == AddFolders(start, ps[..j], md5)
      {
        assert ps[..j + 1][..j] == ps[..j];
        folders := folders.Put(ps[j], MakeFolder(ps[j], md5));
      }
      assert ps[..|ps|] == ps;
    }

    /** The body of `from_symbols` once the target library is chosen: take over the
        symbol map, move to `fladirectory` when it is not empty, add the folders of
        every symbol's href, and point every symbol at its file in this library's
        directory. `order` is the order `symbols.items()` lists the keys in. */
    method Rebuild(syms: map<string, Symbol>, order: seq<string>, fladirectory: string, md5: Digest)
      requires folders.Valid() && Enumerates(order, syms)
      requires forall s :: s in syms.Values ==> s.Valid()
      modifies this, syms.Values`xml
      ensures symbols == syms && name == old(name)
      ensures directory == if fladirectory != "" then fladirectory else old(directory)
      ensures folders == AddFolders(old(folders), FolderPaths(Hrefs(syms, order)), md5)
      ensures Valid()
      ensures Placed(Listed(syms, order), order, directory, |order|)
    {
      symbols := syms;
      directory := if fladirectory != "" then fladirectory else directory;
      Relocate(syms, order, md5);
    }

    /** Adds the folders of every symbol of `syms` and points the symbols at their files
        in this library's directory. */
    method Relocate(syms: map<string, Symbol>, order: seq<string>, md5: Digest)
      requires folders.Valid() && Enumerates(order, syms)
      modifies this`folders, syms.Values`xml
      ensures folders == AddFolders(old(folders), FolderPaths(Hrefs(syms, order)), md5)
      ensures folders.Valid()
      ensures Placed(Listed(syms, order), order, directory, |order|)
    {
      ghost var start := folders;
      var objs := Listed(syms, order);
      assert forall i :: 0 <= i < |objs| ==> objs[i] in syms.Values by {
        forall i | 0 <= i < |objs| ensures objs[i] in syms.Values {
          assert order[i] in syms;
        }
      }
      PlaceAll(objs, order, md5, syms.Values);
      AddFoldersSpec(start, FolderPaths(HrefsOf(objs)), md5);
    }

    /** The loop of `from_symbols` over the symbols `objs` listed under `keys`. A symbol
        listed more than once ends up with the file of its last key. */
    method PlaceAll(objs: seq<Symbol>, keys: seq<string>, md5: Digest, ghost region: set<Symbol>)
      requires |objs| == |keys| && forall i :: 0 <= i < |objs| ==> objs[i] in region
      modifies this`folders, region`xml
      ensures folders == AddFolders(old(folders), FolderPaths(HrefsOf(objs)), md5)
      ensures Placed(objs, keys, directory, |objs|)
    {
      ghost var start := folders;
      ghost var hrefs := HrefsOf(objs);
      var i := 0;
      while i < |objs|
        invariant 0 <= i <= |objs|
        invariant folders == AddFolders(start, FolderPaths(hrefs[..i]), md5)
        invariant Placed(objs, keys, directory, i)
      {
        assert objs[i] in region;
        PlaceNext(objs, keys, md5, hrefs, i, start);
        i := i + 1;
      }
      assert hrefs[..|objs|] == hrefs;
    }

    /** The `i`-th pass of that loop. */
    method PlaceNext(objs: seq<Symbol>, keys: seq<string>, md5: Digest, ghost hrefs: seq<string>, i: nat,
                     ghost start: FolderMap)
      requires i < |objs| == |keys| && hrefs == HrefsOf(objs)
      requires folders == AddFolders(start, FolderPaths(hrefs[..i]), md5)
      requires Placed(objs, keys, directory, i)
      modifies this`folders, {objs[i]}`xml
      ensures folders == AddFolders(start, FolderPaths(hrefs[..i + 1]), md5)
      ensures Placed(objs, keys, directory, i + 1)
    {
      label before:
      PlaceSymbol(objs[i], keys[i], md5, hrefs, i, start);
      forall j | 0 <= j < i + 1 && LastVisit(objs, j, i + 1)
        ensures objs[j].xml == LibraryPath(directory, keys[j])
      {
        if j < i {
          assert LastVisit(objs, j, i) && objs[i] != objs[j];
          assert objs[j].xml == old@before(objs[j].xml);
        }
      }
    }

    /** One pass of the loop of `from_symbols`: the folders of the `i`-th symbol's href,
        then its new backing file path. */
    method PlaceSymbol(s: Symbol, key: string, md5: Digest, ghost hrefs: seq<string>, ghost i: nat,
                       ghost start: FolderMap)
      requires i < |hrefs| && hrefs[i] == s.href
      requires folders == AddFolders(start, FolderPaths(hrefs[..i]), md5)
      modifies this`folders, s`xml
      ensures folders == AddFolders(start, FolderPaths(hrefs[..i + 1]), md5)
      ensures s.xml == LibraryPath(directory, key)
    {
      AddPaths(Paths(Dirname(s.href)), md5);
      FolderPathsSnoc(hrefs, i);
      AddFoldersAppend(start, FolderPaths(hrefs[..i]), Paths(Dirname(hrefs[i])), md5);
      s.xml := LibraryPath(directory, key);
    }

    /** `FLA.from_symbols(symbols, fladirectory)` without a target library: a new library
        named "dynamic" holding `syms` and the folders their hrefs imply. */
    static method FromSymbols(syms: map<string, Symbol>, order: seq<string>, fladirectory: string, md5: Digest,
                              tmp: string, conf: string, dom: string) returns (fla: FLA)
      requires Enumerates(order, syms)
      requires forall s :: s in syms.Values ==> s.Valid()
      modifies syms.Values`xml
      ensures fresh(fla) && fla.Valid()
      ensures fla.name == "dynamic" && fla.symbols == syms
      ensures fla.directory == if fladirectory != "" then fladirectory else tmp
      ensures fla.folders == AddFolders(NoFolders, FolderPaths(Hrefs(syms, order)), md5)
      ensures Placed(Listed(syms, order), order, fla.directory, |order|)
    {
      fla := new FLA("dynamic", None, tmp, conf, dom);
      fla.Rebuild(syms, order, fladirectory, md5);
    }

    /** `self + other`: a new library with both symbol maps, `other` winning on a shared
        key, and the folders derived from them. */
    method Add(other: FLA, order: seq<string>, md5: Digest, tmp: string, conf: string, dom: string)
      returns (fla: FLA)
      requires Enumerates(order, Merge(symbols, other.symbols))
      requires forall s :: s in Merge(symbols, other.symbols).Values ==> s.Valid()
      modifies Merge(symbols, other.symbols).Values`xml
      ensures fresh(fla) && fla.Valid()
      ensures fla.symbols == Merge(symbols, other.symbols) && fla.name == "dynamic" && fla.directory == tmp
      ensures fla.folders == AddFolders(NoFolders, FolderPaths(Hrefs(fla.symbols, order)), md5)
      ensures Placed(Listed(fla.symbols, order), order, tmp, |order|)
    {
      fla := FromSymbols(Merge(symbols, other.symbols), order, "", md5, tmp, conf, dom);
    }

    /** `self.append(other)`: the same merge done on this library, whose folders are
        kept and extended and whose directory is kept. */
    method Append(other: FLA, order: seq<string>, md5: Digest) returns (fla: FLA)
      requires folders.Valid()
      requires Enumerates(order, Merge(symbols, other.symbols))
      requires forall s :: s in Merge(symbols, other.symbols).Values ==> s.Valid()
      modifies this, Merge(symbols, other.symbols).Values`xml
      ensures fla == this && Valid()
      ensures symbols == Merge(old(symbols), old(other.symbols))
      ensures name == old(name) && directory == old(directory)
      ensures folders == AddFolders(old(folders), FolderPaths(Hrefs(symbols, order)), md5)
      ensures Placed(Listed(symbols, order), order, directory, |order|)
    {
      Rebuild(Merge(symbols, other.symbols), order, directory, md5);
      fla := this;
    }

    /** `FLA.fromfile(filepath)` once the archive is unpacked into `dir`: `doc` is the
        parsed `DOMDocument.xml` (`None` when the file is missing) and `files` the parsed
        symbol files that exist. */
    static method FromFile(filepath: string, dir: string, doc: Option<Document>, files: map<string, SymbolDom>,
                           md5: Digest, conf: string, dom: string) returns (r: Result<FLA>)
      ensures doc.None? ==> r == Err(InvalidFlaFile(filepath))
      ensures doc.Some? ==>
        var fs, ss := FolderElems(doc.value), SymbolElems(doc.value);
        && (r.Ok? <==> FolderNames(fs).Ok? && LoadedSymbols(ss, dir, files).Ok?)
        && (r.Err? ==> r.error == if FolderNames(fs).Err? then KeyError("name") else KeyError("href"))
        && (r.Ok? ==> Opened(r.value, filepath, dir, fs, ss, files, md5))
      ensures r.Ok? ==> fresh(r.value) && forall k :: k in r.value.symbols ==> fresh(r.value.symbols[k])
    {
      if doc.None? {
        return Err(InvalidFlaFile(filepath));
      }
      r := Open(filepath, dir, FolderElems(doc.value), SymbolElems(doc.value), files, md5, conf, dom);
    }

    /** `fromfile` once `DOMDocument.xml` is found and parsed: `fs` and `ss` are its
        folder and symbol elements. */
    static method Open(filepath: string, dir: string, fs: seq<Attrs>, ss: seq<Attrs>, files: map<string, SymbolDom>,
                       md5: Digest, conf: string, dom: string) returns (r: Result<FLA>)
      ensures r.Ok? <==> FolderNames(fs).Ok? && LoadedSymbols(ss, dir, files).Ok?
      ensures r.Err? ==> r.error == if FolderNames(fs).Err? then KeyError("name") else KeyError("href")
      ensures r.Ok? ==> Opened(r.value, filepath, dir, fs, ss, files, md5)
      ensures r.Ok? ==> fresh(r.value) && forall k :: k in r.value.symbols ==> fresh(r.value.symbols[k])
    {
      var fla := new FLA(UpToFirstDot(Basename(filepath)), Some(dir), dir, conf, dom);
      var names := fla.LoadFolders(fs, md5);
      if names.Err? {
        return Err(names.error);
      }
      AddFoldersSpec(NoFolders, names.value, md5);
      var table := new SymbolTable(map[]);
      var loaded := LoadSymbols(ss, dir, files, table);
      if loaded.Err? {
        return Err(loaded.error);
      }
      fla.symbols := table.entries;
      r := Ok(fla);
    }

    /** The folder loop of `fromfile`: `folders[f.attrib['name']] = {...}` for each
        folder element in document order, stopping at the first one without a name. */
    method LoadFolders(fs: seq<Attrs>, md5: Digest) returns (r: Result<seq<string>>)
      modifies this`folders
      ensures r == FolderNames(fs)
      ensures r.Ok? ==> folders == AddFolders(old(folders), r.value, md5)
    {
      ghost var start := folders;
      var names := [];
      for i := 0 to |fs|
        invariant FolderNames(fs[..i]) == Ok(names)
        invariant folders == AddFolders(start, names, md5)
      {
        assert fs[..i + 1][..i] == fs[..i];
        var path :- Lookup(fs[i], "name");
        AddFoldersAppend(start, names, [path], md5);
        folders := folders.Put(path, MakeFolder(path, md5));
        names := names + [path];
      }
      assert fs[..|fs|] == fs;
      r := Ok(names);
    }

    // -------------------------------------------------------------- saving

    /** The values `save` fills `PublishSettings.xml` with: every public attribute of the
        object, by name. Only strings are substituted; the methods, the two maps and the
        numbers are skipped. */
    function PublishValues(): seq<(string, Value)>
      reads this
    {
      [ ("append", Other), ("directory", Text(directory)), ("folders", Other), ("from_symbols", Other),
        ("fromfile", Other), ("height", Other), ("mimetype", Text(mimetype)), ("name", Text(name)),
        ("save", Other), ("symbols", Other), ("width", Other), ("xconf", Text(xconf)), ("xdom", Text(xdom)) ]
    }

    /** `save`: the library is renamed after the file, and the files of `WriteFiles`
        are written. Every symbol is required to carry the href it was loaded with, so
        the symbols are listed in the order of their `href` attributes, the key the
        source sorts on. */
    method Save(filepath: string, order: seq<string>) returns (written: seq<(string, string)>)
      requires Valid() && Enumerates(order, symbols)
      requires HrefsKept(symbols)
      modifies this`name
      ensures name == UpToFirstDot(Basename(filepath))
      ensures ListedByAttrHref(Items(SortByKey(Entries(symbols, order))))
      ensures var listed := Items(SortByKey(Entries(symbols, order)));
        written == Written(directory, name, mimetype,
                           Substitute(xdom, [("folders_xml", Text(FoldersXml(folders))), ("symbols_xml", Text(SymbolsXml(listed)))]),
                           Substitute(xconf, PublishValues()))
    {
      name := UpToFirstDot(Basename(filepath));
      written := WriteFiles(order);
      SavedByAttrHref(symbols, order);
    }

    /** The files `save` writes before zipping the directory, as (path, contents) in
        the order they are written. The symbols are listed sorted by href, `order`
        being the order `symbols.values()` returns them in. */
    method WriteFiles(order: seq<string>) returns (written: seq<(string, string)>)
      requires Valid() && Enumerates(order, symbols)
      ensures var listed := Items(SortByKey(Entries(symbols, order)));
        written == Written(directory, name, mimetype,
                           Substitute(xdom, [("folders_xml", Text(FoldersXml(folders))), ("symbols_xml", Text(SymbolsXml(listed)))]),
                           Substitute(xconf, PublishValues()))
    {
      var xmlfolders := FoldersXml(folders);
      var listed := Items(SortByKey(Entries(symbols, order)));
      var xmlsymbols := SymbolsXml(listed);
      var xdomText := ReplaceTemplate(xdom, [("folders_xml", Text(xmlfolders)), ("symbols_xml", Text(xmlsymbols))]);
      var xconfText := ReplaceTemplate(xconf, PublishValues());
      written := Written(directory, name, mimetype, xdomText, xconfText);
    }
  }

  /** The document `save` writes: when the document template holds the folders
      placeholder and, after it, the symbols placeholder, with no braces elsewhere nor
      in the two listings, each placeholder is replaced by its listing and the rest of
      the template is kept as it is. */
  lemma SavedDocument(a: string, b: string, c: string, folders: string, symbols: string)
    requires '{' !in a && '{' !in b && '{' !in c && '{' !in folders && '{' !in symbols
    ensures Substitute(a + Placeholder("folders_xml") + b + Placeholder("symbols_xml") + c,
                       [("folders_xml", Text(folders)), ("symbols_xml", Text(symbols))])
            == a + folders + b + symbols + c
  {
    var keys := ["folders_xml", "symbols_xml"];
    assert keys[0] != keys[1] by { assert keys[0][0] != keys[1][0]; }
    FillPlaceholders([a, b, c], keys, [folders, symbols]);
    TemplateOfTwo(a, b, c, keys[0], keys[1]);
    FilledOfTwo(a, b, c, folders, symbols);
    TextsOfTwo(keys[0], keys[1], folders, symbols);
  }

  /** A template with two placeholders, spelt out. */
  lemma TemplateOfTwo(a: string, b: string, c: string, k0: string, k1: string)
    ensures Template([a, b, c], [k0, k1]) == a + Placeholder(k0) + b + Placeholder(k1) + c
  {
    assert Template([b, c], [k1]) == b + Placeholder(k1) + c by {
      assert [b, c][1..] == [c] && [k1][1..] == [];
    }
    assert [a, b, c][1..] == [b, c] && [k0, k1][1..] == [k1];
    Regroup(a, Placeholder(k0), b, Placeholder(k1), c);
  }

  /** The same template filled with two values, spelt out. */
  lemma FilledOfTwo(a: string, b: string, c: string, v0: string, v1: string)
    ensures Filled([a, b, c], [v0, v1]) == a + v0 + b + v1 + c
  {
    assert Filled([b, c], [v1]) == b + v1 + c by {
      assert [b, c][1..] == [c] && [v1][1..] == [];
    }
    assert [a, b, c][1..] == [b, c] && [v0, v1][1..] == [v1];
    Regroup(a, v0, b, v1, c);
  }

  /** Two string values under two names. */
  lemma TextsOfTwo(k0: string, k1: string, v0: string, v1: string)
    ensures Texts([k0, k1], [v0, v1]) == [(k0, Text(v0)), (k1, Text(v1))]
  {
  }

  /** Five texts joined in either grouping are the same text. */
  lemma Regroup(x: string, y: string, z: string, u: string, v: string)
    ensures x + y + (z + u + v) == x + y + z + u + v
  {
  }

  /** The four files `save` writes into `directory`, as (path, contents) in the order it
      writes them: the mimetype, the document, the publish settings and the `.xfl`
      project marker named after the document. */
  function Written(directory: string, name: string, mimetype: string, dom: string, conf: string)
    : (r: seq<(string, string)>)
  {
    [ (directory + "/mimetype", mimetype),
      (directory + "/DOMDocument.xml", dom),
      (directory + "/PublishSettings.xml", conf),
      (directory + "/" + name + ".xfl", "PROXY-CS5") ]
  }

  /** `symbols.values()` paired with the sort key `attrs['href']` (the href each symbol
      was loaded with, which its tag keeps). */
  function Entries(symbols: map<string, Symbol>, order: seq<string>): (r: seq<(string, Symbol)>)
    requires forall i :: 0 <= i < |order| ==> order[i] in symbols
    ensures |r| == |order| && forall i :: 0 <= i < |order| ==> r[i] == (symbols[order[i]].href, symbols[order[i]])
  {
    seq(|order|, i requires 0 <= i < |order| => (symbols[order[i]].href, symbols[order[i]]))
  }

  /** The symbols as `save` lists them are `symbols.values()` in a new order, sorted by
      href. */
  lemma SavedSymbolsSorted(symbols: map<string, Symbol>, order: seq<string>)
    requires forall i :: 0 <= i < |order| ==> order[i] in symbols
    ensures var sorted := SortByKey(Entries(symbols, order));
      && multiset(Items(sorted)) == multiset(seq(|order|, i requires 0 <= i < |order| => symbols[order[i]]))
      && forall i, j :: 0 <= i < j < |sorted| ==> sorted[i].0 == sorted[i].1.href && LexLe(sorted[i].0, sorted[j].0)
  {
    var e := Entries(symbols, order);
    SortPermutes(e);
    assert Items(e) == seq(|order|, i requires 0 <= i < |order| => symbols[order[i]]);
    var sorted := SortByKey(e);
    forall i | 0 <= i < |sorted| ensures sorted[i].0 == sorted[i].1.href {
      SortMembers(e, sorted[i]);
    }
  }

  /** Every symbol of the map still carries the href it was loaded with. */
  ghost predicate HrefsKept(symbols: map<string, Symbol>)
    reads symbols.Values
  {
    forall k :: k in symbols ==> symbols[k].Valid()
  }

  /** Every listed symbol has an `href` attribute, and the list is in the string order
      of those attributes. */
  ghost predicate ListedByAttrHref(listed: seq<Symbol>)
    reads listed
  {
    && (forall i :: 0 <= i < |listed| ==> Get(listed[i].attrs, "href").Some?)
    && forall i, j :: 0 <= i < j < |listed| ==>
         LexLe(Get(listed[i].attrs, "href").value, Get(listed[j].attrs, "href").value)
  }

  /** When every symbol still carries the href it was loaded with, the listing `save`
      writes is sorted by `attrs['href']`, the key the source sorts on. */
  lemma SavedByAttrHref(symbols: map<string, Symbol>, order: seq<string>)
    requires forall i :: 0 <= i < |order| ==> order[i] in symbols
    requires HrefsKept(symbols)
    ensures ListedByAttrHref(Items(SortByKey(Entries(symbols, order))))
  {
    var e := Entries(symbols, order);
    var sorted := SortByKey(e);
    var listed := Items(sorted);
    SavedSymbolsSorted(symbols, order);
    forall i | 0 <= i < |sorted|
      ensures Get(listed[i].attrs, "href") == Some(sorted[i].0)
    {
      SortMembers(e, sorted[i]);
      var n :| 0 <= n < |e| && e[n] == sorted[i];
      assert sorted[i].1 == symbols[order[n]];
    }
  }

  /** `u'\n'.join(_tag_from_dict('DOMFolderItem', f) for f in folders.itervalues())`. */
  function FoldersXml(m: FolderMap): string
    requires m.Valid()
  {
    var fs := m.Values();
    Join(seq(|fs|, i requires 0 <= i < |fs| => TagFromAttrs("DOMFolderItem", FolderAttrs(fs[i]), true)), "\n")
  }

  /** `s.to_xml()` for each symbol of `ss`, in order. */
  function SymbolTags(ss: seq<Symbol>): (r: seq<string>)
    reads ss
    ensures |r| == |ss|
  {
    if ss == [] then [] else [ss[0].ToXml()] + SymbolTags(ss[1..])
  }

  /** `u'\n'.join(s.to_xml() for s in symbols)`. */
  function SymbolsXml(ss: seq<Symbol>): string
    reads ss
  {
    Join(SymbolTags(ss), "\n")
  }
}
