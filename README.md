# pyfla library model

A Dafny model of `pyfla/FLA.py`, the part of pyfla that reads, merges and writes the
library of a Flash CS5 `.fla` document. The model covers:

- **Loading** (`fromfile`). The folder entries and symbol entries of `DOMDocument.xml`
  become the `FLA` object's ordered folder map and its symbol map. Symbols whose backing
  file is missing are skipped. An entry without its key attribute raises `KeyError`.
- **Symbols** (`Symbol`). Each symbol has:
  - its `Include` tag;
  - the linkage getter and setter;
  - the lazily computed, cached `dependencies` and `instances`. These are found by
    walking the timelines, layers, frames and symbol instances of the symbol's own
    document. Each instance names another library item, which is looked up after the
    `:`/`<`/`>` entity fix.
- **Merging** (`from_symbols`, `__add__`, `append`). Two libraries are merged with a
  right-biased union of their symbol maps. The folder map is rebuilt from every
  directory prefix of every symbol's href, and each symbol is pointed at its file in
  the target directory.
- **Saving** (`save`). The folder and symbol listings are rendered, the symbols sorted
  by href. They are substituted into the two templates, and the four files are listed
  in the order `save` writes them.

Modules, one per concern:

- **`Common`**: `Option`, `Result`, and the exceptions the source raises (`KeyError`,
  `ValueError`, `InvalidFLAFile`).
- **`PyStrings`**: the Python string and path semantics the code relies on:
  - slicing;
  - `str.replace` and `str.join`;
  - string order;
  - `os.path.dirname` and `basename`;
  - `int()` and `"%d"`.
- **`Attributes`**: XML attribute dictionaries as ordered association lists.
- **`Markup`**:
  - `_tag_from_dict` and its `&amp;` escaping;
  - the entity fix of library item names;
  - `_replace_template`.
- **`Folders`**:
  - folder entries and their `itemID`;
  - the recursive `paths` helper of `from_symbols`;
  - the OrderedDict of folders.
- **`Sorting`**: `list.sort(key=...)` as a stable insertion sort, proved sorted and a
  permutation.
- **`Symbols`**:
  - the symbol document and its instance occurrences;
  - the `Symbol` class;
  - dependency resolution, which is proved equal to a pure function (`Resolve`) over a
    snapshot of every symbol's cache;
  - linkage.
- **`Fla`**:
  - the `FLA` class: loading, merging, folder derivation and saving;
  - the pure specifications of these operations.
- **`Closure`**: what `dependencies` returns on a cycle, compared with the transitive
  closure (see Findings).

Three behaviours of the code that the model keeps as they are:

- **Unknown library item names.** An instance naming an item that is not in the
  library's symbol map always raises `KeyError`, and so does the model
  (`Symbols.Instantiate`).
- **Linkage rewrite.** The code's `re.sub` replaces every `<DOMSymbolItem ...>` match in
  the backing file, not only the root tag. The file rewrite is not modelled (see Left
  out); the model returns the new tag the code writes.
- **Transitive dependencies.** On some cycles `dependencies` caches a set that misses
  symbols reachable through the cycle. The model reproduces this (see Findings).

## Model

| member | source | states |
|---|---|---|
| PyStrings.Dirname | pyfla/FLA.py:183 | `os.path.dirname(p)` is a prefix of `p` |
| PyStrings.DirnameFixpoint | pyfla/FLA.py:182-183 | `dirname(p) == p` exactly when `p` is empty or all slashes, which is where `paths` stops |
| PyStrings.UpToFirstDot | pyfla/FLA.py:106 | `s.split('.')[0]` is a prefix of `s` that holds no dot |
| PyStrings.ParseInt | pyfla/FLA.py:353 | `int(s)` fails only with `ValueError(s)` |
| PyStrings.ParsePadded | pyfla/FLA.py:353 | `int` reads optional whitespace, an optional `-` or `+`, more optional whitespace, the digits of `n` and trailing whitespace as `n`, negated after `-` |
| PyStrings.ParseDecimal | pyfla/FLA.py:353 | `int("%d" % n) == n` for every `n >= 0` |
| PyStrings.ReplaceOneChar | pyfla/FLA.py:316 | `str.replace` with a one-character pattern replaces each occurrence of that character and keeps every other character |
| PyStrings.LexLeTotal | pyfla/FLA.py:164 | any two sort keys are comparable |
| PyStrings.LexLeTransitive | pyfla/FLA.py:164 | the string order used by the sort is transitive |
| PyStrings.LexLeAntisymmetric | pyfla/FLA.py:164 | two keys that are each at most the other are equal |
| Attributes.Get | pyfla/FLA.py:269 | a lookup finds nothing exactly when no entry has the key |
| Attributes.Put | pyfla/FLA.py:282-283 | after `a[k] = v`, `k` reads `v` and every other key reads as before |
| Attributes.Delete | pyfla/FLA.py:295-296 | after `del a[k]`, `k` is absent, every other key reads as before, and the dictionary does not grow |
| Markup.EscapeCharwise | pyfla/FLA.py:50 | attribute escaping turns each `&` into `&amp;` and keeps every other character |
| Markup.UnescapeEscape | pyfla/FLA.py:50 | escaping loses nothing: unescaping the escaped value gives the value back |
| Markup.TagEnding | pyfla/FLA.py:49-52 | a rendered tag ends with `/>` exactly when `terminate` is set |
| Markup.FixName | pyfla/FLA.py:315-316 | the loop over `ENTITIES_FIX` computes the replacements `:`, `<`, `>` in that order |
| Markup.FixEntitiesCharwise | pyfla/FLA.py:315-316 | the three replacements together turn each of `:`, `<`, `>` into `&#58`, `&#60`, `&#62` (no `;`) and keep every other character |
| Markup.EscapeEntities | pyfla/FLA.py:315-316 | a fixed name holds no `:`, `<` or `>` |
| Markup.ReplaceTemplate | pyfla/FLA.py:142-151 | the loop applies the string values in order and skips the non-string ones |
| Markup.FillPlaceholders | pyfla/FLA.py:142-151 | for distinct brace-free names and brace-free texts and values, each `{{ k }}` placeholder becomes the value of `k`, and the text around the placeholders is kept |
| Markup.NoPlaceholderUnchanged | pyfla/FLA.py:142-151 | a template without placeholders comes back unchanged, whatever the values |
| Folders.ItemIdShape | pyfla/FLA.py:113-118 | an `itemID` is 17 characters `0000XXXX-0000YYYY`, where XXXXYYYY are the first eight characters of the digest |
| Folders.ItemIdInjective | pyfla/FLA.py:195-198 | two `itemID`s are equal exactly when their digests agree on the first eight characters |
| Folders.PathsEnds | pyfla/FLA.py:182-183 | `paths(n)` is empty exactly when `n` is empty or all slashes, and otherwise ends with `n` |
| Folders.PathsPrefixes | pyfla/FLA.py:182-183 | every entry of `paths(n)` is a prefix of `n` |
| Folders.PathsIncreasing | pyfla/FLA.py:182-183 | the entries of `paths(n)` are strictly longer from left to right: outermost folder first, no repeats |
| Folders.PathsAreDirPrefixes | pyfla/FLA.py:182-194 | for a relative href directory `d`, `p` is in `paths(d)` exactly when `p` is `d` or one of the folders `d` lies in |
| Folders.FolderMap.Put | pyfla/FLA.py:116-119 | OrderedDict assignment: the entry is set, a present key keeps its place, a new key goes last, and keys stay unique |
| Folders.FolderMap.Values | pyfla/FLA.py:159-160 | `itervalues()` lists one entry per key, in insertion order |
| Sorting.SortByKey | pyfla/FLA.py:164 | the sorted list has non-decreasing keys and the same length |
| Sorting.SortPermutes | pyfla/FLA.py:163-164 | sorting is a permutation: every item occurs as often as before |
| Sorting.SortMembers | pyfla/FLA.py:164 | sorting adds no entry |
| Symbols.OccurrencesMembers | pyfla/FLA.py:307-311 | the visited instances are exactly those lying in a frame of a layer of a timeline, each with the attributes of its frame, layer and timeline |
| Symbols.Instantiate | pyfla/FLA.py:313-325 | a built instance is of a symbol of the owner's map |
| Symbols.InstantiateAfterLookup | pyfla/FLA.py:317-325 | once the fixed name is in the map: a missing instance name raises `KeyError('name')`, then a missing frame index `KeyError('index')`, then a missing layer or timeline name `KeyError('name')`; an index `int` rejects raises `ValueError(index)`; otherwise the instance is built with `int(index) + 1` |
| Symbols.InstantiateCases | pyfla/FLA.py:313-325 | a missing `libraryItemName`, or a fixed name absent from the map, raises the `KeyError` for that key; a built instance is of `symbols[fixed name]` and carries the instance, layer and timeline names and `int(index) + 1` |
| Symbols.InstanceFrame | pyfla/FLA.py:353 | a frame whose index is `"%d" % n` gives an instance on frame `n + 1` |
| Symbols.Instantiations | pyfla/FLA.py:307-325 | one outcome per visited instance, each of a symbol of the map |
| Symbols.Collect | pyfla/FLA.py:307-330 | a loop that stops at the first exception succeeds exactly when every step does, and then lists every value in order |
| Symbols.Resolve | pyfla/FLA.py:300-303 | a cached symbol answers from its cache and changes nothing; otherwise the symbol leaves the pending set, and no existing cache changes |
| Symbols.ResolveSound | pyfla/FLA.py:300-332 | a successful resolution returns the new cache; a newly resolved symbol caches its direct instances in visiting order, and its set holds each instance's symbol and that symbol's cached set |
| Symbols.AbsorbSound | pyfla/FLA.py:327-330 | taking in an instance appends it, adds its symbol, and joins in that symbol's cached set |
| Symbols.ResolveWithin | pyfla/FLA.py:319-330 | cached sets never hold a symbol outside the owner's map |
| Symbols.ResolveInstances | pyfla/FLA.py:334-338 | `instances` answers from the cache, or resolves first and then gives the direct instances |
| Symbols.ResolveTwice | pyfla/FLA.py:300-332 | dependencies are computed at most once: asking again returns the same set and changes no cache |
| Symbols.LinkageAfterSet | pyfla/FLA.py:280-298 | after the setter, the linkage reads back as the new name (even an empty one), the symbol is exported for ActionScript, and no other root attribute changes |
| Symbols.Symbol.constructor | pyfla/FLA.py:245-261 | a loaded symbol keeps its tag, its name is the href's basename minus four characters, its file is `directory/LIBRARY/href`, the root gains `xmlns`, and no cache is set |
| Symbols.Symbol.ToXml | pyfla/FLA.py:263-264 | the `Include` tag is self-closing |
| Symbols.Symbol.GetLinkage | pyfla/FLA.py:266-274 | returns and caches a truthy cached name, or else the root's `linkageClassName` (`None` when absent) |
| Symbols.Symbol.SetLinkage | pyfla/FLA.py:280-298 | sets the two root attributes, returns the new opening tag, removes only `loadImmediate` from the tag, caches the name, and keeps the tag's href |
| Symbols.Symbol.Dependencies | pyfla/FLA.py:300-332 | the method returns, and leaves in every cache, exactly what `Resolve` gives on the caches before the call |
| Symbols.Symbol.Visit | pyfla/FLA.py:311-325 | one pass of the innermost loop either raises what the loop would raise or advances the loop's outcome by one instance |
| Symbols.Symbol.AddInstance | pyfla/FLA.py:327-330 | recording an instance has the effect of `Absorb` on the caches |
| Symbols.Symbol.Instances | pyfla/FLA.py:334-338 | the method returns, and leaves in every cache, what `ResolveInstances` gives |
| Fla.Merge | pyfla/FLA.py:223 | `dict(a, **b)` has the keys of both, `b`'s symbol on a shared key, and `a`'s elsewhere |
| Fla.PlacedInjective | pyfla/FLA.py:201-211 | when no symbol sits under two keys, every symbol ends up at `directory/LIBRARY/<key>.xml` |
| Fla.LibraryPathOfLoaded | pyfla/FLA.py:201 | a symbol loaded from `href` ending in `.xml` (key `href[:-4]`, file `LIBRARY/href`) is placed back at the file it was loaded from |
| Fla.AddFoldersSpec | pyfla/FLA.py:190-199 | adding folder paths keeps the map well formed; earlier keys keep their place; the keys become the old ones plus the paths; each added entry is the canonical folder; other entries are unchanged |
| Fla.AddFoldersCanonical | pyfla/FLA.py:196-199 | a map of canonical entries (name is the path, `itemID` from its digest) stays canonical |
| Fla.FoldersCoverSymbols | pyfla/FLA.py:190-199 | after the merge, every folder that a symbol's href lies in is in the folder map |
| Fla.FolderNames | pyfla/FLA.py:109-112 | reading the folder names succeeds exactly when every entry has a name, returns them in order, and otherwise raises `KeyError('name')` |
| Fla.LoadedSymbolsLastWins | pyfla/FLA.py:121-133 | of several entries with the same key, the map keeps the last one whose file exists |
| Fla.LoadedSymbols | pyfla/FLA.py:121-133 | loading succeeds exactly when every entry has an href, and otherwise raises `KeyError('href')`; each key is its entry's href minus four characters; an entry whose file exists is present; an entry whose file is missing is skipped |
| Fla.LoadSymbols | pyfla/FLA.py:121-133 | the loop builds that map of fresh, unresolved symbols that share the library's own symbol map |
| Fla.FLA.constructor | pyfla/FLA.py:62-82 | a new library is empty, has size 760 by 600 and the XFL mimetype, keeps a given directory even when it is empty, and otherwise uses a fresh temporary directory |
| Fla.FLA.AddPaths | pyfla/FLA.py:194-199 | the inner folder loop adds each path's canonical folder in turn |
| Fla.FLA.Rebuild | pyfla/FLA.py:186-211 | takes over the symbols; moves to a non-empty target directory; adds the folders of every href in iteration order; places every symbol in the target directory |
| Fla.FLA.Relocate | pyfla/FLA.py:190-211 | the loop over the symbols adds their folders and places each symbol |
| Fla.FLA.PlaceAll | pyfla/FLA.py:190-211 | a symbol listed under several keys ends at the file of its last key |
| Fla.FLA.PlaceNext | pyfla/FLA.py:190-211 | one pass of the loop keeps the symbols already placed where they were |
| Fla.FLA.PlaceSymbol | pyfla/FLA.py:191-211 | one symbol's folders are added and its file set |
| Fla.FLA.FromSymbols | pyfla/FLA.py:181-213 | returns a new library named `dynamic` holding exactly the given symbols, with the folders their hrefs imply |
| Fla.FLA.Add | pyfla/FLA.py:215-224 | `a + b` is a new library holding the right-biased union, with the folders rebuilt from scratch |
| Fla.FLA.Append | pyfla/FLA.py:226-235 | `a.append(b)` gives `a` the right-biased union and keeps its name, its directory and its existing folders |
| Fla.FLA.FromFile | pyfla/FLA.py:89-135 | a missing `DOMDocument.xml` raises `InvalidFLAFile`; otherwise loading succeeds exactly when every folder has a name and every symbol an href; an unnamed folder raises `KeyError('name')` before any symbol is read, and otherwise a symbol without an href raises `KeyError('href')`; a loaded library is what the document describes |
| Fla.FLA.Open | pyfla/FLA.py:101-135 | the folder loop runs first, so an unnamed folder raises `KeyError('name')` and otherwise a symbol without an href raises `KeyError('href')`; on success the library is named after the file up to the first dot, its folders are the named ones in order, and its symbols are the loaded ones |
| Fla.FLA.LoadFolders | pyfla/FLA.py:109-119 | the folder loop stops at the first folder without a name; otherwise it adds each folder under its name, in order |
| Fla.FLA.Save | pyfla/FLA.py:153-175 | renames the library after the file and writes the files of `WriteFiles`; when every symbol still carries its loaded href, the symbol listing is in the order of the `href` attributes the source sorts on |
| Fla.FLA.WriteFiles | pyfla/FLA.py:159-175 | fills the document template with the folder and sorted symbol listings and the settings template with the public string attributes; lists the four files in the order they are written |
| Fla.SavedByAttrHref | pyfla/FLA.py:162-165 | when every symbol carries the href it was loaded with, the saved listing is sorted by `attrs['href']` |
| Fla.SavedDocument | pyfla/FLA.py:167-168 | a document template `a {{ folders_xml }} b {{ symbols_xml }} c` without other braces is saved as `a`, the folder listing, `b`, the symbol listing and `c` |
| Fla.SavedSymbolsSorted | pyfla/FLA.py:162-165 | the saved listing is a permutation of `symbols.values()`, sorted by each symbol's href |
| Closure.TransitiveDeps | pyfla/FLA.py:300-332 | the corrected dependency set: it holds the direct dependencies, is closed under them, and lies within every such closed set |
| Closure.ResolveBounded | pyfla/FLA.py:300-332 | on a closed set, resolution keeps every cached set within it, in any query order |
| Closure.ResolvedWithinClosure | pyfla/FLA.py:300-332 | from no caches, `dependencies` never reports a symbol that is not reachable |
| Closure.CycleLosesDependency | pyfla/FLA.py:301-330 | on the three-symbol cycle, `b` caches `{a, b}`; it lacks `c`, which is reachable through `a`, so its set is not closed |

## Left out

- `pyfla/fileoperations.py` (zipping and unzipping) is not part of this model.
- Disk I/O is not modelled: `mkdtemp`, `funzip`, `fzip`, `rmtree` (`__del__`), `makedirs`, `shutil.copy` and every file read and write. Instead:
  - The temporary directory is a parameter.
  - The unpacked symbol files are a map from path to parsed document.
  - A missing `DOMDocument.xml` is an absent document.
  - `save` returns the (path, contents) pairs it would write.
  - `from_symbols` sets each symbol's file path but does not copy the file.
- XML parsing, namespace sniffing and `getiterator` are not modelled. A document is given as its folder and symbol entries. A symbol file is given as its root attributes and its timelines, layers, frames and instances in document order.
- The MD5 digest is a parameter (`Folders.Digest`). Its internals are outside the model.
- `_fix_insensitive_path` only renames files on disk, so it is not modelled.
- `fixencoding`, called by the `Symbol` constructor, is imported from `pyfla/fileoperations.py`, which defines only `fzip` and `funzip`; its definition is not part of this model.
- Unicode digits and whitespace beyond ASCII are left out of `int()`: `PyStrings.ParseInt` accepts the ASCII digits and the ASCII whitespace characters only.
- Encoding and decoding (`_unicode`, `.encode('utf-8')`) is left out: strings are sequences of characters.
- `__str__` of both classes is left out: it is display only.
- Template loading from `TPL_PATH` is left out: the templates are parameters of the constructor.
- The `isinstance` checks of `__add__` and `append` are left out: Dafny's types rule out a non-`FLA` operand.
- Dictionary iteration orders are parameters. `symbols.items()` and `symbols.values()` take an explicit key order, required to list every key once. `dir(self)` is the fixed list of public attribute names in `Fla.FLA.PublishValues`.
- Symbols.Symbol.SetLinkage: does not rewrite the backing file. It returns the new `DOMSymbolItem` opening tag that the source substitutes with `re.sub`.
- Symbols.Symbol.Dependencies: requires every symbol of its map to resolve names in that same map (`SymbolTable.Owns`). `Fla.Opened`, which `Fla.FLA.Open` and `Fla.FLA.FromFile` ensure, states this of every loaded symbol's map.
- Fla.FLA.Rebuild: requires every symbol to still carry the href it was loaded with. The source reads `attrs['href']` and would raise `KeyError` if it were missing; only `SetLinkage` changes a tag, and it keeps the href.
- Fla.FLA.Save: requires every symbol to still carry the href it was loaded with (`Fla.HrefsKept`), as `Rebuild` does. It sorts by that loaded href, which then equals `attrs['href']` (`Fla.SavedByAttrHref`); the `KeyError` the source would raise for a symbol without an href is not modelled.
- Fla.LoadedSymbols: a symbol whose backing file cannot be opened (the `IOError` that is skipped) is modelled as a file absent from the map of files.
- Symbols.Instantiate: its own contract states only that the instance is of a symbol of the map. The full cases are stated by `Symbols.InstantiateCases` and `Symbols.InstantiateAfterLookup`.

- Folders.FolderAttrs: lists `name` before `itemID`, a fixed order; the source renders the dict in CPython 2's hash order. Attribute order does not change what the XML means.
- Symbols.Symbol.ToXml: renders the tag's attributes in the order of the association list, not in CPython 2's hash order of the dict.
- Symbols.Symbol.SetLinkage: the new opening tag lists the root attributes in the order of the association list, not in CPython 2's hash order.
- Fla.FLA.PublishValues: lists the public attributes in the sorted order of `dir(self)`; the source substitutes them in the CPython 2 hash order of the dict built from that list. `Fla.FLA.Save` likewise fills `folders_xml` before `symbols_xml`. The order matters only when a value itself holds a placeholder.

## Findings

| source | as written | input that shows it | evidently intended | confidence | as-written member | corrected member |
|---|---|---|---|---|---|---|
| pyfla/FLA.py:300-332 | `_depcache` is set to an empty set before the instances are visited. A symbol reached again through a cycle answers with its partly filled set, and the caller caches the result for good. | Symbol `a` instantiates `b` and then `c`; `b` instantiates `a`; `c` has no instances. Asking `a.dependencies` first leaves `b.dependencies == {a, b}`, without `c`, though `c` is reachable from `b` through `a`. | Each symbol's dependencies are every symbol reachable through its instances: the least closed set that holds the direct dependencies. | medium; not executed | Closure.CycleLosesDependency | Closure.TransitiveDeps |

`Symbols.Symbol.Dependencies` models the code as written. `Closure.TransitiveDeps` computes the intended set. `Closure.ResolvedWithinClosure` shows the cached sets are never too large, only sometimes too small.
