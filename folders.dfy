/** Library folders: the folder entry built for a path, its item id, the directory
    prefixes a symbol's folder path implies, and the insertion-ordered folder map
    (`FLA.folders`, an OrderedDict) they are collected in. */
module Folders {
  import opened Common
  import opened PyStrings
  import opened Attributes

  /** `md5(path.encode('utf-8')).hexdigest()`: the hash itself is outside the model,
      so every operation that derives ids takes it as a parameter. */
  type Digest = string -> string

  /** One `DOMFolderItem`: `{'name': path, 'itemID': ...}`. */
  datatype Folder = Folder(name: string, itemID: string)

  /** `"0000%s-0000%s" % (uid[:4], uid[4:8])`. */
  function ItemId(uid: string): string
  {
    "0000" + Slice(uid, 0, 4) + "-0000" + Slice(uid, 4, 8)
  }

  /** The folder entry the source stores for `path`, both on load and when folders are
      derived from symbols. */
  function MakeFolder(path: string, md5: Digest): Folder
  {
    Folder(path, ItemId(md5(path)))
  }

  /** The attributes `_tag_from_dict('DOMFolderItem', f)` renders, in a fixed order
      with `name` first (the source renders the dict in its hash order). */
  function FolderAttrs(f: Folder): Attrs
  {
    [("name", f.name), ("itemID", f.itemID)]
  }

  /** Reads the eight digest characters back out of an item id. */
  function DigestOfItemId(id: string): string
    requires |id| == 17
  {
    id[4..8] + id[13..17]
  }

  /** An item id has the shape `0000XXXX-0000YYYY`, and its XXXX and YYYY are the first
      eight characters of the digest. */
  lemma ItemIdShape(uid: string)
    requires |uid| >= 8
    ensures |ItemId(uid)| == 17
    ensures ItemId(uid)[..4] == "0000" && ItemId(uid)[8..13] == "-0000"
    ensures DigestOfItemId(ItemId(uid)) == uid[..8]
  {
    var id := ItemId(uid);
    assert Slice(uid, 0, 4) == uid[..4] && Slice(uid, 4, 8) == uid[4..8];
    assert id == "0000" + uid[..4] + "-0000" + uid[4..8];
    assert id[4..8] == uid[..4] && id[13..17] == uid[4..8];
    assert uid[..8] == uid[..4] + uid[4..8];
  }

  /** Two item ids are equal exactly when the digests agree on their first eight
      characters: equal paths always get equal ids, and different ids always come from
      different digests. */
  lemma ItemIdInjective(u1: string, u2: string)
    requires |u1| >= 8 && |u2| >= 8
    ensures ItemId(u1) == ItemId(u2) <==> u1[..8] == u2[..8]
  {
    ItemIdShape(u1);
    ItemIdShape(u2);
    if u1[..8] == u2[..8] {
      assert u1[..4] == u1[..8][..4] == u2[..8][..4] == u2[..4];
      assert u1[4..8] == u1[..8][4..] == u2[..8][4..] == u2[4..8];
      assert Slice(u1, 0, 4) == Slice(u2, 0, 4) && Slice(u1, 4, 8) == Slice(u2, 4, 8);
    }
  }

  // ---------------------------------------------------------------- folder paths

  /** The `paths` lambda of `from_symbols`: `[]` when `dirname(n) == n`, otherwise
      `paths(dirname(n)) + [n]`. */
  function Paths(n: string): seq<string>
    decreases |n|
  {
    if n == Dirname(n) then [] else Paths(Dirname(n)) + [n]
  }

  /** `paths(n)` is empty exactly for "" (or slashes only), and otherwise ends with `n`
      itself. */
  lemma PathsEnds(n: string)
    ensures Paths(n) == [] <==> AllSlashes(n)
    ensures Paths(n) != [] ==> Paths(n)[|Paths(n)| - 1] == n
  {
    DirnameFixpoint(n);
  }

  /** Every entry of `paths(n)` is a prefix of `n`. */
  lemma {:induction false} PathsPrefixes(n: string)
    ensures forall i :: 0 <= i < |Paths(n)| ==> |Paths(n)[i]| <= |n| && Paths(n)[i] == n[..|Paths(n)[i]|]
    decreases |n|
  {
    var up := Dirname(n);
    if n != up {
      PathsPrefixes(up);
      var r := Paths(n);
      assert r == Paths(up) + [n];
      forall i | 0 <= i < |r| ensures |r[i]| <= |n| && r[i] == n[..|r[i]|] {
        if i < |r| - 1 {
          assert r[i] == Paths(up)[i];
          assert up == n[..|up|];
        }
      }
    }
  }

  /** The entries of `paths(n)` grow strictly longer: shortest first, no repeats. */
  lemma {:induction false} PathsIncreasing(n: string)
    ensures forall i, j :: 0 <= i < j < |Paths(n)| ==> |Paths(n)[i]| < |Paths(n)[j]|
    decreases |n|
  {
    var up := Dirname(n);
    if n != up {
      PathsIncreasing(up);
      PathsPrefixes(up);
      var r := Paths(n);
      assert r == Paths(up) + [n];
      assert |up| < |n|;
      forall i, j | 0 <= i < j < |r| ensures |r[i]| < |r[j]| {
        if j < |r| - 1 {
          assert r[i] == Paths(up)[i] && r[j] == Paths(up)[j];
        } else {
          assert r[i] == Paths(up)[i];
        }
      }
    }
  }

  /** A library-relative folder path as symbol hrefs carry them: no leading or trailing
      slash and no empty component. */
  predicate RelPath(d: string)
  {
    d != [] ==>
      && d[0] != '/' && d[|d| - 1] != '/'
      && forall i :: 0 <= i < |d| - 1 ==> !(d[i] == '/' && d[i + 1] == '/')
  }

  /** `p` names `d` or one of the folders `d` lies in. */
  predicate IsDirPrefix(p: string, d: string)
  {
    0 < |p| <= |d| && p == d[..|p|] && (|p| == |d| || d[|p|] == '/')
  }

  /** For a relative folder path, `dirname` cuts off the last component. */
  lemma DirnameOfRelPath(d: string)
    requires RelPath(d) && d != []
    ensures LastSlash(d) < 0 ==> Dirname(d) == []
    ensures LastSlash(d) >= 0 ==> 0 < LastSlash(d) && Dirname(d) == d[..LastSlash(d)]
    ensures RelPath(Dirname(d))
  {
    var i := LastSlash(d);
    if i >= 0 {
      var head := d[..i + 1];
      assert i > 0 && d[i - 1] != '/';
      assert head[|head| - 1] == '/';
      assert !AllSlashes(head) by { assert head[0] != '/'; }
      assert head[..|head| - 1] == d[..i];
      assert RStripSlashes(head) == RStripSlashes(d[..i]);
      assert RStripSlashes(d[..i]) == d[..i];
    }
  }

  /** Cutting the last component off a relative path keeps exactly the folder prefixes
      other than the path itself. */
  lemma DirPrefixStep(d: string, p: string)
    requires RelPath(d) && d != []
    ensures IsDirPrefix(p, d) <==> p == d || IsDirPrefix(p, Dirname(d))
  {
    DirnameOfRelPath(d);
    var up, i := Dirname(d), LastSlash(d);
    if IsDirPrefix(p, d) && p != d {
      assert |p| < |d| && d[|p|] == '/';
      assert |p| <= i;
      assert IsDirPrefix(p, up);
    }
    if IsDirPrefix(p, up) {
      assert i >= 0;
    }
  }

  /** The prefixes `paths` produces for a relative folder path are exactly the folders
      it names: every `p` in the list is a directory prefix, and every directory prefix
      is in the list. */
  lemma {:induction false} PathsAreDirPrefixes(d: string, p: string)
    requires RelPath(d)
    ensures p in Paths(d) <==> IsDirPrefix(p, d)
    decreases |d|
  {
    if d == [] {
      assert AllSlashes(d);
    } else {
      DirnameOfRelPath(d);
      DirnameFixpoint(d);
      assert !AllSlashes(d) by { assert d[0] != '/'; }
      assert Paths(d) == Paths(Dirname(d)) + [d];
      PathsAreDirPrefixes(Dirname(d), p);
      DirPrefixStep(d, p);
    }
  }


  // ---------------------------------------------------------------- the folder map

  /** `FLA.folders`: an OrderedDict from path to folder entry, kept as the list of
      keys in insertion order beside the entries. */
  datatype FolderMap = FolderMap(order: seq<string>, entries: map<string, Folder>) {

    ghost predicate Valid()
    {
      && (forall i, j :: 0 <= i < j < |order| ==> order[i] != order[j])
      && (forall p :: p in entries <==> p in order)
    }

    /** `folders[path] = f`: a present key keeps its position, a new key goes last. */
    function Put(path: string, f: Folder): (r: FolderMap)
      ensures Valid() ==> r.Valid()
      ensures r.entries == entries[path := f]
      ensures path in entries ==> r.order == order
      ensures path !in entries ==> r.order == order + [path]
    {
      if path in entries then FolderMap(order, entries[path := f])
      else FolderMap(order + [path], entries[path := f])
    }

    /** `folders.itervalues()`, in insertion order. */
    function Values(): (r: seq<Folder>)
      requires Valid()
      ensures |r| == |order|
      ensures forall i :: 0 <= i < |r| ==> r[i] == entries[order[i]]
    {
      seq(|order|, i requires 0 <= i < |order| => entries[order[i]])
    }
  }

  const NoFolders := FolderMap([], map[])

  /** Every entry is the one the source builds for its path: the name is the path and
      the id is derived from the path's digest. */
  ghost predicate Canonical(m: FolderMap, md5: Digest)
  {
    forall p :: p in m.entries ==> m.entries[p] == MakeFolder(p, md5)
  }
}
