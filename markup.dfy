/** Text the library emits or rewrites: attribute escaping and `_tag_from_dict`, the
    placeholder substitution of `_replace_template`, and the entity fix applied to a
    symbol instance's library item name. */
module Markup {
  import opened Common
  import opened PyStrings
  import opened Attributes

  // ---------------------------------------------------------------- _tag_from_dict

  /** `v.replace('&', '&amp;')`: the only escaping attribute values receive. */
  function Escape(v: string): string
  {
    Replace(v, "&", "&amp;")
  }

  /** What an XML reader does to `&amp;`. */
  function Unescape(v: string): string
  {
    Replace(v, "&amp;", "&")
  }

  /** Escaping turns every `&` into `&amp;` and leaves every other character alone. */
  lemma EscapeCharwise(v: string)
    ensures Escape(v) == ReplaceChar(v, '&', "&amp;")
  {
    ReplaceOneChar(v, '&', "&amp;");
  }

  /** Reading an escaped value back gives the value: escaping loses nothing. */
  lemma {:induction false} UnescapeEscape(v: string)
    ensures Unescape(Escape(v)) == v
  {
    if v != [] {
      var e := Escape(v);
      UnescapeEscape(v[1..]);
      var rest := Escape(v[1..]);
      assert v[..1] == [v[0]];
      if v[0] == '&' {
        assert e == "&amp;" + rest;
        assert e[..5] == "&amp;" && e[5..] == rest;
        assert Unescape(e) == "&" + Unescape(rest);
      } else {
        assert e == [v[0]] + rest;
        assert e[..1] != "&";
        if |e| >= 5 {
          assert e[..5][0] == v[0];
          assert e[..5] != "&amp;";
        }
        assert e[1..] == rest;
        assert Unescape(e) == [v[0]] + Unescape(rest);
      }
      assert v == [v[0]] + v[1..];
    }
  }

  /** `'%s="%s" ' % (k, escaped v)` for every attribute, joined. */
  function AttrsText(attrs: Attrs): (r: string)
    ensures r == [] || r[|r| - 1] == ' '
  {
    if attrs == [] then ""
    else attrs[0].0 + "=\"" + Escape(attrs[0].1) + "\" " + AttrsText(attrs[1..])
  }

  /** `_tag_from_dict(tag, attrs, terminate)`: `<tag k="v" ... />`, or without the
      slash when the tag opens an element. */
  function TagFromAttrs(tag: string, attrs: Attrs, terminate: bool): string
  {
    "<" + tag + " " + AttrsText(attrs) + (if terminate then "/" else "") + ">"
  }

  /** A rendered tag ends with `/>` exactly when it was asked to be self-closing. */
  lemma TagEnding(tag: string, attrs: Attrs, terminate: bool)
    ensures |TagFromAttrs(tag, attrs, terminate)| >= 2
    ensures var r := TagFromAttrs(tag, attrs, terminate);
      r[|r| - 2..] == "/>" <==> terminate
  {
    var body := "<" + tag + " " + AttrsText(attrs);
    assert body[|body| - 1] == ' ';
    var r := TagFromAttrs(tag, attrs, terminate);
    if !terminate {
      assert r == body + ">";
      assert r[|r| - 2] == ' ';
    }
  }

  // ---------------------------------------------------------------- entity fix

  /** `ENTITIES_FIX`, in the order the source replaces them. */
  const EntitiesFix: seq<char> := [':', '<', '>']

  /** `"&#%d" % ord(c)`: a numeric character reference without the closing `;`. */
  function Entity(c: char): string
  {
    "&#" + Decimal(c as int)
  }

  /** The library item name after `name = name.replace(char, "&#%d" % ord(char))` for
      each of `chars` in turn. */
  function FixEntities(name: string, chars: seq<char>): string
    decreases |chars|
  {
    if chars == [] then name
    else FixEntities(Replace(name, [chars[0]], Entity(chars[0])), chars[1..])
  }

  /** The loop over `ENTITIES_FIX` in `Symbol._dependencies`. */
  method FixName(raw: string) returns (name: string)
    ensures name == FixEntities(raw, EntitiesFix)
  {
    name := raw;
    for i := 0 to |EntitiesFix|
      invariant FixEntities(name, EntitiesFix[i..]) == FixEntities(raw, EntitiesFix)
    {
      name := Replace(name, [EntitiesFix[i]], Entity(EntitiesFix[i]));
    }
  }

  /** Reference definition of the fixed name, one character at a time. */
  function EscapeEntities(s: string): (r: string)
    ensures ':' !in r && '<' !in r && '>' !in r
  {
    if s == [] then [] else EntityFor(s[0]) + EscapeEntities(s[1..])
  }

  function EntityFor(c: char): (r: string)
    ensures ':' !in r && '<' !in r && '>' !in r
  {
    if c == ':' then "&#58" else if c == '<' then "&#60" else if c == '>' then "&#62" else [c]
  }

  function ReplaceEntityChars(s: string): string
  {
    ReplaceChar(ReplaceChar(ReplaceChar(s, ':', "&#58"), '<', "&#60"), '>', "&#62")
  }

  lemma ReplaceEntityCharsAppend(a: string, b: string)
    ensures ReplaceEntityChars(a + b) == ReplaceEntityChars(a) + ReplaceEntityChars(b)
  {
    ReplaceCharAppend(a, b, ':', "&#58");
    var a1, b1 := ReplaceChar(a, ':', "&#58"), ReplaceChar(b, ':', "&#58");
    ReplaceCharAppend(a1, b1, '<', "&#60");
    var a2, b2 := ReplaceChar(a1, '<', "&#60"), ReplaceChar(b1, '<', "&#60");
    ReplaceCharAppend(a2, b2, '>', "&#62");
  }

  lemma ReplaceCharSingle(c: char, x: char, rep: string)
    ensures ReplaceChar([c], x, rep) == if c == x then rep else [c]
  {
    assert [c][1..] == [];
    assert ReplaceChar([c], x, rep) == (if c == x then rep else [c]) + ReplaceChar([], x, rep);
  }

  lemma ReplaceEntityCharsSingle(c: char)
    ensures ReplaceEntityChars([c]) == EntityFor(c)
  {
    ReplaceCharSingle(c, ':', "&#58");
    if c == ':' {
      ReplaceCharAbsent("&#58", '<', "&#60");
      ReplaceCharAbsent("&#58", '>', "&#62");
    } else {
      ReplaceCharSingle(c, '<', "&#60");
      if c == '<' {
        ReplaceCharAbsent("&#60", '>', "&#62");
      } else {
        ReplaceCharSingle(c, '>', "&#62");
      }
    }
  }

  lemma {:induction false} ReplaceEntityCharsIsEscape(s: string)
    ensures ReplaceEntityChars(s) == EscapeEntities(s)
  {
    if s != [] {
      assert s == [s[0]] + s[1..];
      ReplaceEntityCharsAppend([s[0]], s[1..]);
      ReplaceEntityCharsSingle(s[0]);
      ReplaceEntityCharsIsEscape(s[1..]);
    }
  }

  /** After the fix the name holds no `:`, `<` or `>`, and each of them became `&#`
      followed by its code point (58, 60, 62). */
  lemma FixEntitiesCharwise(s: string)
    ensures FixEntities(s, EntitiesFix) == EscapeEntities(s)
  {
    assert Decimal(58) == "58" && Decimal(60) == "60" && Decimal(62) == "62";
    assert Entity(':') == "&#58" && Entity('<') == "&#60" && Entity('>') == "&#62";
    var s1 := Replace(s, [':'], "&#58");
    var s2 := Replace(s1, ['<'], "&#60");
    var s3 := Replace(s2, ['>'], "&#62");
    assert FixEntities(s, EntitiesFix) == FixEntities(s1, ['<', '>']);
    assert FixEntities(s1, ['<', '>']) == FixEntities(s2, ['>']);
    assert FixEntities(s2, ['>']) == FixEntities(s3, []);
    ReplaceOneChar(s, ':', "&#58");
    ReplaceOneChar(s1, '<', "&#60");
    ReplaceOneChar(s2, '>', "&#62");
    ReplaceEntityCharsIsEscape(s);
  }

  // ---------------------------------------------------------------- _replace_template

  /** A template value: strings (and unicode, encoded first) are substituted; any other
      value, an int for example, is skipped. */
  datatype Value = Text(s: string) | Other

  /** `"{{ %s }}" % k`. */
  function Placeholder(k: string): string
  {
    "{{ " + k + " }}"
  }

  /** The template after the substitutions of `values`, in order. */
  function Substitute(tpl: string, values: seq<(string, Value)>): string
    decreases |values|
  {
    if values == [] then tpl
    else
      var next := match values[0].1
        case Text(v) => Replace(tpl, Placeholder(values[0].0), v)
        case Other => tpl;
      Substitute(next, values[1..])
  }

  /** `FLA._replace_template`. */
  method ReplaceTemplate(tpl: string, values: seq<(string, Value)>) returns (r: string)
    ensures r == Substitute(tpl, values)
  {
    r := tpl;
    for i := 0 to |values|
      invariant Substitute(r, values[i..]) == Substitute(tpl, values)
    {
      match values[i].1
      case Text(v) =>
        r := Replace(r, Placeholder(values[i].0), v);
      case Other =>
    }
  }

  /** A template made of the texts `parts` with the placeholder of `keys[i]` between
      `parts[i]` and `parts[i + 1]`. */
  function Template(parts: seq<string>, keys: seq<string>): string
    requires |parts| == |keys| + 1
    decreases |keys|
  {
    if keys == [] then parts[0] else parts[0] + Placeholder(keys[0]) + Template(parts[1..], keys[1..])
  }

  /** The same texts with `vals[i]` where the placeholder of `keys[i]` was. */
  function Filled(parts: seq<string>, vals: seq<string>): string
    requires |parts| == |vals| + 1
    decreases |vals|
  {
    if vals == [] then parts[0] else parts[0] + vals[0] + Filled(parts[1..], vals[1..])
  }

  /** The string values `vals` under the names `keys`, in order. */
  function Texts(keys: seq<string>, vals: seq<string>): (r: seq<(string, Value)>)
    requires |keys| == |vals|
    ensures |r| == |keys| && forall i :: 0 <= i < |keys| ==> r[i] == (keys[i], Text(vals[i]))
  {
    seq(|keys|, i requires 0 <= i < |keys| => (keys[i], Text(vals[i])))
  }

  /** A name that can sit in a placeholder without being mistaken for another. */
  predicate PlainKey(k: string)
  {
    '{' !in k && '}' !in k
  }

  /** The characters of a placeholder: `{{`, a space, the name, a space, `}}`. */
  lemma PlaceholderAt(k: string, q: nat)
    requires q < |Placeholder(k)|
    ensures |Placeholder(k)| == |k| + 6
    ensures Placeholder(k)[q] ==
      if q < 2 then '{' else if q == 2 then ' ' else if q < 3 + |k| then k[q - 3]
      else if q == 3 + |k| then ' ' else '}'
  {
  }

  /** The placeholders of two different plain names differ within the shorter one. */
  lemma PlaceholdersDiffer(ki: string, kj: string, y: string)
    requires PlainKey(ki) && PlainKey(kj) && ki != kj
    ensures var s := Placeholder(kj) + y;
      |s| < |Placeholder(ki)| || s[..|Placeholder(ki)|] != Placeholder(ki)
  {
    var pi, pj := Placeholder(ki), Placeholder(kj);
    var s := pj + y;
    var q: nat;
    if |ki| < |kj| {
      q := 4 + |ki|;
      PlaceholderAt(ki, q);
      PlaceholderAt(kj, q);
      if q - 3 < |kj| {
        assert kj[q - 3] in kj;
      }
    } else if |ki| > |kj| {
      q := 4 + |kj|;
      PlaceholderAt(ki, q);
      PlaceholderAt(kj, q);
      if q - 3 < |ki| {
        assert ki[q - 3] in ki;
      }
    } else {
      var d :| 0 <= d < |ki| && ki[d] != kj[d];
      q := d + 3;
      PlaceholderAt(ki, q);
      PlaceholderAt(kj, q);
    }
    assert q < |pi| && q < |pj| && s[q] == pj[q] != pi[q];
    if |s| >= |pi| {
      assert s[..|pi|][q] != pi[q];
    }
  }

  /** No placeholder of one name starts where the placeholder of another name is. */
  lemma PlaceholderSkip(kj: string, ki: string, y: string, v: string)
    requires PlainKey(ki) && PlainKey(kj) && ki != kj
    ensures Replace(Placeholder(kj) + y, Placeholder(ki), v) == Placeholder(kj) + Replace(y, Placeholder(ki), v)
  {
    var pi, pj := Placeholder(ki), Placeholder(kj);
    var s := pj + y;
    PlaceholdersDiffer(ki, kj, y);
    ReplaceNoMatch(s, pi, v);
    var t := s[1..];
    var rest := " " + kj + " }}";
    assert t == ['{'] + (rest + y);
    if |t| >= |pi| {
      assert t[..|pi|][1] == ' ' != pi[1];
    }
    ReplaceNoMatch(t, pi, v);
    assert t[1..] == rest + y;
    ReplaceSkip(rest, y, pi, v);
    assert [s[0]] + [t[0]] + rest == pj;
  }

  /** Substituting a name the template has no placeholder for changes nothing. */
  lemma {:induction false} TemplateWithout(parts: seq<string>, keys: seq<string>, k: string, v: string)
    requires |parts| == |keys| + 1 && PlainKey(k) && k !in keys
    requires forall i :: 0 <= i < |parts| ==> '{' !in parts[i]
    requires forall i :: 0 <= i < |keys| ==> PlainKey(keys[i])
    ensures Replace(Template(parts, keys), Placeholder(k), v) == Template(parts, keys)
    decreases |keys|
  {
    var p := Placeholder(k);
    assert p[0] == '{';
    if keys == [] {
      ReplaceSkip(parts[0], "", p, v);
      assert parts[0] + "" == parts[0];
    } else {
      var tail := Template(parts[1..], keys[1..]);
      assert keys[0] in keys;
      ReplaceSkip(parts[0], Placeholder(keys[0]) + tail, p, v);
      PlaceholderSkip(keys[0], k, tail, v);
      TemplateWithout(parts[1..], keys[1..], k, v);
      assert Template(parts, keys) == parts[0] + (Placeholder(keys[0]) + tail);
    }
  }

  /** Text in front of a template joins its first text. */
  lemma TemplatePrefix(parts: seq<string>, keys: seq<string>, x: string)
    requires |parts| == |keys| + 1
    ensures Template([x + parts[0]] + parts[1..], keys) == x + Template(parts, keys)
  {
    var merged := [x + parts[0]] + parts[1..];
    if keys != [] {
      assert merged[1..] == parts[1..];
    }
  }

  /** Filling the first placeholder of a template leaves a template with one
      placeholder fewer, whose first text is the value between its neighbours. */
  lemma FillFirst(parts: seq<string>, keys: seq<string>, v: string)
    requires |parts| == |keys| + 1 && keys != [] && keys[0] !in keys[1..]
    requires forall i :: 0 <= i < |keys| ==> PlainKey(keys[i])
    requires forall i :: 0 <= i < |parts| ==> '{' !in parts[i]
    ensures Replace(Template(parts, keys), Placeholder(keys[0]), v)
      == Template([parts[0] + v + parts[1]] + parts[2..], keys[1..])
  {
    var p := Placeholder(keys[0]);
    var tail := Template(parts[1..], keys[1..]);
    assert p[0] == '{';
    assert Template(parts, keys) == parts[0] + (p + tail);
    ReplaceSkip(parts[0], p + tail, p, v);
    ReplaceMatch(p, tail, v);
    TemplateWithout(parts[1..], keys[1..], keys[0], v);
    assert Replace(Template(parts, keys), p, v) == (parts[0] + v) + tail;
    TemplatePrefix(parts[1..], keys[1..], parts[0] + v);
    assert [(parts[0] + v) + parts[1..][0]] + parts[1..][1..] == [parts[0] + v + parts[1]] + parts[2..];
  }

  /** `_replace_template` with string values for distinct plain names, each having one
      placeholder in the template, puts each value where its placeholder was, provided
      no `{` occurs in the text around the placeholders or in the values. */
  lemma {:induction false} FillPlaceholders(parts: seq<string>, keys: seq<string>, vals: seq<string>)
    requires |parts| == |keys| + 1 && |vals| == |keys|
    requires forall i, j :: 0 <= i < j < |keys| ==> keys[i] != keys[j]
    requires forall i :: 0 <= i < |keys| ==> PlainKey(keys[i]) && '{' !in vals[i]
    requires forall i :: 0 <= i < |parts| ==> '{' !in parts[i]
    ensures Substitute(Template(parts, keys), Texts(keys, vals)) == Filled(parts, vals)
    decreases |keys|
  {
    if keys != [] {
      assert keys[0] !in keys[1..] by {
        forall j | 0 <= j < |keys[1..]| ensures keys[1..][j] != keys[0] {
          assert keys[1..][j] == keys[j + 1];
        }
      }
      FillFirst(parts, keys, vals[0]);
      var merged := [parts[0] + vals[0] + parts[1]] + parts[2..];
      assert Texts(keys, vals)[1..] == Texts(keys[1..], vals[1..]);
      assert '{' !in merged[0];
      FillPlaceholders(merged, keys[1..], vals[1..]);
      if vals[1..] != [] {
        assert merged[1..] == parts[1..][1..];
      }
    }
  }

  /** A template without placeholders comes back unchanged whatever the values. */
  lemma {:induction false} NoPlaceholderUnchanged(tpl: string, values: seq<(string, Value)>)
    requires '{' !in tpl
    ensures Substitute(tpl, values) == tpl
  {
    if values != [] {
      match values[0].1 {
        case Text(v) =>
          ReplaceSkip(tpl, "", Placeholder(values[0].0), v);
          assert tpl + "" == tpl;
        case Other =>
      }
      NoPlaceholderUnchanged(tpl, values[1..]);
    }
  }
}
