/** XML attribute dictionaries (`element.attrib`, a symbol's `attrs`) as association
    lists, so that the order in which they are rendered is explicit. Assigning a key
    that is present replaces its value in place; assigning a new key appends it;
    `del` removes the key. */
module Attributes {
  import opened Common

  type Attrs = seq<(string, string)>

  /** `a.get(k)`: the value of the first entry with key `k`. */
  function Get(a: Attrs, k: string): (r: Option<string>)
    ensures r.None? <==> forall i :: 0 <= i < |a| ==> a[i].0 != k
  {
    if a == [] then None
    else if a[0].0 == k then Some(a[0].1)
    else Get(a[1..], k)
  }

  /** `a[k]`: the value, or the KeyError Python raises when the key is missing. */
  function Lookup(a: Attrs, k: string): Result<string>
  {
    match Get(a, k)
    case Some(v) => Ok(v)
    case None => Err(KeyError(k))
  }

  /** `a[k] = v`. */
  function Put(a: Attrs, k: string, v: string): (r: Attrs)
    ensures Get(r, k) == Some(v)
    ensures forall k' :: k' != k ==> Get(r, k') == Get(a, k')
  {
    if a == [] then [(k, v)]
    else if a[0].0 == k then [(k, v)] + a[1..]
    else [a[0]] + Put(a[1..], k, v)
  }

  /** `del a[k]` (a no-op here when `k` is absent; the source tests for the key first). */
  function Delete(a: Attrs, k: string): (r: Attrs)
    ensures Get(r, k) == None
    ensures forall k' :: k' != k ==> Get(r, k') == Get(a, k')
    ensures |r| <= |a|
  {
    if a == [] then []
    else if a[0].0 == k then Delete(a[1..], k)
    else [a[0]] + Delete(a[1..], k)
  }
}
