/** JSON values as Python's `json.load` hands them to the pipeline. Objects are ordered
    association lists, because Python dicts keep insertion order and the pipeline's
    output (key order, overwrite position) depends on it. */
module JsonValues {

  datatype Option<T> = None | Some(value: T)

  /** Outcome of a source function that may raise: `Failure` stands for the Python
      exception (TypeError, AttributeError, ValueError) that the input provokes. */
  datatype Result<T> = Ok(value: T) | Failure

  datatype Json =
    | Null
    | Bool(b: bool)
    | Num(n: int)
    | Float(r: real)
    | Str(s: string)
    | Arr(items: seq<Json>)
    | Obj(fields: seq<(string, Json)>)

  /** The entries of a Python dict, in insertion order. */
  type Fields = seq<(string, Json)>

  /** Python's `bool(v)`. */
  predicate Truthy(v: Json)
  {
    match v
    case Null => false
    case Bool(b) => b
    case Num(n) => n != 0
    case Float(r) => r != 0.0
    case Str(s) => s != []
    case Arr(a) => a != []
    case Obj(f) => f != []
  }

  /** The keys of a dict in insertion order (`list(d)`). */
  function KeysOf(f: Fields): (ks: seq<string>)
    ensures |ks| == |f|
  {
    if f == [] then [] else [f[0].0] + KeysOf(f[1..])
  }

  /** `k in d`. */
  predicate HasKey(f: Fields, k: string)
  {
    f != [] && (f[0].0 == k || HasKey(f[1..], k))
  }

  /** Every dict the source sees has pairwise distinct keys. */
  predicate UniqueKeys(f: Fields)
  {
    f == [] || (!HasKey(f[1..], f[0].0) && UniqueKeys(f[1..]))
  }

  /** `d.get(k)`, with `None` for a missing key. */
  function Get(f: Fields, k: string): (r: Option<Json>)
    ensures r.Some? <==> HasKey(f, k)
    ensures r.Some? ==> (k, r.value) in f
  {
    if f == [] then None
    else if f[0].0 == k then Some(f[0].1)
    else Get(f[1..], k)
  }

  /** `d.get(k)` where the source only looks at the value: a missing key and a JSON
      null are both Python's `None`. */
  function GetOrNull(f: Fields, k: string): Json
  {
    match Get(f, k)
    case Some(v) => v
    case None => Null
  }

  /** `d[k] = v`: the value is replaced in place when `k` is present, otherwise the
      pair is appended. */
  function Set(f: Fields, k: string, v: Json): (r: Fields)
    ensures Get(r, k) == Some(v)
    ensures forall k' :: k' != k ==> Get(r, k') == Get(f, k')
    ensures forall k' :: HasKey(r, k') <==> k' == k || HasKey(f, k')
    ensures HasKey(f, k) ==> KeysOf(r) == KeysOf(f)
    ensures !HasKey(f, k) ==> r == f + [(k, v)]
    ensures UniqueKeys(f) ==> UniqueKeys(r)
  {
    if f == [] then [(k, v)]
    else if f[0].0 == k then [(k, v)] + f[1..]
    else
      var rest := Set(f[1..], k, v);
      assert ([f[0]] + rest)[1..] == rest;
      assert !HasKey(f, k) ==> [f[0]] + (f[1..] + [(k, v)]) == f + [(k, v)];
      [f[0]] + rest
  }

  /** `d.pop(k, None)`. */
  function Remove(f: Fields, k: string): (r: Fields)
    ensures !HasKey(r, k)
    ensures forall k' :: k' != k ==> Get(r, k') == Get(f, k')
    ensures forall k' :: HasKey(r, k') <==> k' != k && HasKey(f, k')
    ensures !HasKey(f, k) ==> r == f
    ensures UniqueKeys(f) ==> UniqueKeys(r)
  {
    if f == [] then []
    else
      var rest := Remove(f[1..], k);
      if f[0].0 == k then rest
      else
        assert ([f[0]] + rest)[1..] == rest;
        [f[0]] + rest
  }

  /** The value under the LAST occurrence of `k`: what a dict built by assigning the
      pairs one after another ends up holding. */
  function LastGet(f: Fields, k: string): (r: Option<Json>)
    ensures r.Some? <==> HasKey(f, k)
  {
    if f == [] then None
    else if HasKey(f[1..], k) then LastGet(f[1..], k)
    else if f[0].0 == k then Some(f[0].1)
    else None
  }

  /** `acc.update(pairs)`: assigns the pairs into `acc` one after another. */
  function Update(acc: Fields, pairs: Fields): (r: Fields)
    ensures forall k :: HasKey(r, k) <==> HasKey(acc, k) || HasKey(pairs, k)
    ensures forall k :: Get(r, k) == if HasKey(pairs, k) then LastGet(pairs, k) else Get(acc, k)
    ensures UniqueKeys(acc) ==> UniqueKeys(r)
    decreases |pairs|
  {
    if pairs == [] then acc
    else Update(Set(acc, pairs[0].0, pairs[0].1), pairs[1..])
  }

  /** On dicts as the source has them, updating a dict with entries under new keys
      appends those entries; in particular `{}.update(d)` copies `d`. */
  lemma {:induction false} UpdateCopies(acc: Fields, pairs: Fields)
    requires UniqueKeys(pairs)
    requires forall k :: HasKey(acc, k) ==> !HasKey(pairs, k)
    ensures Update(acc, pairs) == acc + pairs
    decreases |pairs|
  {
    if pairs != [] {
      var acc' := AppendFresh(acc, pairs);
      assert Update(acc, pairs) == Update(acc', pairs[1..]);
      UpdateCopies(acc', pairs[1..]);
      calc {
        Update(acc, pairs);
        Update(acc', pairs[1..]);
        acc' + pairs[1..];
        (acc + [pairs[0]]) + pairs[1..];
        { SeqAssoc(acc, [pairs[0]], pairs[1..]); }
        acc + ([pairs[0]] + pairs[1..]);
        { assert [pairs[0]] + pairs[1..] == pairs; }
        acc + pairs;
      }
    }
  }

  /** One step of UpdateCopies: the first pair goes to the end, and what is left of
      `pairs` still avoids every key. */
  lemma AppendFresh(acc: Fields, pairs: Fields) returns (acc': Fields)
    requires pairs != [] && UniqueKeys(pairs)
    requires forall k :: HasKey(acc, k) ==> !HasKey(pairs, k)
    ensures acc' == Set(acc, pairs[0].0, pairs[0].1) == acc + [pairs[0]]
    ensures forall k :: HasKey(acc', k) ==> !HasKey(pairs[1..], k)
  {
    var k0 := pairs[0].0;
    assert HasKey(pairs, k0);
    acc' := Set(acc, k0, pairs[0].1);
    forall k | HasKey(acc', k) ensures !HasKey(pairs[1..], k) {
      if k != k0 {
        assert !HasKey(pairs, k);
      }
    }
  }

  /** Concatenation is associative (used to re-bracket appended entries). */
  lemma SeqAssoc<T>(a: seq<T>, b: seq<T>, c: seq<T>)
    ensures (a + b) + c == a + (b + c)
  {
  }

  /** With distinct keys the last occurrence is the only one. */
  lemma {:induction false} LastGetUnique(f: Fields, k: string)
    requires UniqueKeys(f)
    ensures LastGet(f, k) == Get(f, k)
  {
    if f != [] {
      LastGetUnique(f[1..], k);
    }
  }

  /** `for k, v in src.items(): if keep(v): out[k] = conv(v)`, with `entry(v)` giving the
      converted value of a kept entry: the loop from the point where `out` holds what is
      built so far and `rest` is still to visit. */
  function AssignFrom(out: Fields, rest: Fields, entry: Json -> Option<Json>): Fields
    decreases |rest|
  {
    if rest == [] then out
    else
      match entry(rest[0].1)
      case Some(v) => AssignFrom(Set(out, rest[0].0, v), rest[1..], entry)
      case None => AssignFrom(out, rest[1..], entry)
  }

  /** Assigning the first key still to visit keeps the built dict disjoint from the rest. */
  lemma FreshAfterSet(out: Fields, rest: Fields, v: Json)
    requires rest != [] && UniqueKeys(rest)
    requires forall k :: HasKey(out, k) ==> !HasKey(rest, k)
    ensures !HasKey(out, rest[0].0) && Set(out, rest[0].0, v) == out + [(rest[0].0, v)]
    ensures forall k :: HasKey(Set(out, rest[0].0, v), k) ==> !HasKey(rest[1..], k)
  {
    assert HasKey(rest, rest[0].0);
    forall k | HasKey(Set(out, rest[0].0, v), k) ensures !HasKey(rest[1..], k) {
      if k != rest[0].0 {
        assert !HasKey(rest, k);
      }
    }
  }

  /** One step of the loop. */
  lemma AssignFromCons(out: Fields, rest: Fields, entry: Json -> Option<Json>)
    requires rest != []
    ensures entry(rest[0].1).Some? ==>
              AssignFrom(out, rest, entry) == AssignFrom(Set(out, rest[0].0, entry(rest[0].1).value), rest[1..], entry)
    ensures entry(rest[0].1).None? ==> AssignFrom(out, rest, entry) == AssignFrom(out, rest[1..], entry)
  {
  }

  /** On a dict, the built dict holds under each key of the source what `entry` makes of
      its value, and nothing under a key whose entry was skipped. */
  lemma {:induction false} AssignFromMeaning(out: Fields, rest: Fields, entry: Json -> Option<Json>, k: string)
    requires UniqueKeys(rest)
    requires forall k' :: HasKey(out, k') ==> !HasKey(rest, k')
    ensures Get(AssignFrom(out, rest, entry), k)
            == if HasKey(rest, k) then entry(GetOrNull(rest, k)) else Get(out, k)
    decreases |rest|
  {
    if rest != [] {
      var next := match entry(rest[0].1) case Some(v) => Set(out, rest[0].0, v) case None => out;
      assert HasKey(rest, rest[0].0);
      forall k' | HasKey(next, k') ensures !HasKey(rest[1..], k') {
        if k' != rest[0].0 {
          assert !HasKey(rest, k');
        }
      }
      AssignFromMeaning(next, rest[1..], entry, k);
    }
  }
}
