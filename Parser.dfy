/**
 * Configuration expansion (util/parser.py): a parsed JSON descriptor whose
 * fields are strings or lists denotes one concrete configuration per element
 * of the Cartesian product of its list fields, with the string fields laid
 * over each of them.
 */
module Parser {
  import opened Wrappers

  /** A JSON value as the JSON reader hands it over (numbers are kept as integers). */
  datatype Json =
    | JString(s: string)
    | JNumber(n: int)
    | JBool(b: bool)
    | JNull
    | JArray(items: seq<Json>)
    | JObject(fields: map<string, Json>)

  /** The top-level JSON object of a config file. */
  type Descriptor = map<string, Json>

  /** One concrete configuration: every field bound to a single value. */
  type Configuration = map<string, Json>

  /** The exception `_collect` raises for a field that is neither a string nor a list. */
  datatype ParseError = UnsupportedType(value: Json)

  predicate Distinct<T(==)>(s: seq<T>) {
    forall i, j :: 0 <= i < j < |s| ==> s[i] != s[j]
  }

  /** `keys` enumerates `domain` once each: the iteration order of a dictionary. */
  ghost predicate IsOrder(keys: seq<string>, domain: set<string>) {
    Distinct(keys) && forall k :: k in domain <==> k in keys
  }

  /** The value shapes `_collect` accepts. */
  predicate Supported(v: Json) {
    v.JString? || v.JArray?
  }

  predicate AllSupported(content: Descriptor) {
    forall k :: k in content ==> Supported(content[k])
  }

  /** The string-valued fields of a descriptor. */
  function Scalars(content: Descriptor): map<string, Json> {
    map k | k in content && content[k].JString? :: content[k]
  }

  /** The list-valued fields of a descriptor, each with its list. */
  function Lists(content: Descriptor): map<string, seq<Json>> {
    map k | k in content && content[k].JArray? :: content[k].items
  }

  /** `err` is the error for the first field, in iteration order, whose value is unsupported. */
  predicate FirstUnsupported(content: Descriptor, order: seq<string>, err: ParseError)
    requires IsOrder(order, content.Keys)
  {
    exists i :: 0 <= i < |order| && !Supported(content[order[i]])
      && err == UnsupportedType(content[order[i]])
      && forall j :: 0 <= j < i ==> Supported(content[order[j]])
  }

  /**
   * `_collect`: walks the descriptor in iteration order `order`, filing each
   * string under the scalars and each list under the lists, and raises on the
   * first value of any other type.
   */
  method Collect(content: Descriptor, order: seq<string>)
    returns (r: Result<(map<string, Json>, map<string, seq<Json>>), ParseError>)
    requires IsOrder(order, content.Keys)
    ensures r.Success? <==> AllSupported(content)
    ensures r.Success? ==> r.value.0 == Scalars(content) && r.value.1 == Lists(content)
    ensures r.Success? ==> r.value.0.Keys !! r.value.1.Keys && r.value.0.Keys + r.value.1.Keys == content.Keys
    ensures r.Failure? ==> FirstUnsupported(content, order, r.error)
  {
    var unicodes: map<string, Json> := map[];
    var lists: map<string, seq<Json>> := map[];
    var i := 0;
    while i < |order|
      invariant 0 <= i <= |order|
      invariant forall j :: 0 <= j < i ==> Supported(content[order[j]])
      invariant forall k :: k in unicodes <==> k in order[..i] && content[k].JString?
      invariant forall k :: k in unicodes ==> k in content && unicodes[k] == content[k]
      invariant forall k :: k in lists <==> k in order[..i] && content[k].JArray?
      invariant forall k :: k in lists ==> k in content && content[k].JArray? && lists[k] == content[k].items
    {
      var key := order[i];
      var value := content[key];
      assert order[..i + 1] == order[..i] + [key];
      if value.JString? {
        unicodes := unicodes[key := value];
      } else if value.JArray? {
        lists := lists[key := value.items];
      } else {
        return Failure(UnsupportedType(value));
      }
      i := i + 1;
    }
    assert order[..i] == order;
    assert unicodes == Scalars(content);
    assert lists == Lists(content);
    return Success((unicodes, lists));
  }

  // ---------------------------------------------------------------------------
  // `itertools.product` and `_cross_product`
  // ---------------------------------------------------------------------------

  /** Each tail with `x` in front of it. */
  function Prepend(x: Json, tails: seq<seq<Json>>): (r: seq<seq<Json>>)
    ensures |r| == |tails|
    ensures forall j :: 0 <= j < |tails| ==> r[j] == [x] + tails[j]
  {
    if tails == [] then [] else [[x] + tails[0]] + Prepend(x, tails[1..])
  }

  lemma MulSucc(a: nat, b: nat)
    ensures (a + 1) * b == b + a * b
  {
  }

  /** Every head in front of every tail, heads varying slowest. */
  function PrependEach(heads: seq<Json>, tails: seq<seq<Json>>): (r: seq<seq<Json>>)
    ensures |r| == |heads| * |tails|
  {
    if heads == [] then []
    else
      MulSucc(|heads| - 1, |tails|);
      Prepend(heads[0], tails) + PrependEach(heads[1..], tails)
  }

  /** The product of the pool sizes. */
  function Size(pools: seq<seq<Json>>): nat {
    if pools == [] then 1 else |pools[0]| * Size(pools[1..])
  }

  /** `t` takes one element from each pool, in pool order. */
  predicate IsCombination(pools: seq<seq<Json>>, t: seq<Json>) {
    |t| == |pools| && forall i :: 0 <= i < |t| ==> t[i] in pools[i]
  }

  /** `itertools.product(*pools)`: all combinations, the first pool varying slowest. */
  function Product(pools: seq<seq<Json>>): (r: seq<seq<Json>>)
    ensures |r| == Size(pools)
  {
    if pools == [] then [[]] else PrependEach(pools[0], Product(pools[1..]))
  }

  /** How many times `x` occurs in `s`. */
  function Count<T(==)>(s: seq<T>, x: T): nat {
    if s == [] then 0 else (if s[0] == x then 1 else 0) + Count(s[1..], x)
  }

  /** `Count` is the multiplicity in the multiset of the sequence. */
  lemma {:induction false} CountMultiset<T>(s: seq<T>, x: T)
    ensures Count(s, x) == multiset(s)[x]
  {
    if s != [] {
      CountMultiset(s[1..], x);
      assert s == [s[0]] + s[1..];
    }
  }

  lemma {:induction false} CountConcat<T>(a: seq<T>, b: seq<T>, x: T)
    ensures Count(a + b, x) == Count(a, x) + Count(b, x)
  {
    if a != [] {
      CountConcat(a[1..], b, x);
      assert (a + b)[0] == a[0];
      assert (a + b)[1..] == a[1..] + b;
    } else {
      assert a + b == b;
    }
  }

  lemma {:induction false} CountPositive<T>(s: seq<T>, i: nat)
    requires i < |s|
    ensures Count(s, s[i]) >= 1
  {
    if i > 0 {
      CountPositive(s[1..], i - 1);
      assert s[1..][i - 1] == s[i];
    }
  }

  /** How many times `t` occurs in the product: the product of its components' multiplicities. */
  function Multiplicity(pools: seq<seq<Json>>, t: seq<Json>): nat {
    if pools == [] then (if t == [] then 1 else 0)
    else if t == [] then 0
    else Count(pools[0], t[0]) * Multiplicity(pools[1..], t[1..])
  }

  /** `[x] + tail` is `t` exactly when `t` starts with `x` followed by `tail`. */
  lemma PrependedEqual(x: Json, tail: seq<Json>, t: seq<Json>)
    ensures ([x] + tail == t) <==> (|t| > 0 && t[0] == x && t[1..] == tail)
  {
    if |t| > 0 && t[0] == x && t[1..] == tail {
      assert t == [t[0]] + t[1..];
    }
    if [x] + tail == t {
      assert t[1..] == ([x] + tail)[1..] == tail;
    }
  }

  lemma {:induction false} PrependCount(x: Json, tails: seq<seq<Json>>, t: seq<Json>)
    ensures Count(Prepend(x, tails), t) == if |t| > 0 && t[0] == x then Count(tails, t[1..]) else 0
  {
    if tails != [] {
      PrependCount(x, tails[1..], t);
      assert Prepend(x, tails)[1..] == Prepend(x, tails[1..]);
      PrependedEqual(x, tails[0], t);
    }
  }

  lemma MulAddLeft(a: nat, b: nat, c: nat)
    ensures (a + b) * c == a * c + b * c
  {
  }

  lemma {:induction false} PrependEachCount(heads: seq<Json>, tails: seq<seq<Json>>, t: seq<Json>)
    ensures Count(PrependEach(heads, tails), t)
         == if |t| > 0 then Count(heads, t[0]) * Count(tails, t[1..]) else 0
  {
    if heads != [] {
      var rest := heads[1..];
      PrependCount(heads[0], tails, t);
      PrependEachCount(rest, tails, t);
      CountConcat(Prepend(heads[0], tails), PrependEach(rest, tails), t);
      if |t| > 0 {
        var a := if heads[0] == t[0] then 1 else 0;
        var b := Count(rest, t[0]);
        var c := Count(tails, t[1..]);
        assert Count(heads, t[0]) == a + b;
        assert Count(Prepend(heads[0], tails), t) == a * c;
        MulAddLeft(a, b, c);
      }
    }
  }

  lemma {:induction false} ProductOccurrences(pools: seq<seq<Json>>, t: seq<Json>)
    ensures Count(Product(pools), t) == Multiplicity(pools, t)
  {
    if pools != [] {
      PrependEachCount(pools[0], Product(pools[1..]), t);
      if t != [] {
        ProductOccurrences(pools[1..], t[1..]);
      }
    } else {
      assert Product(pools) == [[]];
      assert Count(Product(pools)[1..], t) == 0;
    }
  }

  /** Every tuple occurs in the product exactly as often as `Multiplicity` says. */
  lemma ProductCount(pools: seq<seq<Json>>, t: seq<Json>)
    ensures multiset(Product(pools))[t] == Multiplicity(pools, t)
  {
    ProductOccurrences(pools, t);
    CountMultiset(Product(pools), t);
  }

  lemma {:induction false} MultiplicityPositive(pools: seq<seq<Json>>, t: seq<Json>)
    ensures Multiplicity(pools, t) > 0 <==> IsCombination(pools, t)
  {
    if pools != [] && t != [] {
      MultiplicityPositive(pools[1..], t[1..]);
      CountMultiset(pools[0], t[0]);
      if IsCombination(pools, t) {
        assert IsCombination(pools[1..], t[1..]) by {
          forall i | 0 <= i < |t| - 1 ensures t[1..][i] in pools[1..][i] {
            assert t[1..][i] == t[i + 1];
          }
        }
      }
      if IsCombination(pools[1..], t[1..]) && t[0] in pools[0] {
        forall i | 0 <= i < |t| ensures t[i] in pools[i] {
          if i > 0 { assert t[i] == t[1..][i - 1]; }
        }
      }
    }
  }

  /** A tuple is in the product exactly when it takes one element from each pool. */
  lemma ProductMembership(pools: seq<seq<Json>>, t: seq<Json>)
    ensures t in Product(pools) <==> IsCombination(pools, t)
  {
    ProductCount(pools, t);
    MultiplicityPositive(pools, t);
  }

  lemma ProductTupleLength(pools: seq<seq<Json>>)
    ensures forall t :: t in Product(pools) ==> |t| == |pools|
  {
    forall t | t in Product(pools) ensures |t| == |pools| {
      ProductMembership(pools, t);
    }
  }

  lemma {:induction false} DistinctCount(s: seq<Json>, x: Json)
    requires Distinct(s)
    ensures Count(s, x) <= 1
  {
    if s != [] {
      assert Distinct(s[1..]) by {
        forall i, j | 0 <= i < j < |s| - 1 ensures s[1..][i] != s[1..][j] {
          assert s[1..][i] == s[i + 1] && s[1..][j] == s[j + 1];
        }
      }
      DistinctCount(s[1..], x);
      if s[0] == x {
        assert x !in s[1..] by {
          forall j | 0 <= j < |s| - 1 ensures s[1..][j] != x {
            assert s[1..][j] == s[j + 1];
          }
        }
        CountAbsent(s[1..], x);
      }
    }
  }

  lemma {:induction false} CountAbsent<T>(s: seq<T>, x: T)
    requires x !in s
    ensures Count(s, x) == 0
  {
    if s != [] {
      assert x !in s[1..] by {
        forall j | 0 <= j < |s| - 1 ensures s[1..][j] != x {
          assert s[1..][j] == s[j + 1];
        }
      }
      CountAbsent(s[1..], x);
    }
  }

  lemma {:induction false} MultiplicityAtMostOne(pools: seq<seq<Json>>, t: seq<Json>)
    requires forall i :: 0 <= i < |pools| ==> Distinct(pools[i])
    ensures Multiplicity(pools, t) <= 1
  {
    if pools != [] && t != [] {
      DistinctCount(pools[0], t[0]);
      MultiplicityAtMostOne(pools[1..], t[1..]);
      var a := Count(pools[0], t[0]);
      var b := Multiplicity(pools[1..], t[1..]);
      assert a * b <= 1 by {
        if a == 0 || b == 0 { assert a * b == 0; } else { assert a == 1 && b == 1; }
      }
    }
  }

  lemma TwoOccurrences(s: seq<seq<Json>>, i: nat, j: nat)
    requires i < j < |s| && s[i] == s[j]
    ensures Count(s, s[i]) >= 2
  {
    assert s == s[..j] + s[j..];
    CountConcat(s[..j], s[j..], s[i]);
    CountPositive(s[..j], i);
    CountPositive(s[j..], 0);
  }

  /** With duplicate-free pools every combination occurs once: the product has no repeated tuple. */
  lemma ProductDistinct(pools: seq<seq<Json>>)
    requires forall i :: 0 <= i < |pools| ==> Distinct(pools[i])
    ensures Distinct(Product(pools))
  {
    var p := Product(pools);
    forall i, j | 0 <= i < j < |p| ensures p[i] != p[j] {
      if p[i] == p[j] {
        TwoOccurrences(p, i, j);
        ProductOccurrences(pools, p[i]);
        MultiplicityAtMostOne(pools, p[i]);
        assert false;
      }
    }
  }

  lemma ConcatAt(a: seq<seq<Json>>, b: seq<seq<Json>>, k: nat, k': nat)
    requires k == |a| + k' && k' < |b|
    ensures k < |a + b| && (a + b)[k] == b[k']
  {
  }

  lemma IndexShift(i: nat, n: nat, j: nat)
    requires i > 0
    ensures i * n + j == n + ((i - 1) * n + j)
  {
    MulSucc(i - 1, n);
  }

  /** The first `|tails|` entries put the first head in front of each tail. */
  lemma PrependEachFirst(heads: seq<Json>, tails: seq<seq<Json>>, j: nat)
    requires 0 < |heads| && j < |tails|
    ensures j < |PrependEach(heads, tails)| && PrependEach(heads, tails)[j] == [heads[0]] + tails[j]
  {
    var first := Prepend(heads[0], tails);
    assert PrependEach(heads, tails) == first + PrependEach(heads[1..], tails);
  }

  /** Past the first `|tails|` entries come the entries for the remaining heads. */
  lemma PrependEachLater(heads: seq<Json>, tails: seq<seq<Json>>, k: nat)
    requires 0 < |heads| && k < |PrependEach(heads[1..], tails)|
    ensures |tails| + k < |PrependEach(heads, tails)|
    ensures PrependEach(heads, tails)[|tails| + k] == PrependEach(heads[1..], tails)[k]
  {
    var first := Prepend(heads[0], tails);
    var rest := PrependEach(heads[1..], tails);
    assert PrependEach(heads, tails) == first + rest;
    ConcatAt(first, rest, |tails| + k, k);
  }

  lemma {:induction false} PrependEachAt(heads: seq<Json>, tails: seq<seq<Json>>, i: nat, j: nat)
    requires i < |heads| && j < |tails|
    ensures i * |tails| + j < |PrependEach(heads, tails)|
    ensures PrependEach(heads, tails)[i * |tails| + j] == [heads[i]] + tails[j]
  {
    if i == 0 {
      PrependEachFirst(heads, tails, j);
    } else {
      var k' := (i - 1) * |tails| + j;
      PrependEachAt(heads[1..], tails, i - 1, j);
      IndexShift(i, |tails|, j);
      PrependEachLater(heads, tails, k');
      assert heads[1..][i - 1] == heads[i];
    }
  }

  /** The nested-loop order: position `i * |rest| + j` pairs the i-th element of the first pool with the j-th tuple of the rest. */
  lemma ProductOrder(pools: seq<seq<Json>>, i: nat, j: nat)
    requires pools != [] && i < |pools[0]| && j < |Product(pools[1..])|
    ensures i * |Product(pools[1..])| + j < |Product(pools)|
    ensures Product(pools)[i * |Product(pools[1..])| + j] == [pools[0][i]] + Product(pools[1..])[j]
  {
    PrependEachAt(pools[0], Product(pools[1..]), i, j);
  }

  lemma {:induction false} SizeZero(pools: seq<seq<Json>>, k: nat)
    requires k < |pools| && pools[k] == []
    ensures Size(pools) == 0
  {
    if k > 0 {
      SizeZero(pools[1..], k - 1);
    }
  }

  /** `dict(zip(keys, tuple))`: a later key wins, as in a Python dictionary built from pairs. */
  function Zip(keys: seq<string>, tuple: seq<Json>): (r: map<string, Json>)
    requires |keys| == |tuple|
    ensures forall k :: k in r <==> k in keys
    ensures Distinct(keys) ==> forall i :: 0 <= i < |keys| ==> r[keys[i]] == tuple[i]
  {
    if keys == [] then map[]
    else
      var n := |keys| - 1;
      var front := Zip(keys[..n], tuple[..n]);
      ZipExtend(keys[..n], tuple[..n], keys[n], tuple[n], front);
      assert keys == keys[..n] + [keys[n]] && tuple == tuple[..n] + [tuple[n]];
      front[keys[n] := tuple[n]]
  }

  lemma DistinctPrefix<T>(s: seq<T>, n: nat)
    requires Distinct(s) && n <= |s|
    ensures Distinct(s[..n])
  {
    forall i, j | 0 <= i < j < n ensures s[..n][i] != s[..n][j] {
      assert s[..n][i] == s[i] && s[..n][j] == s[j];
    }
  }

  /** Adding one more key and its value to the zip of the others gives the zip of them all. */
  lemma ZipExtend(keys: seq<string>, tuple: seq<Json>, key: string, value: Json, front: map<string, Json>)
    requires |keys| == |tuple|
    requires forall k :: k in front <==> k in keys
    requires Distinct(keys) ==> forall i :: 0 <= i < |keys| ==> front[keys[i]] == tuple[i]
    ensures forall k :: k in front[key := value] <==> k in keys + [key]
    ensures Distinct(keys + [key]) ==>
              forall i :: 0 <= i < |keys| + 1 ==> front[key := value][(keys + [key])[i]] == (tuple + [value])[i]
  {
    var all := keys + [key];
    if Distinct(all) {
      DistinctPrefix(all, |keys|);
      assert all[..|keys|] == keys;
      forall i | 0 <= i < |keys| + 1 ensures front[key := value][all[i]] == (tuple + [value])[i] {
        if i < |keys| {
          assert all[|keys|] == key;
          assert all[i] == keys[i] && all[i] != key;
        }
      }
    }
  }

  lemma ZipRecovers(keys: seq<string>, t: seq<Json>, m: map<string, Json>)
    requires Distinct(keys) && |t| == |keys|
    requires forall k :: k in m <==> k in keys
    requires forall j :: 0 <= j < |keys| ==> t[j] == m[keys[j]]
    ensures Zip(keys, t) == m
  {
    var z := Zip(keys, t);
    forall k | k in m ensures z[k] == m[k] {
      var j :| 0 <= j < |keys| && keys[j] == k;
    }
  }

  /** `dictionary.values()` in the order of `keys`. */
  function Values(dict: map<string, seq<Json>>, keys: seq<string>): seq<seq<Json>>
    requires forall k :: k in keys ==> k in dict
  {
    seq(|keys|, i requires 0 <= i < |keys| => dict[keys[i]])
  }

  /** `_cross_product`: one dictionary per product tuple, zipped with the keys. */
  function CrossProduct(dict: map<string, seq<Json>>, keys: seq<string>): (r: seq<Configuration>)
    requires IsOrder(keys, dict.Keys)
    ensures |r| == Size(Values(dict, keys))
    ensures forall i :: 0 <= i < |r| ==> r[i].Keys == dict.Keys
  {
    var tuples := Product(Values(dict, keys));
    ProductTupleLength(Values(dict, keys));
    seq(|tuples|, i requires 0 <= i < |tuples| => Zip(keys, tuples[i]))
  }

  /**
   * The list-valued fields, in the order `order` gives them. CPython 2's
   * smaller `lists` dictionary need not iterate them in the descriptor's
   * relative order, since a smaller table places keys differently; but every
   * order of the list keys is this filter of some descriptor order, so taking
   * them this way leaves out no order the program can use.
   */
  function ListKeys(content: Descriptor, order: seq<string>): (keys: seq<string>)
    requires forall k :: k in order ==> k in content
    ensures forall k :: k in keys ==> k in order && content[k].JArray?
  {
    if order == [] then []
    else (if content[order[0]].JArray? then [order[0]] else []) + ListKeys(content, order[1..])
  }

  lemma {:induction false} ListKeysOrder(content: Descriptor, order: seq<string>)
    requires Distinct(order) && forall k :: k in order ==> k in content
    ensures Distinct(ListKeys(content, order))
    ensures forall k :: k in ListKeys(content, order) <==> k in order && content[k].JArray?
  {
    if order != [] {
      assert Distinct(order[1..]) by {
        forall i, j | 0 <= i < j < |order| - 1 ensures order[1..][i] != order[1..][j] {
          assert order[1..][i] == order[i + 1] && order[1..][j] == order[j + 1];
        }
      }
      ListKeysOrder(content, order[1..]);
      assert order[0] !in order[1..] by {
        forall j | 0 <= j < |order| - 1 ensures order[1..][j] != order[0] {
          assert order[1..][j] == order[j + 1];
        }
      }
      assert order == [order[0]] + order[1..];
    }
  }

  lemma ListKeysIsOrder(content: Descriptor, order: seq<string>)
    requires IsOrder(order, content.Keys)
    ensures IsOrder(ListKeys(content, order), Lists(content).Keys)
  {
    ListKeysOrder(content, order);
  }

  /** What `parse` yields: each product dictionary updated with the scalars. */
  function Configurations(content: Descriptor, order: seq<string>): (r: seq<Configuration>)
    requires IsOrder(order, content.Keys)
    ensures |r| == Size(Values(Lists(content), ListKeys(content, order)))
    ensures forall i :: 0 <= i < |r| ==> Lists(content).Keys + Scalars(content).Keys <= r[i].Keys
  {
    ListKeysIsOrder(content, order);
    var products := CrossProduct(Lists(content), ListKeys(content, order));
    seq(|products|, i requires 0 <= i < |products| => products[i] + Scalars(content))
  }

  lemma YieldedAreConfigurations(content: Descriptor, order: seq<string>, yielded: seq<Configuration>)
    requires IsOrder(order, content.Keys) && IsOrder(ListKeys(content, order), Lists(content).Keys)
    requires |yielded| == |CrossProduct(Lists(content), ListKeys(content, order))|
    requires forall j :: 0 <= j < |yielded| ==> yielded[j] == CrossProduct(Lists(content), ListKeys(content, order))[j] + Scalars(content)
    ensures yielded == Configurations(content, order)
  {
  }

  /** The loop of `parse`: each product dictionary updated in place with the scalars, in order. */
  method LayOver(products: seq<Configuration>, unicodes: map<string, Json>) returns (yielded: seq<Configuration>)
    ensures |yielded| == |products|
    ensures forall j :: 0 <= j < |products| ==> yielded[j] == products[j] + unicodes
  {
    yielded := [];
    for i := 0 to |products|
      invariant |yielded| == i
      invariant forall j :: 0 <= j < i ==> yielded[j] == products[j] + unicodes
    {
      var dictionary := products[i];
      dictionary := dictionary + unicodes;
      yielded := yielded + [dictionary];
    }
  }

  /**
   * `parse` (after the JSON is read): collects the fields, then yields every
   * product dictionary updated in place with the scalars. The generator's
   * laziness is not modelled: all configurations are returned at once.
   */
  method Parse(content: Descriptor, order: seq<string>) returns (r: Result<seq<Configuration>, ParseError>)
    requires IsOrder(order, content.Keys)
    ensures r.Success? <==> AllSupported(content)
    ensures r.Success? ==> r.value == Configurations(content, order)
    ensures r.Failure? ==> FirstUnsupported(content, order, r.error)
  {
    var collected := Collect(content, order);
    if collected.Failure? {
      return Failure(collected.error);
    }
    ListKeysIsOrder(content, order);
    var products := CrossProduct(collected.value.1, ListKeys(content, order));
    var yielded := LayOver(products, collected.value.0);
    YieldedAreConfigurations(content, order, yielded);
    return Success(yielded);
  }

  // ---------------------------------------------------------------------------
  // Properties of the expansion
  // ---------------------------------------------------------------------------

  /** The i-th configuration is the i-th product tuple zipped with the list keys, with the scalars laid over it. */
  lemma ConfigurationAt(content: Descriptor, order: seq<string>, i: nat)
    requires IsOrder(order, content.Keys)
    requires i < |Configurations(content, order)|
    ensures IsOrder(ListKeys(content, order), Lists(content).Keys)
    ensures var keys := ListKeys(content, order);
            var tuples := Product(Values(Lists(content), keys));
            && |Configurations(content, order)| == |tuples|
            && IsCombination(Values(Lists(content), keys), tuples[i])
            && Configurations(content, order)[i] == Zip(keys, tuples[i]) + Scalars(content)
  {
    ListKeysIsOrder(content, order);
    var keys := ListKeys(content, order);
    var pools := Values(Lists(content), keys);
    ProductMembership(pools, Product(pools)[i]);
  }

  /** The number of configurations is the product of the list lengths: 1 without lists, 0 if a list is empty. */
  lemma ConfigurationCount(content: Descriptor, order: seq<string>)
    requires IsOrder(order, content.Keys)
    ensures |Configurations(content, order)| == Size(Values(Lists(content), ListKeys(content, order)))
    ensures (forall k :: k in content ==> !content[k].JArray?) ==> |Configurations(content, order)| == 1
    ensures (exists k :: k in content && content[k] == JArray([])) ==> |Configurations(content, order)| == 0
  {
    ListKeysIsOrder(content, order);
    var keys := ListKeys(content, order);
    var pools := Values(Lists(content), keys);
    if keys != [] {
      assert keys[0] in keys;
      assert content[keys[0]].JArray?;
    }
    if exists k :: k in content && content[k] == JArray([]) {
      var k :| k in content && content[k] == JArray([]);
      assert k in Lists(content);
      var m :| 0 <= m < |keys| && keys[m] == k;
      SizeZero(pools, m);
    }
  }

  /** Every configuration has exactly the descriptor's fields. */
  lemma ConfigurationKeys(content: Descriptor, order: seq<string>, i: nat)
    requires IsOrder(order, content.Keys) && AllSupported(content)
    requires i < |Configurations(content, order)|
    ensures Configurations(content, order)[i].Keys == content.Keys
  {
    ConfigurationAt(content, order, i);
    var c := Configurations(content, order)[i];
    forall k ensures k in c <==> k in content {
      if k in content {
        assert content[k].JString? || content[k].JArray?;
        if content[k].JArray? { assert k in Lists(content); }
      }
    }
  }

  /** Every string field is carried into every configuration with its original value. */
  lemma ScalarsCarried(content: Descriptor, order: seq<string>, i: nat, k: string)
    requires IsOrder(order, content.Keys)
    requires i < |Configurations(content, order)|
    requires k in content && content[k].JString?
    ensures k in Configurations(content, order)[i] && Configurations(content, order)[i][k] == content[k]
  {
    ConfigurationAt(content, order, i);
    assert k in Scalars(content);
  }

  /** Every list field is bound to a member of its list. */
  lemma ListFieldMember(content: Descriptor, order: seq<string>, i: nat, k: string)
    requires IsOrder(order, content.Keys)
    requires i < |Configurations(content, order)|
    requires k in content && content[k].JArray?
    ensures k in Configurations(content, order)[i] && Configurations(content, order)[i][k] in content[k].items
  {
    ConfigurationAt(content, order, i);
    var keys := ListKeys(content, order);
    var pools := Values(Lists(content), keys);
    var t := Product(pools)[i];
    assert k in Lists(content);
    var m :| 0 <= m < |keys| && keys[m] == k;
    assert Zip(keys, t)[k] == t[m];
    assert k !in Scalars(content);
    assert t[m] in pools[m];
  }

  /** A choice of one member per list field, as a dictionary. */
  ghost predicate IsChoice(content: Descriptor, choice: map<string, Json>) {
    (forall k :: k in choice <==> k in content && content[k].JArray?)
    && forall k :: k in choice ==> choice[k] in content[k].items
  }

  /** Every combination of list members, with the scalars laid over it, is among the configurations. */
  lemma EveryChoiceYielded(content: Descriptor, order: seq<string>, choice: map<string, Json>)
    requires IsOrder(order, content.Keys)
    requires IsChoice(content, choice)
    ensures exists i :: 0 <= i < |Configurations(content, order)|
                     && Configurations(content, order)[i] == choice + Scalars(content)
  {
    var t := ChoiceTuple(content, order, choice);
    var keys := ListKeys(content, order);
    var pools := Values(Lists(content), keys);
    ProductMembership(pools, t);
    var tuples := Product(pools);
    var i :| 0 <= i < |tuples| && tuples[i] == t;
    ConfigurationAt(content, order, i);
    assert forall k :: k in choice <==> k in keys by {
      forall k ensures k in choice <==> k in keys {
        if k in choice { assert k in Lists(content); }
      }
    }
    ZipRecovers(keys, t, choice);
    assert Configurations(content, order)[i] == choice + Scalars(content);
  }

  /** The product tuple that picks the chosen member of each list, in list-key order. */
  lemma ChoiceTuple(content: Descriptor, order: seq<string>, choice: map<string, Json>) returns (t: seq<Json>)
    requires IsOrder(order, content.Keys)
    requires IsChoice(content, choice)
    ensures IsOrder(ListKeys(content, order), Lists(content).Keys)
    ensures IsCombination(Values(Lists(content), ListKeys(content, order)), t)
    ensures forall j :: 0 <= j < |t| ==> ListKeys(content, order)[j] in choice && t[j] == choice[ListKeys(content, order)[j]]
  {
    ListKeysIsOrder(content, order);
    var keys := ListKeys(content, order);
    var pools := Values(Lists(content), keys);
    t := seq(|keys|, j requires 0 <= j < |keys| => if keys[j] in choice then choice[keys[j]] else JNull);
    forall j | 0 <= j < |keys| ensures keys[j] in choice && t[j] in pools[j] {
      assert keys[j] in keys;
    }
  }

  /** When no list repeats a member, no configuration is yielded twice. */
  lemma ConfigurationsDistinct(content: Descriptor, order: seq<string>)
    requires IsOrder(order, content.Keys)
    requires forall k :: k in content && content[k].JArray? ==> Distinct(content[k].items)
    ensures Distinct(Configurations(content, order))
  {
    ListKeysIsOrder(content, order);
    var keys := ListKeys(content, order);
    var pools := Values(Lists(content), keys);
    var tuples := Product(pools);
    var cs := Configurations(content, order);
    assert forall m :: 0 <= m < |pools| ==> Distinct(pools[m]) by {
      forall m | 0 <= m < |pools| ensures Distinct(pools[m]) {
        assert keys[m] in keys;
      }
    }
    ProductDistinct(pools);
    forall i, j | 0 <= i < j < |cs| ensures cs[i] != cs[j] {
      ConfigurationAt(content, order, i);
      ConfigurationAt(content, order, j);
      assert tuples[i] != tuples[j];
      var m :| 0 <= m < |keys| && tuples[i][m] != tuples[j][m];
      assert keys[m] in keys;
      assert keys[m] !in Scalars(content);
      assert cs[i][keys[m]] == Zip(keys, tuples[i])[keys[m]] == tuples[i][m];
      assert cs[j][keys[m]] == Zip(keys, tuples[j])[keys[m]] == tuples[j][m];
    }
  }

  // The example of the module documentation.
  const ExampleDescriptor: Descriptor := map[
    "gcloud_version" := JArray([JString("226.0.0-slim")]),
    "node_version" := JArray([JString("8.0.0"), JString("9.11.2")]),
    "version" := JString("node_version")]
  const ExampleOrder: seq<string> := ["gcloud_version", "node_version", "version"]

  /**
   * The example's field names differ in length. The verifier does not tell
   * string literals apart by itself; different lengths are the fact it needs
   * to see that the three keys are distinct.
   */
  lemma ExampleNamesDiffer()
    ensures |"gcloud_version"| == 14 && |"node_version"| == 12 && |"version"| == 7
  {
  }

  lemma PairElements<T>(s: seq<T>)
    requires |s| == 2
    ensures s == [s[0], s[1]]
  {
  }

  lemma ExampleIsOrder()
    ensures IsOrder(ExampleOrder, ExampleDescriptor.Keys)
  {
    ExampleNamesDiffer();
  }

  lemma ExampleListKeys()
    ensures ListKeys(ExampleDescriptor, ExampleOrder) == ["gcloud_version", "node_version"]
  {
    ExampleNamesDiffer();
    var d, order := ExampleDescriptor, ExampleOrder;
    assert order[1..] == ["node_version", "version"] && order[1..][1..] == ["version"] && order[1..][1..][1..] == [];
    assert ListKeys(d, ["version"]) == [] + ListKeys(d, []) == [];
    assert ListKeys(d, order[1..]) == ["node_version"] + ListKeys(d, ["version"]) == ["node_version"];
  }

  lemma ExampleScalars()
    ensures Scalars(ExampleDescriptor) == map["version" := JString("node_version")]
  {
    ExampleNamesDiffer();
  }

  lemma ExampleProduct()
    ensures Product([[JString("226.0.0-slim")], [JString("8.0.0"), JString("9.11.2")]])
         == [[JString("226.0.0-slim"), JString("8.0.0")], [JString("226.0.0-slim"), JString("9.11.2")]]
  {
    var a, b, c := JString("226.0.0-slim"), JString("8.0.0"), JString("9.11.2");
    var pools := [[a], [b, c]];
    assert pools[1..] == [[b, c]] && pools[1..][1..] == [];
    assert [b, c][1..] == [c];
    var nil: seq<Json> := [];
    assert [b] + nil == [b] && [c] + nil == [c];
    assert Prepend(b, [[]]) == [[b]];
    assert Prepend(c, [[]]) == [[c]];
    assert Product(pools[1..]) == PrependEach([b, c], [[]]) == [[b], [c]];
    assert [a] + [b] == [a, b] && [a] + [c] == [a, c];
    assert Prepend(a, [[b], [c]]) == [[a, b], [a, c]];
  }

  lemma ExampleValues()
    ensures ListKeys(ExampleDescriptor, ExampleOrder) == ["gcloud_version", "node_version"]
    ensures Values(Lists(ExampleDescriptor), ListKeys(ExampleDescriptor, ExampleOrder))
         == [[JString("226.0.0-slim")], [JString("8.0.0"), JString("9.11.2")]]
  {
    ExampleListKeys();
  }

  lemma ExampleZips()
    ensures Zip(["gcloud_version", "node_version"], [JString("226.0.0-slim"), JString("8.0.0")])
         == map["gcloud_version" := JString("226.0.0-slim"), "node_version" := JString("8.0.0")]
    ensures Zip(["gcloud_version", "node_version"], [JString("226.0.0-slim"), JString("9.11.2")])
         == map["gcloud_version" := JString("226.0.0-slim"), "node_version" := JString("9.11.2")]
  {
    ExampleNamesDiffer();
  }

  lemma ExampleCrossProduct()
    ensures IsOrder(ListKeys(ExampleDescriptor, ExampleOrder), Lists(ExampleDescriptor).Keys)
    ensures CrossProduct(Lists(ExampleDescriptor), ListKeys(ExampleDescriptor, ExampleOrder)) == [
              map["gcloud_version" := JString("226.0.0-slim"), "node_version" := JString("8.0.0")],
              map["gcloud_version" := JString("226.0.0-slim"), "node_version" := JString("9.11.2")]]
  {
    ExampleNamesDiffer();
    ExampleIsOrder();
    ListKeysIsOrder(ExampleDescriptor, ExampleOrder);
    ExampleValues();
    ExampleProduct();
    ExampleZips();
    var products := CrossProduct(Lists(ExampleDescriptor), ListKeys(ExampleDescriptor, ExampleOrder));
    var z0 := Zip(["gcloud_version", "node_version"], [JString("226.0.0-slim"), JString("8.0.0")]);
    var z1 := Zip(["gcloud_version", "node_version"], [JString("226.0.0-slim"), JString("9.11.2")]);
    assert |products| == 2 && products[0] == z0 && products[1] == z1;
    PairElements(products);
  }

  lemma ExampleUnions()
    ensures map["gcloud_version" := JString("226.0.0-slim"), "node_version" := JString("8.0.0")] + map["version" := JString("node_version")]
         == map["gcloud_version" := JString("226.0.0-slim"), "node_version" := JString("8.0.0"), "version" := JString("node_version")]
    ensures map["gcloud_version" := JString("226.0.0-slim"), "node_version" := JString("9.11.2")] + map["version" := JString("node_version")]
         == map["gcloud_version" := JString("226.0.0-slim"), "node_version" := JString("9.11.2"), "version" := JString("node_version")]
  {
    ExampleNamesDiffer();
  }

  /** The descriptor of the module documentation denotes exactly the two configurations listed there. */
  lemma DocumentedExample()
    ensures IsOrder(ExampleOrder, ExampleDescriptor.Keys)
    ensures Configurations(ExampleDescriptor, ExampleOrder) == [
              map["gcloud_version" := JString("226.0.0-slim"), "node_version" := JString("8.0.0"), "version" := JString("node_version")],
              map["gcloud_version" := JString("226.0.0-slim"), "node_version" := JString("9.11.2"), "version" := JString("node_version")]]
  {
    ExampleNamesDiffer();
    ExampleIsOrder();
    ExampleCrossProduct();
    ExampleScalars();
    ExampleUnions();
    var cs := Configurations(ExampleDescriptor, ExampleOrder);
    var products := CrossProduct(Lists(ExampleDescriptor), ListKeys(ExampleDescriptor, ExampleOrder));
    var scalars := Scalars(ExampleDescriptor);
    assert |cs| == 2 && cs[0] == products[0] + scalars && cs[1] == products[1] + scalars;
    PairElements(cs);
  }
}
