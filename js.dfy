/**
 * JavaScript values as the user-record layer handles them: request bodies,
 * rows returned by the MySQL driver, statement parameters and response bodies.
 * A plain object is its own enumerable properties in `for...in` order, which
 * for the property names used here is insertion order.
 */
module Js {

  datatype Option<T> = None | Some(value: T)

  datatype Value =
    | Undefined
    | Null
    | Bool(b: bool)
    | Num(n: int)
    | Str(s: string)
    | Buf(bytes: seq<bv8>)            // a Node.js Buffer, as the driver returns binary columns
    | Date(ms: int)                   // an instant, in milliseconds since the epoch
    | List(items: seq<Value>)
    | Obj(props: seq<(string, Value)>)

  /** The own properties of a plain object, in enumeration order. */
  type Props = seq<(string, Value)>

  /** JavaScript truthiness. */
  predicate Truthy(v: Value)
  {
    match v
    case Undefined => false
    case Null => false
    case Bool(b) => b
    case Num(n) => n != 0
    case Str(s) => s != ""
    case _ => true
  }

  /** `Object.keys(o)` */
  function Keys(p: Props): seq<string>
  {
    seq(|p|, i requires 0 <= i < |p| => p[i].0)
  }

  /** `Object.values(o)` */
  function Values(p: Props): seq<Value>
  {
    seq(|p|, i requires 0 <= i < |p| => p[i].1)
  }

  /** No key occurs twice, as in every JavaScript object. */
  predicate DistinctKeys(p: Props)
  {
    forall i, j :: 0 <= i < j < |p| ==> p[i].0 != p[j].0
  }

  /** `o[k]`: `undefined` when `o` has no property `k`. */
  function Lookup(p: Props, k: string): Value
  {
    if p == [] then Undefined else if p[0].0 == k then p[0].1 else Lookup(p[1..], k)
  }

  /** `delete o[k]`; a no-op when there is no property `k`. */
  function Without(p: Props, k: string): Props
  {
    if p == [] then [] else (if p[0].0 == k then [] else [p[0]]) + Without(p[1..], k)
  }

  /** `o[k] = v`: overwrites property `k` where it stands, or appends it. */
  function With(p: Props, k: string, v: Value): Props
  {
    if p == [] then [(k, v)]
    else if p[0].0 == k then [(k, v)] + p[1..]
    else [p[0]] + With(p[1..], k, v)
  }

  /** The properties whose key is in `allowed`, in their order. */
  function Restrict(p: Props, allowed: set<string>): Props
  {
    if p == [] then [] else (if p[0].0 in allowed then [p[0]] else []) + Restrict(p[1..], allowed)
  }

  /** `a.indexOf(x)` */
  function IndexOf(s: seq<string>, x: string): (i: int)
    ensures -1 <= i < |s|
    ensures i == -1 <==> x !in s
    ensures 0 <= i ==> s[i] == x && x !in s[..i]
  {
    if s == [] then -1
    else if s[0] == x then 0
    else
      var j := IndexOf(s[1..], x);
      if j == -1 then -1 else assert s[..j + 1] == [s[0]] + s[1..][..j]; j + 1
  }

  /** The position of a first occurrence is what `indexOf` finds. */
  lemma IndexOfAt(s: seq<string>, x: string, i: nat)
    requires i < |s| && s[i] == x && x !in s[..i]
    ensures IndexOf(s, x) == i
  {
  }

  /**
   * The value of `a` after `a.splice(a.indexOf(x), 1)` guarded by
   * `a.indexOf(x) != -1`: the first occurrence of `x` is gone.
   */
  function RemoveFirst(s: seq<string>, x: string): seq<string>
  {
    var i := IndexOf(s, x);
    if i == -1 then s else s[..i] + s[i + 1..]
  }

  /** A plain object that the code changes in place (`delete`, `o[k] = v`). */
  class Record {
    var props: Props

    constructor (props: Props)
      ensures this.props == props
    {
      this.props := props;
    }
  }

  /** An array of strings that the code changes in place (`splice`). */
  class StringList {
    var items: seq<string>

    constructor (items: seq<string>)
      ensures this.items == items
    {
      this.items := items;
    }

    /** `a.splice(index, 1)` */
    method Splice(index: nat)
      requires index < |items|
      modifies this
      ensures items == old(items[..index] + items[index + 1..])
    {
      items := items[..index] + items[index + 1..];
    }
  }

  /**
   * The library calls the core makes and whose results it only passes on:
   * they are parameters of the model, any functions at all.
   */
  datatype Foreign = Foreign(
    decode: seq<bv8> -> string,       // Buffer.prototype.toString()
    hash: (Value, string) -> string,  // bcrypt.hashSync(value, salt)
    matches: (Value, Value) -> bool,  // bcrypt.compareSync(password, hash)
    stringify: Value -> string,       // JSON.stringify(value)
    digest: (Value, string) -> string, // md5(id + time).toString(), time a formatted date
    instant: Value -> Option<int>,    // the instant moment(value) stands for; None when invalid
    format: Value -> string,          // moment(value).utc().format('YYYY-MM-DD hh:mm:ss'); Num(ms) is an epoch time
    lower: string -> string)          // String.prototype.toLowerCase()

  /** `moment(now).isAfter(v)`: false when `v` is not a valid date. */
  predicate IsAfter(now: int, v: Value, fx: Foreign)
  {
    match fx.instant(v)
    case Some(t) => now > t
    case None => false
  }

  // ---- properties of the object operations ----

  /** A key survives `Restrict` exactly when it was there and is allowed. */
  lemma {:induction false} RestrictKeys(p: Props, allowed: set<string>, k: string)
    ensures k in Keys(Restrict(p, allowed)) <==> k in Keys(p) && k in allowed
  {
    if p != [] {
      RestrictKeys(p[1..], allowed, k);
      var head := if p[0].0 in allowed then [p[0]] else [];
      assert Restrict(p, allowed) == head + Restrict(p[1..], allowed);
      KeysAppend(head, Restrict(p[1..], allowed));
      assert p == [p[0]] + p[1..];
      KeysCons(p[0], p[1..]);
      assert k in Keys(p) <==> k == p[0].0 || k in Keys(p[1..]);
      if p[0].0 in allowed {
        assert Keys(head) == [p[0].0];
      } else {
        assert Keys(head) == [];
      }
    }
  }

  /** `Restrict` keeps the value of every allowed key. */
  lemma {:induction false} RestrictLookup(p: Props, allowed: set<string>, k: string)
    ensures Lookup(Restrict(p, allowed), k) == if k in allowed then Lookup(p, k) else Undefined
  {
    if p != [] {
      RestrictLookup(p[1..], allowed, k);
      if p[0].0 in allowed {
        assert Restrict(p, allowed) == [p[0]] + Restrict(p[1..], allowed);
        assert ([p[0]] + Restrict(p[1..], allowed))[1..] == Restrict(p[1..], allowed);
      } else {
        assert Restrict(p, allowed) == [] + Restrict(p[1..], allowed);
        assert [] + Restrict(p[1..], allowed) == Restrict(p[1..], allowed);
      }
    }
  }

  /** Deleting a key and then restricting is restricting with that key barred. */
  lemma {:induction false} RestrictWithout(p: Props, allowed: set<string>, k: string)
    ensures Restrict(Without(p, k), allowed) == Restrict(p, allowed - {k})
  {
    if p != [] {
      RestrictWithout(p[1..], allowed, k);
      var head := if p[0].0 == k then [] else [p[0]];
      RestrictAppend(head, Without(p[1..], k), allowed);
      if p[0].0 != k {
        assert Restrict(head, allowed) == Restrict([p[0]], allowed);
        assert Restrict([p[0]], allowed) == (if p[0].0 in allowed then [p[0]] else []) + Restrict([], allowed);
      }
    }
  }

  lemma {:induction false} RestrictAppend(a: Props, b: Props, allowed: set<string>)
    ensures Restrict(a + b, allowed) == Restrict(a, allowed) + Restrict(b, allowed)
  {
    if a == [] {
      assert a + b == b;
    } else {
      var head := if a[0].0 in allowed then [a[0]] else [];
      assert (a + b)[0] == a[0] && (a + b)[1..] == a[1..] + b;
      assert Restrict(a + b, allowed) == head + Restrict(a[1..] + b, allowed);
      RestrictAppend(a[1..], b, allowed);
      assert Restrict(a, allowed) == head + Restrict(a[1..], allowed);
    }
  }

  /** `Restrict` keeps the properties in their order. */
  lemma RestrictSnoc(p: Props, x: (string, Value), allowed: set<string>)
    ensures Restrict(p + [x], allowed) == Restrict(p, allowed) + (if x.0 in allowed then [x] else [])
  {
    RestrictAppend(p, [x], allowed);
    assert Restrict([x], allowed) == (if x.0 in allowed then [x] else []) + Restrict([], allowed);
  }

  lemma {:induction false} WithoutAppend(a: Props, b: Props, k: string)
    ensures Without(a + b, k) == Without(a, k) + Without(b, k)
  {
    if a == [] {
      assert a + b == b;
    } else {
      assert (a + b)[1..] == a[1..] + b;
      WithoutAppend(a[1..], b, k);
    }
  }

  /** Deleting a key that is not there changes nothing. */
  lemma {:induction false} WithoutAbsent(p: Props, k: string)
    requires k !in Keys(p)
    ensures Without(p, k) == p
  {
    if p != [] {
      KeysCons(p[0], p[1..]);
      assert p == [p[0]] + p[1..];
      WithoutAbsent(p[1..], k);
    }
  }

  /** Deleting the key of a property that is the only one with that key
      removes exactly that property. */
  lemma WithoutOnly(before: Props, x: (string, Value), after: Props)
    requires x.0 !in Keys(before) && x.0 !in Keys(after)
    ensures Without(before + ([x] + after), x.0) == before + after
  {
    WithoutAppend(before, [x] + after, x.0);
    WithoutAbsent(before, x.0);
    assert ([x] + after)[1..] == after;
    WithoutAbsent(after, x.0);
  }

  /** In an object, the key of a property occurs in no later property. */
  lemma DistinctLater(p: Props, i: nat)
    requires DistinctKeys(p) && i < |p|
    ensures p[i].0 !in Keys(p[i + 1..])
  {
    var later := Keys(p[i + 1..]);
    forall m | 0 <= m < |later| ensures later[m] != p[i].0 {
      assert later[m] == p[i + 1 + m].0;
    }
  }

  /** `o[k] = v` sets `k` and leaves every other key as it was. */
  lemma {:induction false} LookupWith(p: Props, k: string, v: Value, k': string)
    ensures Lookup(With(p, k, v), k') == if k' == k then v else Lookup(p, k')
  {
    if p != [] && p[0].0 != k {
      LookupWith(p[1..], k, v, k');
      assert With(p, k, v) == [p[0]] + With(p[1..], k, v);
      assert ([p[0]] + With(p[1..], k, v))[1..] == With(p[1..], k, v);
    } else if p != [] {
      assert ([(k, v)] + p[1..])[1..] == p[1..];
    }
  }

  /** Reading a property the object does not have gives `undefined`. */
  lemma {:induction false} LookupAbsent(p: Props, k: string)
    requires k !in Keys(p)
    ensures Lookup(p, k) == Undefined
  {
    if p != [] {
      KeysCons(p[0], p[1..]);
      assert p == [p[0]] + p[1..];
      LookupAbsent(p[1..], k);
    }
  }

  lemma KeysCons(x: (string, Value), p: Props)
    ensures Keys([x] + p) == [x.0] + Keys(p)
  {
  }

  lemma KeysAppend(a: Props, b: Props)
    ensures Keys(a + b) == Keys(a) + Keys(b)
  {
  }

  /** The keys `Restrict` leaves are among the original keys. */
  lemma {:induction false} RestrictKeysSubset(p: Props, allowed: set<string>)
    ensures forall k :: k in Keys(Restrict(p, allowed)) ==> k in Keys(p)
  {
    forall k | k in Keys(Restrict(p, allowed)) ensures k in Keys(p) {
      RestrictKeys(p, allowed, k);
    }
  }

  /** The first occurrence of `x`, and only it, is removed. */
  lemma RemoveFirstCounts(s: seq<string>, x: string)
    ensures multiset(RemoveFirst(s, x)) == multiset(s) - multiset{x}
    ensures |RemoveFirst(s, x)| == if x in s then |s| - 1 else |s|
  {
    var i := IndexOf(s, x);
    if i != -1 {
      assert s == s[..i] + [s[i]] + s[i + 1..];
      assert multiset(s) == multiset(s[..i]) + multiset{x} + multiset(s[i + 1..]);
    } else {
      assert multiset(s)[x] == 0;
    }
  }
}
