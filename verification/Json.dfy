/** JSON values; the fields of an object are in order, because two objects are compared by their serialized text. */
module Json {
  import opened Common

  datatype Field = Field(key: string, value: Json)

  type Fields = seq<Field>

  datatype Json = Null | Bool(flag: bool) | Number(number: real) | Str(text: string) | List(items: seq<Json>) | Obj(fields: Fields)

  function Get(f: Fields, key: string): (r: Option<Json>)
    ensures r.Some? <==> key in Keys(f)
    ensures r.Some? ==> Field(key, r.value) in f
  {
    if f == [] then None
    else
      assert Keys(f) == [f[0].key] + Keys(f[1..]);
      if f[0].key == key then Some(f[0].value) else Get(f[1..], key)
  }

  /** Assignment to a property: in its place if it exists, else at the end. */
  function Put(f: Fields, key: string, value: Json): Fields {
    if f == [] then [Field(key, value)]
    else if f[0].key == key then [Field(key, value)] + f[1..]
    else [f[0]] + Put(f[1..], key, value)
  }

  /** `delete` of properties. */
  function Without(f: Fields, keys: set<string>): Fields {
    if f == [] then []
    else if f[0].key in keys then Without(f[1..], keys)
    else [f[0]] + Without(f[1..], keys)
  }

  /** `{...f, ...g}`: the fields of `f` in their order with the values of `g`, then the other fields of `g`. */
  function Spread(f: Fields, g: Fields): Fields {
    Overlay(f, g) + Without(g, KeySet(f))
  }

  function Overlay(f: Fields, g: Fields): Fields {
    seq(|f|, i requires 0 <= i < |f| => Field(f[i].key, if Get(g, f[i].key).Some? then Get(g, f[i].key).value else f[i].value))
  }

  function Keys(f: Fields): (r: seq<string>)
    ensures |r| == |f|
  {
    seq(|f|, i requires 0 <= i < |f| => f[i].key)
  }

  function KeySet(f: Fields): set<string> {
    set k | k in Keys(f)
  }

  /** No object has a key twice, as in everything that was parsed. */
  predicate Parsed(j: Json) {
    match j
    case Obj(f) => NoRepeats(Keys(f)) && forall i :: 0 <= i < |f| ==> Parsed(f[i].value)
    case List(items) => forall i :: 0 <= i < |items| ==> Parsed(items[i])
    case _ => true
  }

  predicate IsRecord(j: Option<Json>) {
    j.Some? && j.value.Obj?
  }

  /** The record, or an empty one in place of anything else. */
  function Rec(j: Option<Json>): Fields {
    if IsRecord(j) then j.value.fields else []
  }

  lemma {:induction false} GetPut(f: Fields, key: string, value: Json, other: string)
    ensures Get(Put(f, key, value), other) == if other == key then Some(value) else Get(f, other)
  {
    if f != [] && f[0].key != key {
      GetPut(f[1..], key, value, other);
      assert Put(f, key, value)[1..] == Put(f[1..], key, value);
    } else if f != [] {
      assert Put(f, key, value)[1..] == f[1..];
    }
  }

  /** Assigning what is already there changes nothing. */
  lemma {:induction false} PutSame(f: Fields, key: string)
    requires Get(f, key).Some?
    ensures Put(f, key, Get(f, key).value) == f
  {
    if f[0].key != key {
      PutSame(f[1..], key);
    }
  }

  lemma PutTwice(f: Fields, key: string, value: Json)
    ensures Put(Put(f, key, value), key, value) == Put(f, key, value)
  {
    GetPut(f, key, value, key);
    PutSame(Put(f, key, value), key);
  }

  lemma {:induction false} GetWithout(f: Fields, keys: set<string>, key: string)
    ensures Get(Without(f, keys), key) == if key in keys then None else Get(f, key)
  {
    if f != [] {
      GetWithout(f[1..], keys, key);
      if f[0].key !in keys {
        assert Without(f, keys)[1..] == Without(f[1..], keys);
      }
    }
  }

  lemma {:induction false} WithoutAbsent(f: Fields, keys: set<string>)
    requires forall k :: k in keys ==> Get(f, k).None?
    ensures Without(f, keys) == f
  {
    if f != [] {
      forall k | k in keys ensures f[0].key != k && Get(f[1..], k).None? {
        assert Get(f, k).None?;
      }
      WithoutAbsent(f[1..], keys);
    }
  }

  lemma {:induction false} WithoutTwice(f: Fields, a: set<string>, b: set<string>)
    ensures Without(Without(f, a), b) == Without(f, a + b)
  {
    if f != [] {
      WithoutTwice(f[1..], a, b);
      if f[0].key !in a {
        assert Without(f, a)[1..] == Without(f[1..], a);
      }
    }
  }

  /** Key orders, apart from the values. */
  function Minus<T(==, !new)>(keys: seq<T>, drop: set<T>): (r: seq<T>)
    ensures forall k :: k in r <==> k in keys && k !in drop
  {
    if keys == [] then []
    else if keys[0] in drop then Minus(keys[1..], drop)
    else [keys[0]] + Minus(keys[1..], drop)
  }

  lemma ConcatAssoc<T>(a: seq<T>, b: seq<T>, c: seq<T>)
    ensures a + b + c == a + (b + c)
  {
  }

  lemma {:induction false} MinusConcat<T(!new)>(a: seq<T>, b: seq<T>, drop: set<T>)
    ensures Minus(a + b, drop) == Minus(a, drop) + Minus(b, drop)
  {
    if a == [] {
      assert a + b == b;
      assert [] + Minus(b, drop) == Minus(b, drop);
    } else {
      assert a + b != [] && (a + b)[0] == a[0] && (a + b)[1..] == a[1..] + b;
      MinusConcat(a[1..], b, drop);
      if a[0] !in drop {
        ConcatAssoc([a[0]], Minus(a[1..], drop), Minus(b, drop));
      }
    }
  }

  lemma {:induction false} MinusTwice<T(!new)>(keys: seq<T>, a: set<T>, b: set<T>)
    ensures Minus(Minus(keys, a), b) == Minus(keys, a + b)
  {
    if keys != [] {
      MinusTwice(keys[1..], a, b);
      if keys[0] !in a {
        assert Minus(keys, a)[1..] == Minus(keys[1..], a);
      }
    }
  }

  lemma {:induction false} MinusNone<T(!new)>(keys: seq<T>, drop: set<T>)
    requires forall k :: k in keys ==> k !in drop
    ensures Minus(keys, drop) == keys
  {
    if keys != [] {
      MinusNone(keys[1..], drop);
    }
  }

  lemma {:induction false} MinusKeepsOrder<T(!new)>(keys: seq<T>, drop: set<T>)
    requires NoRepeats(keys)
    ensures NoRepeats(Minus(keys, drop))
  {
    if keys != [] {
      MinusKeepsOrder(keys[1..], drop);
    }
  }

  lemma {:induction false} KeysWithout(f: Fields, drop: set<string>)
    ensures Keys(Without(f, drop)) == Minus(Keys(f), drop)
  {
    if f != [] {
      KeysWithout(f[1..], drop);
      assert Keys(f)[1..] == Keys(f[1..]);
    }
  }

  lemma KeysSpread(f: Fields, g: Fields)
    ensures Keys(Spread(f, g)) == Keys(f) + Minus(Keys(g), KeySet(f))
  {
    KeysWithout(g, KeySet(f));
    assert Keys(Spread(f, g)) == Keys(Overlay(f, g)) + Keys(Without(g, KeySet(f)));
    assert Keys(Overlay(f, g)) == Keys(f);
  }

  lemma {:induction false} GetAt(f: Fields, i: nat)
    requires NoRepeats(Keys(f)) && i < |f|
    ensures Get(f, f[i].key) == Some(f[i].value)
  {
    if i > 0 {
      assert Keys(f)[0] != Keys(f)[i];
      assert Keys(f)[1..] == Keys(f[1..]);
      GetAt(f[1..], i - 1);
    }
  }

  /** Objects with the same keys in the same order and the same values are the same. */
  lemma SameFields(f: Fields, g: Fields)
    requires Keys(f) == Keys(g) && NoRepeats(Keys(f))
    requires forall k :: k in Keys(f) ==> Get(f, k) == Get(g, k)
    ensures f == g
  {
    forall i | 0 <= i < |f| ensures f[i] == g[i] {
      GetAt(f, i);
      GetAt(g, i);
      assert f[i].key == Keys(f)[i] && g[i].key == Keys(g)[i];
    }
  }

  lemma {:induction false} GetConcat(f: Fields, g: Fields, key: string)
    ensures Get(f + g, key) == if Get(f, key).Some? then Get(f, key) else Get(g, key)
  {
    if f == [] {
      assert f + g == g;
    } else {
      GetConcat(f[1..], g, key);
      assert (f + g)[1..] == f[1..] + g;
    }
  }

  lemma {:induction false} GetOverlay(f: Fields, g: Fields, key: string)
    ensures Get(Overlay(f, g), key) ==
            if Get(f, key).None? then None else if Get(g, key).Some? then Get(g, key) else Get(f, key)
  {
    if f != [] {
      GetOverlay(f[1..], g, key);
      assert Overlay(f, g)[1..] == Overlay(f[1..], g);
    }
  }

  lemma GetSpread(f: Fields, g: Fields, key: string)
    ensures Get(Spread(f, g), key) == if Get(g, key).Some? then Get(g, key) else Get(f, key)
  {
    GetConcat(Overlay(f, g), Without(g, KeySet(f)), key);
    GetOverlay(f, g, key);
    GetWithout(g, KeySet(f), key);
  }

  lemma SpreadNoRepeats(f: Fields, g: Fields)
    requires NoRepeats(Keys(f)) && NoRepeats(Keys(g))
    ensures NoRepeats(Keys(Spread(f, g)))
  {
    KeysSpread(f, g);
    MinusKeepsOrder(Keys(g), KeySet(f));
  }

  /** What was parsed has parsed parts. */
  lemma ParsedGet(f: Fields, key: string)
    requires Parsed(Obj(f))
    ensures Parsed(Obj(Rec(Get(f, key))))
  {
    if Get(f, key).Some? {
      assert Field(key, Get(f, key).value) in f;
    }
  }
}
