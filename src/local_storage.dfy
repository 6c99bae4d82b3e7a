/**
 * The browser's `localStorage` as the client code uses it: an ordered list of
 * distinct keys, each holding a text that `JSON.parse` either reads or
 * rejects, with `key(i)` following the list order. The Web Storage standard
 * leaves that order to the browser; this model chooses insertion order: a new
 * key is appended and a rewritten key keeps its place. What the cleanup
 * findings rely on is only that removing a key moves every later key one
 * place down and reorders nothing.
 */
module LocalStorage {
  import opened Common
  import opened Json

  /** A stored text: the empty string, a text `JSON.parse` reads as a value, or one it rejects. */
  datatype Text = Empty | Holds(value: Json) | Garbage

  datatype Item = Item(key: string, text: Text)

  /** The keys in storage order: `Object.keys(localStorage)`. */
  function KeysOf(items: seq<Item>): (keys: seq<string>)
    ensures |keys| == |items| && forall i :: 0 <= i < |items| ==> keys[i] == items[i].key
  {
    seq(|items|, i requires 0 <= i < |items| => items[i].key)
  }

  /** `JSON.parse(localStorage.getItem(key) || fallback)`; `None` when the parse throws. */
  function ParseOr(t: Option<Text>, fallback: Json): (r: Option<Json>)
    ensures r.None? <==> t == Some(Garbage)
    ensures t.None? || t == Some(Empty) ==> r == Some(fallback)
    ensures t.Some? && t.value.Holds? ==> r == Some(t.value.value)
  {
    match t
    case None => Some(fallback)
    case Some(Empty) => Some(fallback)
    case Some(Holds(v)) => Some(v)
    case Some(Garbage) => None
  }

  predicate HasKey(items: seq<Item>, key: string)
  {
    exists i :: 0 <= i < |items| && items[i].key == key
  }

  /** No key is listed twice. */
  predicate Distinct(items: seq<Item>)
  {
    forall i, j :: 0 <= i < j < |items| ==> items[i].key != items[j].key
  }

  /** `getItem(key)`: the text of the first item under `key`, `None` (null) when there is none. */
  function Lookup(items: seq<Item>, key: string): (r: Option<Text>)
    ensures r.Some? <==> HasKey(items, key)
    ensures r.Some? ==> exists i :: 0 <= i < |items| && items[i] == Item(key, r.value)
  {
    if |items| == 0 then None
    else if items[0].key == key then
      assert items[0] == Item(key, items[0].text);
      Some(items[0].text)
    else
      var r := Lookup(items[1..], key);
      assert HasKey(items[1..], key) <==> HasKey(items, key) by {
        if HasKey(items, key) {
          var i :| 0 <= i < |items| && items[i].key == key;
          assert items[1..][i - 1].key == key;
        }
        if HasKey(items[1..], key) {
          var i :| 0 <= i < |items[1..]| && items[1..][i].key == key;
          assert items[i + 1].key == key;
        }
      }
      if r.Some? then
        var i :| 0 <= i < |items[1..]| && items[1..][i] == Item(key, r.value);
        assert items[i + 1] == Item(key, r.value);
        r
      else r
  }

  /** `setItem(key, t)`: a listed key keeps its place and takes the new text; a new key goes last. */
  function Put(items: seq<Item>, key: string, t: Text): (r: seq<Item>)
    ensures |r| == if HasKey(items, key) then |items| else |items| + 1
  {
    if |items| == 0 then [Item(key, t)]
    else if items[0].key == key then [Item(key, t)] + items[1..]
    else
      assert HasKey(items[1..], key) <==> HasKey(items, key) by {
        if HasKey(items, key) {
          var i :| 0 <= i < |items| && items[i].key == key;
          assert items[1..][i - 1].key == key;
        }
      }
      [items[0]] + Put(items[1..], key, t)
  }

  /** After `setItem(key, t)`, `getItem(key)` is `t` and every other key reads as before. */
  lemma {:induction false} LookupPut(items: seq<Item>, key: string, t: Text, k: string)
    ensures Lookup(Put(items, key, t), k) == if k == key then Some(t) else Lookup(items, k)
  {
    if |items| > 0 && items[0].key != key {
      var r := Put(items, key, t);
      assert r[1..] == Put(items[1..], key, t);
      LookupPut(items[1..], key, t, k);
    }
  }

  /** The keys after `setItem(key, _)` are `key` and the keys listed before. */
  lemma {:induction false} PutKeys(items: seq<Item>, key: string, t: Text)
    ensures forall i :: 0 <= i < |Put(items, key, t)| ==>
      Put(items, key, t)[i].key == key || HasKey(items, Put(items, key, t)[i].key)
  {
    var r := Put(items, key, t);
    if |items| > 0 {
      if items[0].key == key {
        forall i | 1 <= i < |r| ensures HasKey(items, r[i].key) {
          assert items[i].key == r[i].key;
        }
      } else {
        PutKeys(items[1..], key, t);
        assert r[1..] == Put(items[1..], key, t);
        forall i | 1 <= i < |r| && r[i].key != key ensures HasKey(items, r[i].key) {
          var j :| 0 <= j < |items[1..]| && items[1..][j].key == r[i].key;
          assert items[j + 1].key == r[i].key;
        }
      }
    }
  }

  /** `setItem` never lists a key twice. */
  lemma {:induction false} PutDistinct(items: seq<Item>, key: string, t: Text)
    requires Distinct(items)
    ensures Distinct(Put(items, key, t))
  {
    var r := Put(items, key, t);
    if |items| > 0 {
      if items[0].key == key {
        assert r[1..] == items[1..];
      } else {
        var rest := Put(items[1..], key, t);
        assert r[1..] == rest;
        PutDistinct(items[1..], key, t);
        PutKeys(items[1..], key, t);
        forall j | 0 < j < |r| ensures r[0].key != r[j].key {
          if rest[j - 1].key != key {
            var m :| 0 <= m < |items[1..]| && items[1..][m].key == rest[j - 1].key;
            assert items[m + 1].key == rest[j - 1].key;
          }
        }
      }
    }
  }

  /** `removeItem(key)`: every item under `key` is dropped; the others keep their order. */
  function Remove(items: seq<Item>, key: string): (r: seq<Item>)
    ensures Lookup(r, key).None?
    ensures forall k :: k != key ==> Lookup(r, k) == Lookup(items, k)
    ensures forall i :: 0 <= i < |r| ==> r[i] in items && r[i].key != key
    ensures Distinct(items) ==> Distinct(r)
  {
    if |items| == 0 then []
    else
      var rest := Remove(items[1..], key);
      if items[0].key == key then rest
      else
        var r := [items[0]] + rest;
        assert r[1..] == rest;
        assert Distinct(items) ==> Distinct(r) by {
          if Distinct(items) {
            forall j | 0 < j < |r| ensures r[0].key != r[j].key {
              var m :| 0 <= m < |items| - 1 && items[1..][m] == rest[j - 1];
              assert items[m + 1] == rest[j - 1];
            }
          }
        }
        r
  }

  /** Writing a key twice leaves what a single write of the second text leaves. */
  lemma {:induction false} PutPut(items: seq<Item>, key: string, a: Text, b: Text)
    ensures Put(Put(items, key, a), key, b) == Put(items, key, b)
  {
    if |items| > 0 && items[0].key != key {
      PutPut(items[1..], key, a, b);
      assert Put(items, key, a)[1..] == Put(items[1..], key, a);
    }
  }

  /** With distinct keys, `removeItem(items[i].key)` takes out position `i` and nothing else. */
  lemma {:induction false} RemoveAt(items: seq<Item>, i: nat)
    requires Distinct(items) && i < |items|
    ensures Remove(items, items[i].key) == items[..i] + items[i + 1..]
  {
    RemoveOnlyAt(items, i);
  }

  /** The same, needing only that no other item shares the key at `i`. */
  lemma RemoveOnlyAt(items: seq<Item>, i: nat)
    requires i < |items|
    requires forall j :: 0 <= j < |items| && j != i ==> items[j].key != items[i].key
    ensures Remove(items, items[i].key) == items[..i] + items[i + 1..]
  {
    SplitAround(items, i);
    RemoveBetween(items[..i], items[i], items[i + 1..]);
  }

  lemma SplitAround(items: seq<Item>, i: nat)
    requires i < |items|
    ensures items == items[..i] + ([items[i]] + items[i + 1..])
  {
  }

  /** Removing the key of the one item holding it, between two lists without it. */
  lemma RemoveBetween(before: seq<Item>, x: Item, after: seq<Item>)
    requires forall j :: 0 <= j < |before| ==> before[j].key != x.key
    requires forall j :: 0 <= j < |after| ==> after[j].key != x.key
    ensures Remove(before + ([x] + after), x.key) == before + after
  {
    RemoveAbsent(before, x.key);
    RemoveAbsent(after, x.key);
    RemoveConcat(before, [x] + after, x.key);
    assert ([x] + after)[1..] == after;
  }

  /** Removing a key from two lists joined is removing it from each. */
  lemma {:induction false} RemoveConcat(a: seq<Item>, b: seq<Item>, key: string)
    ensures Remove(a + b, key) == Remove(a, key) + Remove(b, key)
    decreases |a|
  {
    if |a| > 0 {
      assert (a + b)[1..] == a[1..] + b;
      RemoveConcat(a[1..], b, key);
    } else {
      assert a + b == b;
    }
  }

  /** Removing a key that is not listed changes nothing. */
  lemma {:induction false} RemoveAbsent(items: seq<Item>, key: string)
    requires forall j :: 0 <= j < |items| ==> items[j].key != key
    ensures Remove(items, key) == items
  {
    if |items| > 0 {
      RemoveAbsent(items[1..], key);
    }
  }

  /** The items `drop` does not select, in their order. */
  function RemoveWhere(items: seq<Item>, drop: Item -> bool): (r: seq<Item>)
    ensures |r| <= |items|
  {
    if |items| == 0 then []
    else RemoveWhere(items[..|items| - 1], drop) + (if drop(items[|items| - 1]) then [] else [items[|items| - 1]])
  }

  lemma {:induction false} RemoveWhereConcat(a: seq<Item>, b: seq<Item>, drop: Item -> bool)
    ensures RemoveWhere(a + b, drop) == RemoveWhere(a, drop) + RemoveWhere(b, drop)
    decreases |b|
  {
    if |b| > 0 {
      assert (a + b)[..|a + b| - 1] == a + b[..|b| - 1];
      RemoveWhereConcat(a, b[..|b| - 1], drop);
    } else {
      assert a + b == a;
    }
  }

  /** A list in which nothing is selected is kept whole. */
  lemma {:induction false} RemoveWhereNone(items: seq<Item>, drop: Item -> bool)
    requires forall j :: 0 <= j < |items| ==> !drop(items[j])
    ensures RemoveWhere(items, drop) == items
  {
    if |items| > 0 {
      RemoveWhereNone(items[..|items| - 1], drop);
    }
  }

  /** An item is kept exactly when it is listed and not selected. */
  lemma {:induction false} RemoveWhereMembers(items: seq<Item>, drop: Item -> bool, x: Item)
    ensures x in RemoveWhere(items, drop) <==> x in items && !drop(x)
  {
    if |items| > 0 {
      RemoveWhereMembers(items[..|items| - 1], drop, x);
      assert items == items[..|items| - 1] + [items[|items| - 1]];
    }
  }

  /** Taking out a selected item does not change what `RemoveWhere` keeps. */
  lemma DropSelected(items: seq<Item>, i: nat, drop: Item -> bool)
    requires i < |items| && drop(items[i])
    ensures RemoveWhere(items[..i] + items[i + 1..], drop) == RemoveWhere(items, drop)
    ensures (items[..i] + items[i + 1..])[..i] == items[..i]
  {
    assert items == items[..i] + ([items[i]] + items[i + 1..]);
    RemoveWhereConcat(items[..i], [items[i]] + items[i + 1..], drop);
    RemoveWhereConcat([items[i]], items[i + 1..], drop);
    RemoveWhereConcat(items[..i], items[i + 1..], drop);
    assert RemoveWhere([items[i]], drop) == [] by {
      assert [items[i]][..0] == [];
    }
  }

  /** A prefix that `RemoveWhere` keeps whole stays so when an unselected item joins it. */
  lemma KeepUnselected(items: seq<Item>, i: nat, drop: Item -> bool)
    requires i < |items| && !drop(items[i])
    requires items[..i] == RemoveWhere(items[..i], drop)
    ensures items[..i + 1] == RemoveWhere(items[..i + 1], drop)
  {
    assert items[..i + 1][..i] == items[..i];
  }

  /** With distinct keys, `getItem(items[i].key)` is the text at position `i`. */
  lemma {:induction false} LookupAt(items: seq<Item>, i: nat)
    requires Distinct(items) && i < |items|
    ensures Lookup(items, items[i].key) == Some(items[i].text)
  {
    if i > 0 {
      assert items[1..][i - 1] == items[i];
      LookupAt(items[1..], i - 1);
    }
  }

  /**
   * Sweeping over a snapshot of the items: `current` is what is left after
   * the first `j` were judged, and the `j`-th, still in place, reads as before.
   */
  lemma SweepLookup(items: seq<Item>, j: nat, drop: Item -> bool, current: seq<Item>)
    requires j < |items| && Distinct(current)
    requires current == RemoveWhere(items[..j], drop) + items[j..]
    ensures Lookup(current, items[j].key) == Some(items[j].text)
  {
    var kept := RemoveWhere(items[..j], drop);
    assert current[|kept|] == items[j];
    LookupAt(current, |kept|);
  }

  /** Removing the `j`-th item of the snapshot when it is selected. */
  lemma SweepDrop(items: seq<Item>, j: nat, drop: Item -> bool, current: seq<Item>)
    requires j < |items| && Distinct(current) && drop(items[j])
    requires current == RemoveWhere(items[..j], drop) + items[j..]
    ensures Remove(current, items[j].key) == RemoveWhere(items[..j + 1], drop) + items[j + 1..]
  {
    var kept, after := RemoveWhere(items[..j], drop), items[j + 1..];
    SplitAt(items, j);
    DistinctAround(kept, items[j], after);
    RemoveBetween(kept, items[j], after);
    SweepSplit(items, j, drop);
    assert kept + [] == kept;
  }

  lemma SplitAt(items: seq<Item>, j: nat)
    requires j < |items|
    ensures items[j..] == [items[j]] + items[j + 1..]
  {
  }

  /** In a list with distinct keys, no item before or after `x` shares its key. */
  lemma DistinctAround(before: seq<Item>, x: Item, after: seq<Item>)
    requires Distinct(before + ([x] + after))
    ensures forall j :: 0 <= j < |before| ==> before[j].key != x.key
    ensures forall j :: 0 <= j < |after| ==> after[j].key != x.key
  {
    var all := before + ([x] + after);
    assert all[|before|] == x;
    forall j | 0 <= j < |before| ensures before[j].key != x.key {
      assert all[j] == before[j];
    }
    forall j | 0 <= j < |after| ensures after[j].key != x.key {
      assert all[|before| + 1 + j] == after[j];
    }
  }

  /** Keeping the `j`-th item of the snapshot when it is not selected. */
  lemma SweepKeep(items: seq<Item>, j: nat, drop: Item -> bool, current: seq<Item>)
    requires j < |items| && !drop(items[j])
    requires current == RemoveWhere(items[..j], drop) + items[j..]
    ensures current == RemoveWhere(items[..j + 1], drop) + items[j + 1..]
  {
    SweepSplit(items, j, drop);
    assert items[j..] == [items[j]] + items[j + 1..];
  }

  lemma SweepSplit(items: seq<Item>, j: nat, drop: Item -> bool)
    requires j < |items|
    ensures RemoveWhere(items[..j + 1], drop) ==
      RemoveWhere(items[..j], drop) + (if drop(items[j]) then [] else [items[j]])
  {
    assert items[..j + 1][..j] == items[..j];
  }

  /** The storage area of one origin. */
  class Storage {
    var items: seq<Item>
    /** Whether every write throws (storage disabled, or over quota). */
    const full: bool

    constructor(items: seq<Item>, full: bool)
      requires Distinct(items)
      ensures this.items == items && this.full == full && Valid()
    {
      this.items := items;
      this.full := full;
    }

    predicate Valid()
      reads this
    {
      Distinct(items)
    }

    /** `getItem(key)` */
    function GetItem(key: string): Option<Text>
      reads this
    {
      Lookup(items, key)
    }

    /** `setItem(key, t)`; `ok` is false when the write throws. */
    method SetItem(key: string, t: Text) returns (ok: bool)
      requires Valid()
      modifies this`items
      ensures Valid()
      ensures ok == !full
      ensures items == if full then old(items) else Put(old(items), key, t)
    {
      ok := !full;
      if ok {
        PutDistinct(items, key, t);
        items := Put(items, key, t);
      }
    }

    /** `removeItem(key)` */
    method RemoveItem(key: string)
      requires Valid()
      modifies this`items
      ensures Valid()
      ensures items == Remove(old(items), key)
    {
      items := Remove(items, key);
    }
  }
}
