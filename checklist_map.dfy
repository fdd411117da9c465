/** A JavaScript object `{ [item: string]: boolean }` as the code uses it for
    checklist results: keys keep their insertion order (it shows in
    `Object.values` and `Object.entries`), writing an existing key replaces its
    value in place, and writing a new key appends it. */
module ChecklistMap {
  import opened Wrappers

  datatype Entry = Entry(item: string, done: bool)

  type Checklist = seq<Entry>

  /** `Object.keys(m)` */
  function Keys(m: Checklist): (ks: seq<string>)
    ensures |ks| == |m|
    ensures forall i :: 0 <= i < |m| ==> ks[i] == m[i].item
  {
    if m == [] then [] else [m[0].item] + Keys(m[1..])
  }

  /** No item occurs twice, as in every object. */
  ghost predicate Valid(m: Checklist) {
    forall i, j :: 0 <= i < j < |m| ==> m[i].item != m[j].item
  }

  /** `m[item]`, with `None` for `undefined`. */
  function Get(m: Checklist, item: string): (r: Option<bool>)
    ensures r.None? <==> item !in Keys(m)
    ensures r.Some? ==> Entry(item, r.value) in m
  {
    if m == [] then None
    else if m[0].item == item then Some(m[0].done)
    else Get(m[1..], item)
  }

  /** `m[item] = done` */
  function Set(m: Checklist, item: string, done: bool): (r: Checklist)
    ensures Keys(r) == if item in Keys(m) then Keys(m) else Keys(m) + [item]
    ensures forall e :: e in r ==> e in m || e == Entry(item, done)
  {
    if m == [] then [Entry(item, done)]
    else if m[0].item == item then [Entry(item, done)] + m[1..]
    else
      var r := [m[0]] + Set(m[1..], item, done);
      assert r[1..] == Set(m[1..], item, done);
      assert Keys(m) == [m[0].item] + Keys(m[1..]);
      r
  }

  /** After `m[item] = done`, `m[item]` is `done`. */
  lemma {:induction false} SetThenGet(m: Checklist, item: string, done: bool)
    ensures Get(Set(m, item, done), item) == Some(done)
  {
    if m != [] && m[0].item != item {
      SetThenGet(m[1..], item, done);
      assert Set(m, item, done)[1..] == Set(m[1..], item, done);
    }
  }

  /** `m[item] = done` leaves every other key's value as it was. */
  lemma {:induction false} SetKeepsOthers(m: Checklist, item: string, done: bool, other: string)
    requires other != item
    ensures Get(Set(m, item, done), other) == Get(m, other)
  {
    if m != [] && m[0].item != item {
      SetKeepsOthers(m[1..], item, done, other);
      assert Set(m, item, done)[1..] == Set(m[1..], item, done);
    } else if m != [] {
      assert Set(m, item, done)[1..] == m[1..];
    }
  }

  /** Writing a key keeps the keys distinct. */
  lemma SetValid(m: Checklist, item: string, done: bool)
    requires Valid(m)
    ensures Valid(Set(m, item, done))
  {
    var r := Set(m, item, done);
    assert Keys(r) == if item in Keys(m) then Keys(m) else Keys(m) + [item];
    forall i, j | 0 <= i < j < |r| ensures r[i].item != r[j].item {
      assert Keys(r)[i] == r[i].item && Keys(r)[j] == r[j].item;
      if j == |m| {
        assert item !in Keys(m);
        assert Keys(r)[i] == Keys(m)[i];
      } else {
        assert Keys(r)[i] == Keys(m)[i] && Keys(r)[j] == Keys(m)[j];
      }
    }
  }

  /** `Object.values(m).some(v => !v)` */
  predicate AnyUnchecked(m: Checklist) {
    exists i :: 0 <= i < |m| && !m[i].done
  }
}
