/**
 * Python's `dict` with string keys, as an insertion-ordered list of entries:
 * assigning to an existing key keeps its position, assigning to a new key
 * appends it, `update` assigns the other dict's entries in order, and
 * `repr` renders the entries in that order.
 */
module PyDict {
  import opened PyText

  type Dict<V> = seq<(string, V)>

  predicate UniqueKeys<V>(d: Dict<V>) {
    forall i, j :: 0 <= i < j < |d| ==> d[i].0 != d[j].0
  }

  function Keys<V>(d: Dict<V>): set<string> {
    set i | 0 <= i < |d| :: d[i].0
  }

  lemma KeysCons<V>(x: (string, V), d: Dict<V>)
    ensures Keys([x] + d) == {x.0} + Keys(d)
  {
    var r := [x] + d;
    assert r[0].0 == x.0;
    forall k | k in Keys(r) ensures k in {x.0} + Keys(d) {
      var i :| 0 <= i < |r| && r[i].0 == k;
      if i > 0 { assert d[i - 1].0 == k; }
    }
    forall k | k in Keys(d) ensures k in Keys(r) {
      var i :| 0 <= i < |d| && d[i].0 == k;
      assert r[i + 1].0 == k;
    }
  }

  lemma KeysSplit<V>(d: Dict<V>)
    requires d != []
    ensures Keys(d) == {d[0].0} + Keys(d[1..])
  {
    assert d == [d[0]] + d[1..];
    KeysCons(d[0], d[1..]);
  }

  /** `d.get(k)` */
  function Get<V>(d: Dict<V>, k: string): (r: Option<V>)
    ensures r.Some? <==> k in Keys(d)
    decreases |d|
  {
    if d == [] then None
    else if d[0].0 == k then Some(d[0].1)
    else
      KeysSplit(d);
      Get(d[1..], k)
  }

  /** Looking up a key in a dictionary given by its first entry and the rest. */
  lemma GetCons<V>(x: (string, V), d: Dict<V>, k: string)
    ensures Get([x] + d, k) == if x.0 == k then Some(x.1) else Get(d, k)
  {
    assert ([x] + d)[1..] == d;
  }

  /** `d.get(k, default)` */
  function GetOr<V>(d: Dict<V>, k: string, default: V): V {
    match Get(d, k)
    case Some(v) => v
    case None => default
  }

  /** `d[k] = v` */
  function Set<V>(d: Dict<V>, k: string, v: V): (r: Dict<V>)
    decreases |d|
  {
    if d == [] then [(k, v)]
    else if d[0].0 == k then [(k, v)] + d[1..]
    else [d[0]] + Set(d[1..], k, v)
  }

  /** Assigning to a dictionary given by its first entry and the rest. */
  lemma SetCons<V>(x: (string, V), d: Dict<V>, k: string, v: V)
    ensures Set([x] + d, k, v) == if x.0 == k then [(k, v)] + d else [x] + Set(d, k, v)
  {
    assert ([x] + d)[1..] == d;
  }

  /** After `d[k] = v`, `k` maps to `v` and every other key keeps its value. */
  lemma {:induction false} SetGet<V>(d: Dict<V>, k: string, v: V, k': string)
    ensures Get(Set(d, k, v), k') == if k' == k then Some(v) else Get(d, k')
    decreases |d|
  {
    if d != [] && d[0].0 != k {
      SetGet(d[1..], k, v, k');
    }
  }

  /**
   * `d[k] = v` adds `k` to the keys; an existing key keeps its position and a
   * new key is appended at the end.
   */
  lemma {:induction false} SetShape<V>(d: Dict<V>, k: string, v: V)
    ensures Keys(Set(d, k, v)) == Keys(d) + {k}
    ensures k in Keys(d) ==> |Set(d, k, v)| == |d| && forall i :: 0 <= i < |d| ==> Set(d, k, v)[i].0 == d[i].0
    ensures k !in Keys(d) ==> Set(d, k, v) == d + [(k, v)]
    decreases |d|
  {
    if d != [] {
      KeysSplit(d);
      if d[0].0 == k {
        KeysCons((k, v), d[1..]);
      } else {
        SetShape(d[1..], k, v);
        KeysCons(d[0], Set(d[1..], k, v));
      }
    } else {
      KeysCons((k, v), d);
    }
  }

  /** `d[k] = v` never duplicates a key. */
  lemma {:induction false} SetUnique<V>(d: Dict<V>, k: string, v: V)
    requires UniqueKeys(d)
    ensures UniqueKeys(Set(d, k, v))
    decreases |d|
  {
    if d != [] && d[0].0 != k {
      KeysSplit(d);
      SetUnique(d[1..], k, v);
      SetShape(d[1..], k, v);
      var r := Set(d, k, v);
      assert d[0].0 !in Keys(d[1..]);
      forall i, j | 0 <= i < j < |r| ensures r[i].0 != r[j].0 {
        if i == 0 {
          assert r[j].0 == Set(d[1..], k, v)[j - 1].0;
        }
      }
    }
  }

  lemma SetSpec<V>(d: Dict<V>, k: string, v: V)
    ensures Get(Set(d, k, v), k) == Some(v)
    ensures forall k' :: k' != k ==> Get(Set(d, k, v), k') == Get(d, k')
    ensures Keys(Set(d, k, v)) == Keys(d) + {k}
    ensures UniqueKeys(d) ==> UniqueKeys(Set(d, k, v))
    ensures k in Keys(d) ==> |Set(d, k, v)| == |d| && forall i :: 0 <= i < |d| ==> Set(d, k, v)[i].0 == d[i].0
    ensures k !in Keys(d) ==> Set(d, k, v) == d + [(k, v)]
  {
    SetGet(d, k, v, k);
    forall k' | k' != k ensures Get(Set(d, k, v), k') == Get(d, k') {
      SetGet(d, k, v, k');
    }
    SetShape(d, k, v);
    if UniqueKeys(d) {
      SetUnique(d, k, v);
    }
  }

  /** `d.update(e)`: the entries of `e` are assigned one by one, in order. */
  function Update<V>(d: Dict<V>, e: Dict<V>): Dict<V>
    decreases |e|
  {
    if e == [] then d else Update(Set(d, e[0].0, e[0].1), e[1..])
  }

  /**
   * After `d.update(e)` a key of `e` maps to its value in `e` (the later write
   * wins) and every other key keeps its value in `d`.
   */
  lemma {:induction false} UpdateGet<V>(d: Dict<V>, e: Dict<V>, k: string)
    requires UniqueKeys(e)
    ensures Get(Update(d, e), k) == if k in Keys(e) then Get(e, k) else Get(d, k)
    decreases |e|
  {
    if e != [] {
      SetSpec(d, e[0].0, e[0].1);
      KeysSplit(e);
      UpdateGet(Set(d, e[0].0, e[0].1), e[1..], k);
    }
  }

  /** `d.update(e)` has the keys of both and, when `d` had no duplicate key, still has none. */
  lemma {:induction false} UpdateKeys<V>(d: Dict<V>, e: Dict<V>)
    ensures Keys(Update(d, e)) == Keys(d) + Keys(e)
    ensures UniqueKeys(d) ==> UniqueKeys(Update(d, e))
    decreases |e|
  {
    if e != [] {
      SetSpec(d, e[0].0, e[0].1);
      KeysSplit(e);
      UpdateKeys(Set(d, e[0].0, e[0].1), e[1..]);
    }
  }

  /** Python's `repr` of a string: single quotes unless the text has a single quote and no double quote. */
  function StrRepr(s: string): string {
    var q := if '\'' in s && '"' !in s then '"' else '\'';
    [q] + Escape(s, q) + [q]
  }

  function Escape(s: string, q: char): string
    decreases |s|
  {
    if s == [] then ""
    else
      var c := s[0];
      var e := if c == '\\' then "\\\\"
               else if c == q then ['\\', q]
               else if c == '\n' then "\\n"
               else if c == '\r' then "\\r"
               else if c == '\t' then "\\t"
               else [c];
      e + Escape(s[1..], q)
  }

  /** Python's `repr` of a dict of strings, entries in insertion order. */
  function Repr(d: Dict<string>): string {
    "{" + Join(EntryReprs(d), ", ") + "}"
  }

  function EntryReprs(d: Dict<string>): (r: seq<string>)
    ensures |r| == |d|
    decreases |d|
  {
    if d == [] then [] else [StrRepr(d[0].0) + ": " + StrRepr(d[0].1)] + EntryReprs(d[1..])
  }
}
