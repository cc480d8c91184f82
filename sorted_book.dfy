/** One side of an order book, as the bot keeps it in a `SortedDict`
    from price to size: the levels in strictly ascending price order, one
    level per price. Zero-size levels are ordinary levels (a snapshot may
    carry them). */
module SortedBook {
  import opened Util

  datatype Level = Level(price: real, size: real)

  /** Strictly ascending prices, hence one level per price. */
  predicate Ascending(s: seq<Level>) {
    forall i, j :: 0 <= i < j < |s| ==> s[i].price < s[j].price
  }

  /** `book.get(price)`. */
  function Get(s: seq<Level>, p: real): (r: Option<real>)
    ensures r.Some? ==> Level(p, r.value) in s
    ensures r.None? ==> forall l :: l in s ==> l.price != p
  {
    if s == [] then None
    else if s[0].price == p then Some(s[0].size)
    else Get(s[1..], p)
  }

  /** In an ascending book, a level is present exactly when `Get` finds its size. */
  lemma {:induction false} GetFinds(s: seq<Level>, l: Level)
    requires Ascending(s)
    ensures l in s <==> Get(s, l.price) == Some(l.size)
  {
    if s != [] {
      if l in s[1..] {
        GetFinds(s[1..], l);
        assert s[0].price != l.price by {
          var j :| 0 <= j < |s[1..]| && s[1..][j] == l;
          assert s[j + 1] == l;
        }
      } else if l != s[0] {
        GetFinds(s[1..], l);
      }
    }
  }

  /** `book[p] = v`: the level at `p` is replaced, or inserted in its place. */
  function Set(s: seq<Level>, p: real, v: real): (r: seq<Level>)
    requires Ascending(s)
    ensures Ascending(r)
    ensures forall l :: l in r ==> l == Level(p, v) || (l in s && l.price != p)
    ensures Level(p, v) in r
    ensures forall l :: l in s && l.price != p ==> l in r
  {
    if s == [] then [Level(p, v)]
    else if p < s[0].price then [Level(p, v)] + s
    else if p == s[0].price then [Level(p, v)] + s[1..]
    else [s[0]] + Set(s[1..], p, v)
  }

  /** `del book[p]` when present; the book is left alone otherwise. */
  function Delete(s: seq<Level>, p: real): (r: seq<Level>)
    requires Ascending(s)
    ensures Ascending(r)
    ensures forall l :: l in r ==> l in s && l.price != p
    ensures forall l :: l in s && l.price != p ==> l in r
    ensures (forall l :: l in s ==> l.price != p) ==> r == s
  {
    if s == [] then []
    else if s[0].price == p then s[1..]
    else [s[0]] + Delete(s[1..], p)
  }

  /** After `Set`, the book answers `v` at `p` and what it answered before everywhere else. */
  lemma SetGet(s: seq<Level>, p: real, v: real, q: real)
    requires Ascending(s)
    ensures Get(Set(s, p, v), q) == if q == p then Some(v) else Get(s, q)
  {
    var r := Set(s, p, v);
    if q == p {
      GetFinds(r, Level(p, v));
    } else {
      match Get(s, q)
      case Some(x) =>
        GetFinds(s, Level(q, x));
        GetFinds(r, Level(q, x));
      case None =>
    }
  }

  /** After `Delete`, the book has nothing at `p` and is unchanged elsewhere. */
  lemma DeleteGet(s: seq<Level>, p: real, q: real)
    requires Ascending(s)
    ensures Get(Delete(s, p), q) == if q == p then None else Get(s, q)
  {
    var r := Delete(s, p);
    if q != p {
      match Get(s, q)
      case Some(x) =>
        GetFinds(s, Level(q, x));
        GetFinds(r, Level(q, x));
      case None =>
    }
  }

  /** The size the last entry at price `p` carries, if any: a dictionary
      built from entries keeps the last value per key. */
  function LastAt(entries: seq<Level>, p: real): Option<real> {
    if entries == [] then None
    else if entries[|entries| - 1].price == p then Some(entries[|entries| - 1].size)
    else LastAt(entries[..|entries| - 1], p)
  }

  /** `book.clear(); book.update({price: size for entry in entries})`. */
  function FromEntries(entries: seq<Level>): (r: seq<Level>)
    ensures Ascending(r)
  {
    if entries == [] then []
    else
      var e := entries[|entries| - 1];
      Set(FromEntries(entries[..|entries| - 1]), e.price, e.size)
  }

  /** A snapshot holds, at each price, the size of the last entry quoting it,
      and nothing at an unquoted price. */
  lemma {:induction false} FromEntriesGet(entries: seq<Level>, q: real)
    ensures Get(FromEntries(entries), q) == LastAt(entries, q)
  {
    if entries != [] {
      var e := entries[|entries| - 1];
      FromEntriesGet(entries[..|entries| - 1], q);
      SetGet(FromEntries(entries[..|entries| - 1]), e.price, e.size, q);
    }
  }

  /** Two entries at the same price: the second one's size wins. */
  lemma SnapshotScenario()
    ensures FromEntries([Level(0.5, 10.0), Level(0.4, 0.0), Level(0.5, 7.0)]) == [Level(0.4, 0.0), Level(0.5, 7.0)]
  {
    assert [Level(0.5, 10.0), Level(0.4, 0.0), Level(0.5, 7.0)][..2] == [Level(0.5, 10.0), Level(0.4, 0.0)];
    assert [Level(0.5, 10.0), Level(0.4, 0.0)][..1] == [Level(0.5, 10.0)];
    assert [Level(0.5, 10.0)][..0] == [];
  }
}
