/** The saved-query history: the records fetched from the user's collection, shown newest first. */
module History {
  import opened Options

  /** A saved query. `timestamp` is the server time in milliseconds, absent while the server has
      not assigned it yet or on a record written without one. */
  datatype SavedQuery = SavedQuery(
    id: string,
    query: string,
    response: string,
    recommendation: string,
    timestamp: Option<int>)

  /** What the comparator subtracts: the record's time, or 0 for a record without one. */
  function SortKey(q: SavedQuery): int {
    Or(q.timestamp, 0)
  }

  /** No record is older than a record after it. */
  predicate NewestFirst(xs: seq<SavedQuery>) {
    forall i, j | 0 <= i < j < |xs| :: SortKey(xs[i]) >= SortKey(xs[j])
  }

  /** A record newer than every record of a sorted sequence can go in front of it. */
  lemma ConsNewestFirst(y: SavedQuery, t: seq<SavedQuery>)
    requires NewestFirst(t)
    requires forall z | z in t :: SortKey(y) >= SortKey(z)
    ensures NewestFirst([y] + t)
  {
    forall i, j | 0 <= i < j < |[y] + t| ensures SortKey(([y] + t)[i]) >= SortKey(([y] + t)[j]) {
      assert ([y] + t)[j] == t[j - 1];
      if i > 0 {
        assert ([y] + t)[i] == t[i - 1];
      } else {
        assert t[j - 1] in t;
      }
    }
  }

  lemma HeadNewest(ys: seq<SavedQuery>)
    requires |ys| > 0 && NewestFirst(ys)
    ensures NewestFirst(ys[1..])
    ensures forall z | z in ys[1..] :: SortKey(ys[0]) >= SortKey(z)
  {
    forall z | z in ys[1..] ensures SortKey(ys[0]) >= SortKey(z) {
      var m :| 0 <= m < |ys[1..]| && ys[1..][m] == z;
      assert z == ys[m + 1];
    }
  }

  /** A record not older than the head of a sorted sequence can go in front of it. */
  lemma InsertFront(x: SavedQuery, ys: seq<SavedQuery>)
    requires ys == [] || SortKey(ys[0]) <= SortKey(x)
    requires NewestFirst(ys)
    ensures NewestFirst([x] + ys)
  {
    if ys != [] {
      HeadNewest(ys);
      assert ys == [ys[0]] + ys[1..];
    }
  }

  /** The head of a sorted sequence stays in front of a sorted rearrangement of its tail with one
      older record added. */
  lemma InsertBehind(x: SavedQuery, ys: seq<SavedQuery>, t: seq<SavedQuery>)
    requires |ys| > 0 && SortKey(ys[0]) > SortKey(x)
    requires multiset(t) == multiset(ys[1..]) + multiset{x}
    requires NewestFirst(ys) && NewestFirst(t)
    ensures NewestFirst([ys[0]] + t)
  {
    HeadNewest(ys);
    forall z | z in t ensures SortKey(ys[0]) >= SortKey(z) {
      assert z in multiset(t);
    }
    ConsNewestFirst(ys[0], t);
  }

  /** `x` placed in front of the first record that is not newer than it. Placing it before
      records with its own key keeps `x`, which came earlier, ahead of them. */
  function Insert(x: SavedQuery, ys: seq<SavedQuery>): (r: seq<SavedQuery>)
    ensures multiset(r) == multiset(ys) + multiset{x}
    ensures NewestFirst(ys) ==> NewestFirst(r)
  {
    if ys == [] || SortKey(ys[0]) <= SortKey(x) then
      if NewestFirst(ys) then InsertFront(x, ys); [x] + ys
      else [x] + ys
    else
      var t := Insert(x, ys[1..]);
      assert ys == [ys[0]] + ys[1..];
      if NewestFirst(ys) then
        HeadNewest(ys);
        InsertBehind(x, ys, t);
        [ys[0]] + t
      else
        [ys[0]] + t
  }

  /** The history listing's sort: newest first, comparing by the difference of the sort keys.
      The sort of the JavaScript engine is stable, so records with the same key stay in the order
      they were fetched. */
  function SortNewestFirst(xs: seq<SavedQuery>): (r: seq<SavedQuery>)
    ensures multiset(r) == multiset(xs)
    ensures NewestFirst(r)
  {
    if xs == [] then []
    else
      assert xs == [xs[0]] + xs[1..];
      Insert(xs[0], SortNewestFirst(xs[1..]))
  }

  /** The records with time `k`, in order. */
  function WithKey(xs: seq<SavedQuery>, k: int): (r: seq<SavedQuery>)
    ensures forall z | z in r :: z in xs && SortKey(z) == k
  {
    if xs == [] then []
    else if SortKey(xs[0]) == k then [xs[0]] + WithKey(xs[1..], k)
    else WithKey(xs[1..], k)
  }

  lemma {:induction false} InsertStable(x: SavedQuery, ys: seq<SavedQuery>, k: int)
    ensures WithKey(Insert(x, ys), k) == (if SortKey(x) == k then [x] else []) + WithKey(ys, k)
  {
    if ys == [] || SortKey(ys[0]) <= SortKey(x) {
      assert ([x] + ys)[1..] == ys;
    } else {
      var t := Insert(x, ys[1..]);
      assert ([ys[0]] + t)[1..] == t;
      InsertStable(x, ys[1..], k);
    }
  }

  /** The sort is stable: among records with the same time, the order is the fetched order. */
  lemma {:induction false} SortStable(xs: seq<SavedQuery>, k: int)
    ensures WithKey(SortNewestFirst(xs), k) == WithKey(xs, k)
  {
    if xs != [] {
      SortStable(xs[1..], k);
      InsertStable(xs[0], SortNewestFirst(xs[1..]), k);
    }
  }
}
