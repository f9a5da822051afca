/** The "main contributor" rule: the category whose per-person emission is
    largest, ties going to the category declared first. The calculator obtains
    it as the head of a stable descending sort of the record's entries; the
    model computes it by a left-to-right scan and proves the two agree. */
module MainProblem {
  import opened Categories

  /** One `[key, value]` pair of the record's entries. */
  datatype Entry = Entry(key: Category, value: real)

  /** The record's entries, in key declaration order. */
  function Entries(b: Breakdown): (s: seq<Entry>)
    ensures |s| == |AllCategories|
    ensures forall c: Category :: s[c.Rank()] == Entry(c, b.Get(c))
  {
    [Entry(Water, b.water), Entry(Electricity, b.electricity),
     Entry(Food, b.food), Entry(Car, b.car)]
  }

  /** Index `k` holds a largest value of `s`, and no earlier index holds one as large. */
  predicate IsFirstMax(s: seq<Entry>, k: int) {
    && 0 <= k < |s|
    && (forall i :: 0 <= i < |s| ==> s[i].value <= s[k].value)
    && (forall i :: 0 <= i < k ==> s[i].value < s[k].value)
  }

  /** Left-to-right scan from index `i`: `best` is the first maximum among the
      entries before `i`, and it is replaced only by a strictly greater value. */
  function ScanMax(s: seq<Entry>, i: nat, best: nat): (k: nat)
    requires best < i <= |s|
    requires forall j :: 0 <= j < i ==> s[j].value <= s[best].value
    requires forall j :: 0 <= j < best ==> s[j].value < s[best].value
    ensures IsFirstMax(s, k)
    decreases |s| - i
  {
    if i == |s| then best
    else ScanMax(s, i + 1, if s[i].value > s[best].value then i else best)
  }

  /** The first maximum of a non-empty sequence of entries. */
  function ArgMax(s: seq<Entry>): (k: nat)
    requires |s| > 0
    ensures IsFirstMax(s, k)
  {
    ScanMax(s, 1, 0)
  }

  /** `c` is the main contributor of `b`: its emission is at least every other
      category's, and every category declared before it emits strictly less. */
  predicate IsMainFor(b: Breakdown, c: Category) {
    && (forall d: Category :: b.Get(d) <= b.Get(c))
    && (forall d: Category :: d.Rank() < c.Rank() ==> b.Get(d) < b.Get(c))
  }

  /** The calculator's main-contributor rule over the per-person emissions. */
  function MainCategory(b: Breakdown): (c: Category)
    ensures IsMainFor(b, c)
  {
    var s := Entries(b);
    var k := ArgMax(s);
    assert IsFirstMax(s, k);
    assert forall d: Category :: s[d.Rank()].value == b.Get(d);
    s[k].key
  }

  /** The main contributor is the ONLY category meeting the rule. */
  lemma MainCategoryUnique(b: Breakdown, c: Category)
    ensures IsMainFor(b, c) <==> c == MainCategory(b)
  {
    var m := MainCategory(b);
    if IsMainFor(b, c) {
      assert b.Get(c) == b.Get(m);
      assert c.Rank() == m.Rank();
    }
  }

  // ---------------------------------------------------------------------------
  // Stable descending sort

  /** Values never increase from left to right. */
  predicate Descending(s: seq<Entry>) {
    forall i, j :: 0 <= i < j < |s| ==> s[i].value >= s[j].value
  }

  /** The entries of `s` whose value is `v`, in their order in `s`. */
  function Tied(s: seq<Entry>, v: real): seq<Entry> {
    if s == [] then []
    else (if s[0].value == v then [s[0]] else []) + Tied(s[1..], v)
  }

  /** `r` is what a stable sort by descending value makes of `s`: a permutation
      of `s`, descending, and entries of equal value keep their relative order. */
  ghost predicate IsStableDescendingSortOf(r: seq<Entry>, s: seq<Entry>) {
    && multiset(r) == multiset(s)
    && Descending(r)
    && forall v :: Tied(r, v) == Tied(s, v)
  }

  /** The first entry of value `v` in `s` heads the entries tied at `v`. */
  lemma {:induction false} TiedHead(s: seq<Entry>, i: nat, v: real)
    requires i < |s| && s[i].value == v
    requires forall j :: 0 <= j < i ==> s[j].value != v
    ensures Tied(s, v) != [] && Tied(s, v)[0] == s[i]
  {
    if i > 0 {
      TiedHead(s[1..], i - 1, v);
    }
  }

  /** Any stable descending sort of a non-empty sequence starts with the first
      maximum of that sequence. */
  lemma StableSortHead(s: seq<Entry>, r: seq<Entry>, k: nat)
    requires IsStableDescendingSortOf(r, s)
    requires IsFirstMax(s, k)
    ensures r != [] && r[0] == s[k]
  {
    var v := s[k].value;
    assert s[k] in multiset(r);
    var j :| 0 <= j < |r| && r[j] == s[k];
    assert r[0] in multiset(s);
    var i :| 0 <= i < |s| && s[i] == r[0];
    assert r[0].value == v;
    TiedHead(r, 0, v);
    TiedHead(s, k, v);
  }

  /** Inserts `x` before the first entry whose value is not larger than its own. */
  function Insert(x: Entry, t: seq<Entry>): (r: seq<Entry>)
    ensures multiset(r) == multiset(t) + multiset{x}
    ensures r != [] && (r[0] == x || (t != [] && r[0] == t[0]))
  {
    if t == [] || x.value >= t[0].value then [x] + t
    else
      assert t == [t[0]] + t[1..];
      [t[0]] + Insert(x, t[1..])
  }

  /** A stable descending insertion sort: a witness that such a sort exists. */
  function InsertionSort(s: seq<Entry>): (r: seq<Entry>)
    ensures multiset(r) == multiset(s)
  {
    if s == [] then []
    else
      assert s == [s[0]] + s[1..];
      Insert(s[0], InsertionSort(s[1..]))
  }

  /** An entry in front of a descending sequence keeps it descending when it is
      not smaller than the sequence's first entry. */
  lemma DescendingCons(e: Entry, u: seq<Entry>)
    requires Descending(u)
    requires u == [] || e.value >= u[0].value
    ensures Descending([e] + u)
  {
    var r := [e] + u;
    forall i, j | 0 <= i < j < |r| ensures r[i].value >= r[j].value {
      assert r[j] == u[j - 1];
      if i > 0 {
        assert r[i] == u[i - 1];
      }
    }
  }

  lemma {:induction false} InsertDescending(x: Entry, t: seq<Entry>)
    requires Descending(t)
    ensures Descending(Insert(x, t))
  {
    if t == [] || x.value >= t[0].value {
      DescendingCons(x, t);
    } else {
      var u := Insert(x, t[1..]);
      assert Descending(t[1..]);
      InsertDescending(x, t[1..]);
      assert u[0] == x || u[0] == t[1];
      DescendingCons(t[0], u);
    }
  }

  /** Tied entries of a sequence with one entry in front. */
  lemma TiedCons(e: Entry, s: seq<Entry>, v: real)
    ensures Tied([e] + s, v) == (if e.value == v then [e] else []) + Tied(s, v)
  {
    assert ([e] + s)[1..] == s;
  }

  lemma {:induction false} InsertTied(x: Entry, t: seq<Entry>, v: real)
    requires Descending(t)
    ensures Tied(Insert(x, t), v) == (if x.value == v then [x] else []) + Tied(t, v)
  {
    if t == [] || x.value >= t[0].value {
      TiedCons(x, t, v);
    } else {
      var u := Insert(x, t[1..]);
      var front := if t[0].value == v then [t[0]] else [];
      var own := if x.value == v then [x] else [];
      var rest := Tied(t[1..], v);
      assert front == [] || own == [];
      calc {
        Tied(Insert(x, t), v);
        == { assert Insert(x, t) == [t[0]] + u; }
        Tied([t[0]] + u, v);
        == { TiedCons(t[0], u, v); }
        front + Tied(u, v);
        == { InsertTied(x, t[1..], v); }
        front + (own + rest);
        == own + (front + rest);
        == { assert t == [t[0]] + t[1..]; TiedCons(t[0], t[1..], v); }
        own + Tied(t, v);
      }
    }
  }

  lemma {:induction false} InsertionSortIsStable(s: seq<Entry>)
    ensures IsStableDescendingSortOf(InsertionSort(s), s)
  {
    if s != [] {
      InsertionSortIsStable(s[1..]);
      var t := InsertionSort(s[1..]);
      InsertDescending(s[0], t);
      forall v ensures Tied(InsertionSort(s), v) == Tied(s, v) {
        InsertTied(s[0], t, v);
      }
    }
  }

  /** The scan agrees with the calculator's rule: the key of the first entry of
      ANY stable descending sort of the entries is the main category, and one
      such sort exists. */
  lemma MainCategoryIsSortHead(b: Breakdown, r: seq<Entry>)
    requires IsStableDescendingSortOf(r, Entries(b))
    ensures r != [] && r[0].key == MainCategory(b)
    ensures InsertionSort(Entries(b))[0].key == MainCategory(b)
  {
    var s := Entries(b);
    var k := ArgMax(s);
    StableSortHead(s, r, k);
    InsertionSortIsStable(s);
    StableSortHead(s, InsertionSort(s), k);
  }

  /** Examples: electricity leads {10, 50, 5, 1}; the tie {10, 10, 0, 0}
      goes to water, declared first. */
  lemma MainCategoryExamples()
    ensures MainCategory(Breakdown(10.0, 50.0, 5.0, 1.0)) == Electricity
    ensures MainCategory(Breakdown(10.0, 10.0, 0.0, 0.0)) == Water
  {
    MainCategoryUnique(Breakdown(10.0, 50.0, 5.0, 1.0), Electricity);
    MainCategoryUnique(Breakdown(10.0, 10.0, 0.0, 0.0), Water);
  }
}
