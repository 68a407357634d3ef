/** The tables of one zone as values: the entry table, the list heads, and the lists they thread through
    it.  `ZoneHeap` updates the tables in place; the lemmas here say what each update means for the
    lists and for the view. */
module ZoneTables {
  import opened Dyadic
  import opened Tiling
  import opened ZoneView

  /** A decoded entry word.  Links are unit numbers shifted by one, so that 0 ends a list. */
  datatype Entry = Entry(alloc: bool, level: nat, next: nat)

  // Lists are written bottom first: a push appends.

  function Top(list: seq<nat>): nat { if list == [] then 0 else list[|list| - 1] + 1 }

  /** The link the `i`-th element carries: to the one below it. */
  function Link(list: seq<nat>, i: nat): nat
    requires i < |list|
  {
    if i == 0 then 0 else list[i - 1] + 1
  }

  function Members(list: seq<nat>): set<nat> { set u | u in list }

  ghost predicate OnList(e: seq<Entry>, list: seq<nat>, i: nat, j: nat, home: map<nat, (nat, nat)>)
    requires i < |list|
  {
    var u := list[i];
    0 < u && u + 1 < |e| && e[u + 1].next == Link(list, i) && u in home && home[u] == (j, i)
  }

  /** Every head starts the chain of its list, and `home` locates each listed unit, so that no unit is
      listed twice. */
  ghost predicate Linked(e: seq<Entry>, heads: seq<nat>, lists: seq<seq<nat>>, home: map<nat, (nat, nat)>) {
    && |heads| == |lists|
    && (forall j :: 0 <= j < |lists| ==> heads[j] == Top(lists[j]))
    && (forall j, i :: 0 <= j < |lists| && 0 <= i < |lists[j]| ==> OnList(e, lists[j], i, j, home))
  }

  predicate Unlisted(lists: seq<seq<nat>>, u: nat) { forall j :: 0 <= j < |lists| ==> u !in lists[j] }

  /** The tables after `push(u)` on list `j`. */
  lemma PushLinked(e: seq<Entry>, heads: seq<nat>, lists: seq<seq<nat>>, home: map<nat, (nat, nat)>, j: nat, u: nat)
    requires Linked(e, heads, lists, home) && j < |lists|
    requires 0 < u && u + 1 < |e| && Unlisted(lists, u)
    ensures Linked(e[u + 1 := e[u + 1].(next := heads[j])], heads[j := u + 1], lists[j := lists[j] + [u]],
                   home[u := (j, |lists[j]|)])
    ensures Members(lists[j] + [u]) == Members(lists[j]) + {u}
  {
    var e', lists' := e[u + 1 := e[u + 1].(next := heads[j])], lists[j := lists[j] + [u]];
    var home' := home[u := (j, |lists[j]|)];
    forall k, i | 0 <= k < |lists'| && 0 <= i < |lists'[k]| ensures OnList(e', lists'[k], i, k, home') {
      if i < |lists[k]| {
        assert OnList(e, lists[k], i, k, home);
        assert lists[k][i] != u;
      }
    }
  }

  /** The tables after a `pop` of the nonempty list `j`. */
  lemma PopLinked(e: seq<Entry>, heads: seq<nat>, lists: seq<seq<nat>>, home: map<nat, (nat, nat)>, j: nat)
    requires Linked(e, heads, lists, home) && j < |lists| && heads[j] != 0
    ensures |lists[j]| > 0 && heads[j] < |e| && heads[j] - 1 == lists[j][|lists[j]| - 1]
    ensures 0 < heads[j] - 1
    ensures var lists' := lists[j := lists[j][..|lists[j]| - 1]];
            Linked(e, heads[j := e[heads[j]].next], lists', home) && Unlisted(lists', heads[j] - 1)
    ensures Members(lists[j][..|lists[j]| - 1]) == Members(lists[j]) - {heads[j] - 1}
  {
    var n := |lists[j]| - 1;
    var u, rest := lists[j][n], lists[j][..n];
    var lists' := lists[j := rest];
    assert OnList(e, lists[j], n, j, home);
    forall k, i | 0 <= k < |lists'| && 0 <= i < |lists'[k]|
      ensures OnList(e, lists'[k], i, k, home) && lists'[k][i] != u
    {
      assert OnList(e, lists[k], i, k, home);
    }
    assert lists[j] == rest + [u];
  }

  /** An unlisted entry can be rewritten. */
  lemma EntryLinked(e: seq<Entry>, heads: seq<nat>, lists: seq<seq<nat>>, home: map<nat, (nat, nat)>, u: nat,
          entry: Entry)
    requires Linked(e, heads, lists, home) && u + 1 < |e| && Unlisted(lists, u)
    ensures Linked(e[u + 1 := entry], heads, lists, home)
  {
    var e' := e[u + 1 := entry];
    forall k, i | 0 <= k < |lists| && 0 <= i < |lists[k]| ensures OnList(e', lists[k], i, k, home) {
      assert OnList(e, lists[k], i, k, home) && lists[k][i] != u;
    }
  }

  /** A head can be zeroed: its list is dropped. */
  lemma DropLinked(e: seq<Entry>, heads: seq<nat>, lists: seq<seq<nat>>, home: map<nat, (nat, nat)>, j: nat)
    requires Linked(e, heads, lists, home) && j < |lists|
    ensures Linked(e, heads[j := 0], lists[j := []], home)
  {
    var lists' := lists[j := []];
    forall k, i | 0 <= k < |lists'| && 0 <= i < |lists'[k]| ensures OnList(e, lists'[k], i, k, home) {
      assert OnList(e, lists[k], i, k, home);
    }
  }

  // ---------------------------------------------------------------- view

  predicate IsUsed(e: seq<Entry>, u: nat)
    requires u + 1 < |e|
  {
    e[u + 1].alloc
  }

  ghost function UsedMap(e: seq<Entry>): map<nat, nat> {
    map u | 0 <= u < |e| - 1 && IsUsed(e, u) :: e[u + 1].level
  }

  ghost function FreeSets(lists: seq<seq<nat>>, top: nat): seq<set<nat>>
    requires top < |lists|
  {
    seq(top + 1, l requires 0 <= l <= top => Members(lists[l]))
  }

  ghost function ViewOf(top: nat, e: seq<Entry>, lists: seq<seq<nat>>): View
    requires top < |lists|
  {
    View(top, UsedMap(e), FreeSets(lists, top))
  }

  lemma RelinkView(top: nat, e: seq<Entry>, lists: seq<seq<nat>>, k: nat, next: nat)
    requires top < |lists| && k < |e|
    ensures UsedMap(e[k := e[k].(next := next)]) == UsedMap(e)
  {}

  lemma MarkView(e: seq<Entry>, u: nat, l: nat)
    requires u + 1 < |e|
    ensures UsedMap(e[u + 1 := Entry(true, l, 0)]) == UsedMap(e)[u := l]
    ensures UsedMap(e[u + 1 := Entry(false, l, 0)]) == UsedMap(e) - {u}
  {}

  lemma FreeSetsUpdate(lists: seq<seq<nat>>, top: nat, j: nat, list: seq<nat>)
    requires top < |lists| && j < |lists|
    ensures FreeSets(lists[j := list], top)
            == if j <= top then FreeSets(lists, top)[j := Members(list)] else FreeSets(lists, top)
  {}
}
