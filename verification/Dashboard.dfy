/** Generating dashboards from alerts: panel ids, grouping and grid layout. */
module Dashboard {
  import opened Text
  import opened Sorting

  datatype Alert = Alert(name: string, runbook: string)

  /** A stat panel for an alert, or a row marker. */
  datatype Panel = Panel(id: nat, isRow: bool, title: string, x: nat, y: nat, w: nat, h: nat)

  function Names(alerts: seq<Alert>): (ns: seq<string>)
    ensures |ns| == |alerts| && forall i :: 0 <= i < |ns| ==> ns[i] == alerts[i].name
  {
    seq(|alerts|, i requires 0 <= i < |alerts| => alerts[i].name)
  }

  predicate Distinct(ns: seq<string>) {
    forall i, j :: 0 <= i < j < |ns| ==> ns[i] != ns[j]
  }

  // ---------------------------------------------------------------------
  // Sorting names
  // ---------------------------------------------------------------------

  predicate Increasing(ns: seq<string>) {
    forall i, j :: 0 <= i < j < |ns| ==> Less(ns[i], ns[j])
  }

  /** Names sort by themselves. */
  function Itself(n: string): string {
    n
  }

  function SortNames(ns: seq<string>): seq<string> {
    SortBy(ns, Itself)
  }

  lemma SortNamesSorts(ns: seq<string>)
    ensures multiset(SortNames(ns)) == multiset(ns) && Ordered(SortNames(ns), Itself)
    ensures Distinct(ns) ==> Increasing(SortNames(ns))
  {
    hide Less, SortBy;
    SortByPermutes(ns, Itself);
    SortByOrders(ns, Itself);
    if Distinct(ns) {
      assert DistinctKeys(ns, Itself);
      SortByIsStrict(ns, Itself);
      StrictIsIncreasing(SortNames(ns));
    }
  }

  lemma StrictIsIncreasing(ns: seq<string>)
    requires StrictlyOrdered(ns, Itself)
    ensures Increasing(ns)
  {
    hide Less;
    forall i, j | 0 <= i < j < |ns| ensures Less(ns[i], ns[j]) {
      assert Less(Itself(ns[i]), Itself(ns[j]));
    }
  }

  // ---------------------------------------------------------------------
  // Panel ids
  // ---------------------------------------------------------------------

  /** The names that sort before `n`. */
  function Before(ns: seq<string>, n: string): set<string> {
    set x | x in ns && Less(x, n)
  }

  function Members(ns: seq<string>): set<string> {
    set x | x in ns
  }

  lemma {:induction false} SizeOfPrefix(ns: seq<string>, i: nat)
    requires Distinct(ns) && i <= |ns|
    ensures |Members(ns[..i])| == i
  {
    if i > 0 {
      SizeOfPrefix(ns, i - 1);
      assert ns[..i] == ns[..i - 1] + [ns[i - 1]];
      assert Members(ns[..i]) == Members(ns[..i - 1]) + {ns[i - 1]};
      assert ns[i - 1] !in ns[..i - 1];
    }
  }

  /** In a sorted list, the position of a name is the number of names before it. */
  lemma PositionIsRank(ns: seq<string>, i: nat)
    requires Increasing(ns) && i < |ns|
    ensures |Before(ns, ns[i])| == i
  {
    hide Less;
    KeysDistinct(ns);
    SizeOfPrefix(ns, i);
    forall x ensures x in Before(ns, ns[i]) <==> x in ns[..i] {
      if x in Before(ns, ns[i]) {
        var k :| 0 <= k < |ns| && ns[k] == x;
        if k >= i {
          if k > i {
            assert Less(ns[i], ns[k]);
            LessTransitive(ns[i], ns[k], ns[i]);
          }
          LessIrreflexive(ns[i]);
        }
      }
    }
    assert Before(ns, ns[i]) == Members(ns[..i]);
  }

  /** How many of the names do not sort after `n`. */
  function UpTo(ns: seq<string>, n: string): nat {
    if ns == [] then 0 else UpTo(ns[..|ns| - 1], n) + (if Less(n, ns[|ns| - 1]) then 0 else 1)
  }

  /** A name's id: how many names, repetitions included, do not sort after it. */
  function PanelIds(ns: seq<string>): map<string, nat> {
    map n | n in ns :: UpTo(ns, n)
  }

  lemma {:induction false} UpToAppend(a: seq<string>, b: seq<string>, n: string)
    ensures UpTo(a + b, n) == UpTo(a, n) + UpTo(b, n)
  {
    if b == [] {
      assert a + b == a;
    } else {
      UpToAppend(a, b[..|b| - 1], n);
      assert (a + b)[..|a + b| - 1] == a + b[..|b| - 1];
    }
  }

  /** Taking one name out. */
  lemma UpToWithout(ns: seq<string>, i: nat, n: string)
    requires i < |ns|
    ensures UpTo(ns, n) == UpTo(ns[..i] + ns[i + 1..], n) + (if Less(n, ns[i]) then 0 else 1)
  {
    UpToAppend(ns[..i], ns[i + 1..], n);
    UpToAppend(ns[..i + 1], ns[i + 1..], n);
    assert ns == ns[..i + 1] + ns[i + 1..] && ns[..i + 1][..i] == ns[..i];
  }

  lemma {:induction false} UpToPermutation(a: seq<string>, b: seq<string>, n: string)
    requires multiset(a) == multiset(b)
    ensures UpTo(a, n) == UpTo(b, n)
    decreases |a|
  {
    hide Less;
    if a == [] {
      assert |multiset(b)| == 0;
      assert b == [];
    } else {
      hide UpTo;
      assert a[0] in multiset(b);
      var i :| 0 <= i < |b| && b[i] == a[0];
      MultisetWithout(a, 0);
      MultisetWithout(b, i);
      UpToWithout(a, 0, n);
      UpToWithout(b, i, n);
      UpToPermutation(a[..0] + a[1..], b[..i] + b[i + 1..], n);
    }
  }

  lemma MultisetWithout(ns: seq<string>, i: nat)
    requires i < |ns|
    ensures multiset(ns[..i] + ns[i + 1..]) == multiset(ns) - multiset{ns[i]}
  {
    assert ns == ns[..i] + [ns[i]] + ns[i + 1..];
  }

  /** Numbers a sorted list from one; a repeated name keeps its last number. */
  method Enumerate(sorted: seq<string>) returns (ids: map<string, nat>)
    ensures forall n :: n in ids <==> n in sorted
    ensures forall n :: n in ids ==> 1 <= ids[n] <= |sorted| && sorted[ids[n] - 1] == n
    ensures forall n, k :: n in ids && ids[n] <= k < |sorted| ==> sorted[k] != n
    ensures sorted != [] ==> |sorted| in ids.Values
  {
    ids := map[];
    for i := 0 to |sorted|
      invariant forall n :: n in ids <==> n in sorted[..i]
      invariant forall n :: n in ids ==> 1 <= ids[n] <= i && sorted[ids[n] - 1] == n
      invariant forall n, k :: n in ids && ids[n] <= k < i ==> sorted[k] != n
      invariant i > 0 ==> sorted[i - 1] in ids && ids[sorted[i - 1]] == i
    {
      assert sorted[..i + 1] == sorted[..i] + [sorted[i]];
      ids := ids[sorted[i] := i + 1];
    }
    assert sorted[..|sorted|] == sorted;
  }

  /** In a sorted list the last position of a name counts the names up to it. */
  lemma LastPositionCounts(ns: seq<string>, k: nat)
    requires Ordered(ns, Itself) && k < |ns| && forall j :: k < j < |ns| ==> ns[j] != ns[k]
    ensures UpTo(ns, ns[k]) == k + 1
  {
    hide Less, UpTo;
    var head, tail := ns[..k + 1], ns[k + 1..];
    forall i | 0 <= i < |head| ensures !Less(ns[k], head[i]) {
      LessIrreflexive(ns[k]);
      assert i < k ==> !Less(Itself(ns[k]), Itself(ns[i]));
    }
    forall j | 0 <= j < |tail| ensures Less(ns[k], tail[j]) {
      assert tail[j] == ns[k + 1 + j];
      assert !Less(Itself(tail[j]), Itself(ns[k]));
      LessConnected(tail[j], ns[k]);
    }
    AllUpTo(head, ns[k]);
    NoneUpTo(tail, ns[k]);
    UpToAppend(head, tail, ns[k]);
    assert ns == head + tail;
  }

  lemma {:induction false} AllUpTo(ns: seq<string>, n: string)
    requires forall i :: 0 <= i < |ns| ==> !Less(n, ns[i])
    ensures UpTo(ns, n) == |ns|
  {
    hide Less;
    if ns != [] {
      AllUpTo(ns[..|ns| - 1], n);
    }
  }

  lemma {:induction false} NoneUpTo(ns: seq<string>, n: string)
    requires forall i :: 0 <= i < |ns| ==> Less(n, ns[i])
    ensures UpTo(ns, n) == 0
  {
    hide Less;
    if ns != [] {
      NoneUpTo(ns[..|ns| - 1], n);
    }
  }

  /** Panel ids by alphabetical position. */
  method StablePanelIds(alerts: seq<Alert>) returns (ids: map<string, nat>)
    ensures ids == PanelIds(Names(alerts))
    ensures forall n :: n in ids <==> n in Names(alerts)
    ensures forall n :: n in ids ==> 1 <= ids[n] <= |alerts|
    ensures alerts != [] ==> |alerts| in ids.Values
    ensures forall m, n :: m in ids && n in ids && ids[m] == ids[n] ==> m == n
    ensures Distinct(Names(alerts)) ==> forall n :: n in ids ==> ids[n] == 1 + |Before(Names(alerts), n)|
  {
    hide Less, Before, SortNames, Distinct, Increasing, UpTo, Ordered;
    var names := Names(alerts);
    var sorted := SortNames(names);
    SortNamesSorts(names);
    assert |multiset(sorted)| == |multiset(names)|;
    ids := Enumerate(sorted);
    SameMembers(sorted, names);
    forall n | n in ids ensures ids[n] == UpTo(names, n) {
      LastPositionCounts(sorted, ids[n] - 1);
      UpToPermutation(sorted, names, n);
    }
    if Distinct(names) {
      forall n | n in ids ensures ids[n] == 1 + |Before(names, n)| {
        PositionIsRank(sorted, ids[n] - 1);
        assert Before(sorted, n) == Before(names, n) by {
          BeforeOfSame(sorted, names, n);
        }
      }
    }
  }

  lemma BeforeOfSame(a: seq<string>, b: seq<string>, n: string)
    requires forall x :: x in a <==> x in b
    ensures Before(a, n) == Before(b, n)
  {
  }

  lemma SameMembers(a: seq<string>, b: seq<string>)
    requires multiset(a) == multiset(b)
    ensures forall x :: x in a <==> x in b
  {
    forall x ensures x in a <==> x in b {
      assert x in multiset(a) <==> x in multiset(b);
    }
  }

  /** Ids do not depend on the order of the alerts in the file, repeated names
      included. */
  lemma IdsIgnoreFileOrder(a: seq<string>, b: seq<string>)
    requires multiset(a) == multiset(b)
    ensures PanelIds(a) == PanelIds(b)
  {
    hide UpTo;
    SameMembers(a, b);
    forall n | n in a ensures UpTo(a, n) == UpTo(b, n) {
      UpToPermutation(a, b, n);
    }
  }

  /** A name added anywhere in the file moves up by one exactly the ids of the names
      that sort at or after it; the others keep theirs. */
  lemma NewNameShifts(ns: seq<string>, i: nat, added: string)
    requires i <= |ns|
    ensures var more := PanelIds(Inserted(ns, i, added));
            && more.Keys == PanelIds(ns).Keys + {added}
            && (forall n :: n in ns ==> more[n] == PanelIds(ns)[n] + (if Less(n, added) then 0 else 1))
            && more[added] == UpTo(ns, added) + 1
  {
    hide Less, UpTo;
    InsertedMembers(ns, i, added);
    forall n ensures UpTo(Inserted(ns, i, added), n) == UpTo(ns, n) + (if Less(n, added) then 0 else 1) {
      InsertedCount(ns, i, added, n);
    }
    LessIrreflexive(added);
    hide Inserted;
  }

  function Inserted(ns: seq<string>, i: nat, added: string): seq<string>
    requires i <= |ns|
  {
    ns[..i] + [added] + ns[i..]
  }

  lemma InsertedMembers(ns: seq<string>, i: nat, added: string)
    requires i <= |ns|
    ensures forall n :: n in Inserted(ns, i, added) <==> n in ns || n == added
  {
    assert ns == ns[..i] + ns[i..];
  }

  lemma InsertedCount(ns: seq<string>, i: nat, added: string, n: string)
    requires i <= |ns|
    ensures UpTo(Inserted(ns, i, added), n) == UpTo(ns, n) + (if Less(n, added) then 0 else 1)
  {
    hide Less, UpTo;
    var larger := Inserted(ns, i, added);
    assert larger[..i] + larger[i + 1..] == ns && larger[i] == added;
    UpToWithout(larger, i, n);
  }

  // ---------------------------------------------------------------------
  // Grouping
  // ---------------------------------------------------------------------

  function OfRunbook(alerts: seq<Alert>, r: string): seq<Alert> {
    if alerts == [] then []
    else OfRunbook(alerts[..|alerts| - 1], r) + (if alerts[|alerts| - 1].runbook == r then [alerts[|alerts| - 1]] else [])
  }

  function OfOthers(alerts: seq<Alert>, r: string): seq<Alert> {
    if alerts == [] then []
    else OfOthers(alerts[..|alerts| - 1], r) + (if alerts[|alerts| - 1].runbook == r then [] else [alerts[|alerts| - 1]])
  }

  lemma OfRunbookStep(alerts: seq<Alert>, k: nat, r: string)
    requires k < |alerts|
    ensures OfRunbook(alerts[..k + 1], r)
         == OfRunbook(alerts[..k], r) + (if alerts[k].runbook == r then [alerts[k]] else [])
  {
    assert alerts[..k + 1][..k] == alerts[..k];
  }

  /** Picking keeps the order of the file and picks exactly the runbook's alerts. */
  lemma {:induction false} OfRunbookAppend(a: seq<Alert>, b: seq<Alert>, r: string)
    ensures OfRunbook(a + b, r) == OfRunbook(a, r) + OfRunbook(b, r)
    ensures |b| == 1 ==> OfRunbook(b, r) == if b[0].runbook == r then b else []
  {
    if b == [] {
      assert a + b == a;
    } else {
      var n := |b| - 1;
      OfRunbookAppend(a, b[..n], r);
      assert (a + b)[..|a + b| - 1] == a + b[..n];
    }
  }

  predicate Mentions(alerts: seq<Alert>, r: string) {
    exists i :: 0 <= i < |alerts| && alerts[i].runbook == r
  }

  lemma MentionsStep(alerts: seq<Alert>, k: nat, r: string)
    requires k < |alerts|
    ensures Mentions(alerts[..k + 1], r) <==> Mentions(alerts[..k], r) || alerts[k].runbook == r
  {
    assert forall i :: 0 <= i < k ==> alerts[..k + 1][i] == alerts[..k][i];
    assert alerts[..k + 1][k] == alerts[k];
  }

  /** Each mentioned runbook has its alerts, in file order. */
  ghost predicate Groups(grouped: map<string, seq<Alert>>, alerts: seq<Alert>) {
    forall r :: (r in grouped <==> Mentions(alerts, r)) && OfRunbook(alerts, r) == if r in grouped then grouped[r] else []
  }

  lemma GroupsStep(grouped: map<string, seq<Alert>>, alerts: seq<Alert>, k: nat)
    requires k < |alerts| && Groups(grouped, alerts[..k])
    ensures var r := alerts[k].runbook;
            Groups(grouped[r := (if r in grouped then grouped[r] else []) + [alerts[k]]], alerts[..k + 1])
  {
    hide OfRunbook, Mentions;
    var b := alerts[k].runbook;
    var next := grouped[b := (if b in grouped then grouped[b] else []) + [alerts[k]]];
    forall r ensures (r in next <==> Mentions(alerts[..k + 1], r))
                     && OfRunbook(alerts[..k + 1], r) == if r in next then next[r] else [] {
      OfRunbookStep(alerts, k, r);
      MentionsStep(alerts, k, r);
      assert (r in grouped <==> Mentions(alerts[..k], r)) && OfRunbook(alerts[..k], r) == if r in grouped then grouped[r] else [];
    }
  }

  method GroupByRunbook(alerts: seq<Alert>) returns (grouped: map<string, seq<Alert>>)
    ensures forall r :: r in grouped <==> Mentions(alerts, r)
    ensures forall r :: r in grouped ==> grouped[r] == OfRunbook(alerts, r)
  {
    grouped := map[];
    for k := 0 to |alerts|
      invariant Groups(grouped, alerts[..k])
    {
      hide Groups;
      GroupsStep(grouped, alerts, k);
      var a := alerts[k];
      grouped := grouped[a.runbook := (if a.runbook in grouped then grouped[a.runbook] else []) + [a]];
    }
    assert alerts[..|alerts|] == alerts;
  }

  lemma InsertKey(k: string, keys: seq<string>)
    requires Increasing(keys) && k !in keys
    ensures Increasing(InsertBy(k, keys, Itself))
    ensures forall x :: x in InsertBy(k, keys, Itself) <==> x in keys || x == k
  {
    hide Less, InsertBy;
    KeysDistinct(keys);
    IncreasingIsOrdered(keys);
    InsertByOrders(k, keys, Itself);
    InsertByKeepsDistinct(k, keys, Itself);
    OrderedIsStrict(InsertBy(k, keys, Itself), Itself);
    StrictIsIncreasing(InsertBy(k, keys, Itself));
    InsertByPermutes(k, keys, Itself);
    forall x ensures x in InsertBy(k, keys, Itself) <==> x in keys || x == k {
      assert x in multiset(InsertBy(k, keys, Itself)) <==> x in multiset(keys) || x == k;
    }
  }

  lemma IncreasingIsOrdered(ns: seq<string>)
    requires Increasing(ns)
    ensures Ordered(ns, Itself)
  {
    hide Less;
    forall i, j | 0 <= i < j < |ns| ensures !Less(Itself(ns[j]), Itself(ns[i])) {
      assert Less(ns[i], ns[j]);
      if Less(ns[j], ns[i]) {
        LessTransitive(ns[i], ns[j], ns[i]);
        LessIrreflexive(ns[i]);
      }
    }
  }

  method SortedKeys(grouped: map<string, seq<Alert>>) returns (keys: seq<string>)
    ensures Increasing(keys) && forall k :: k in keys <==> k in grouped
  {
    hide Less;
    keys := [];
    var left := grouped.Keys;
    while left != {}
      invariant left <= grouped.Keys && Increasing(keys)
      invariant forall k :: k in keys <==> k in grouped && k !in left
      decreases |left|
    {
      var k :| k in left;
      InsertKey(k, keys);
      keys := InsertBy(k, keys, Itself);
      left := left - {k};
    }
  }

  // ---------------------------------------------------------------------
  // Layout
  // ---------------------------------------------------------------------

  /** The i-th panel of a block: four to a row, six columns by six rows each. */
  function GridPanel(id: nat, title: string, i: nat, start: nat): Panel {
    Panel(id, false, title, i % 4 * 6, start + i / 4 * 6, 6, 6)
  }

  function Height(n: nat): nat {
    (n + 3) / 4 * 6
  }

  function Grid(ids: map<string, nat>, alerts: seq<Alert>, start: nat): (ps: seq<Panel>)
    requires forall i :: 0 <= i < |alerts| ==> alerts[i].name in ids
    ensures |ps| == |alerts|
    ensures forall i :: 0 <= i < |alerts| ==> ps[i] == GridPanel(ids[alerts[i].name], alerts[i].name, i, start)
  {
    seq(|alerts|, i requires 0 <= i < |alerts| => GridPanel(ids[alerts[i].name], alerts[i].name, i, start))
  }

  method LayoutPanels(alerts: seq<Alert>, ids: map<string, nat>, start: nat) returns (panels: seq<Panel>, next: nat)
    requires forall i :: 0 <= i < |alerts| ==> alerts[i].name in ids
    ensures panels == Grid(ids, alerts, start) && next == start + Height(|alerts|)
  {
    panels := [];
    var y := start;
    for i := 0 to |alerts|
      invariant |panels| == i && y == start + (if i == 0 then 0 else (i - 1) / 4 * 6)
      invariant forall k :: 0 <= k < i ==> panels[k] == GridPanel(ids[alerts[k].name], alerts[k].name, k, start)
    {
      var col := i % 4;
      if col == 0 && i > 0 {
        y := y + 6;
      }
      panels := panels + [Panel(ids[alerts[i].name], false, alerts[i].name, col * 6, y, 6, 6)];
    }
    if |alerts| > 0 {
      y := y + 6;
    }
    next := y;
  }

  function RowPanel(id: nat, title: string, y: nat): Panel {
    Panel(id, true, title, 0, y, 24, 1)
  }

  predicate Covered(ids: map<string, nat>, grouped: map<string, seq<Alert>>, keys: seq<string>) {
    && (forall k :: 0 <= k < |keys| ==> keys[k] in grouped)
    && (forall k, i :: 0 <= k < |keys| && keys[k] in grouped && 0 <= i < |grouped[keys[k]]| ==> grouped[keys[k]][i].name in ids)
  }

  /** The sections of the master dashboard, one per runbook, from row `y` on. */
  function Sections(ids: map<string, nat>, grouped: map<string, seq<Alert>>, keys: seq<string>, rowId: nat, y: nat): seq<Panel>
    requires Covered(ids, grouped, keys)
    decreases |keys|
  {
    if keys == [] then []
    else
      var alerts := grouped[keys[0]];
      [RowPanel(rowId, keys[0], y)] + Grid(ids, alerts, y + 1)
      + Sections(ids, grouped, keys[1..], rowId + 1, y + 1 + Height(|alerts|))
  }

  /** A section is a full-width row with the runbook's name, and its panels from the
      next row on. */
  lemma SectionBegins(ids: map<string, nat>, grouped: map<string, seq<Alert>>, keys: seq<string>, rowId: nat, y: nat)
    requires Covered(ids, grouped, keys) && keys != []
    ensures var ps := Sections(ids, grouped, keys, rowId, y);
            && |ps| > |grouped[keys[0]]| && ps[0].isRow && ps[0].title == keys[0] && ps[0].id == rowId
            && ps[0].x == 0 && ps[0].y == y && ps[0].w == 24 && ps[0].h == 1
            && ps[1..1 + |grouped[keys[0]]|] == Grid(ids, grouped[keys[0]], y + 1)
  {
  }

  predicate Overlap(p: Panel, q: Panel) {
    p.x < q.x + q.w && q.x < p.x + p.w && p.y < q.y + q.h && q.y < p.y + p.h
  }

  predicate NoOverlaps(ps: seq<Panel>) {
    forall i, j :: 0 <= i < j < |ps| ==> !Overlap(ps[i], ps[j])
  }

  /** Every panel lies in the 24 columns and in rows `lo` to `hi`. */
  predicate Within(ps: seq<Panel>, lo: nat, hi: nat) {
    forall i :: 0 <= i < |ps| ==> ps[i].x + ps[i].w <= 24 && lo <= ps[i].y && ps[i].y + ps[i].h <= hi
  }

  lemma CellsDiffer(i: nat, j: nat)
    requires i < j
    ensures i % 4 != j % 4 || i / 4 < j / 4
  {
  }

  lemma GridIsTidy(ids: map<string, nat>, alerts: seq<Alert>, start: nat)
    requires forall i :: 0 <= i < |alerts| ==> alerts[i].name in ids
    ensures NoOverlaps(Grid(ids, alerts, start)) && Within(Grid(ids, alerts, start), start, start + Height(|alerts|))
  {
    var ps := Grid(ids, alerts, start);
    forall i, j | 0 <= i < j < |ps| ensures !Overlap(ps[i], ps[j]) {
      CellsDiffer(i, j);
    }
    forall i | 0 <= i < |ps| ensures start <= ps[i].y && ps[i].y + 6 <= start + Height(|alerts|) {
      assert i / 4 + 1 <= (|alerts| + 3) / 4;
    }
  }

  /** Four panels fill a row of 24 columns, and the next four come six rows below. */
  lemma GridIsFourAcross(ids: map<string, nat>, alerts: seq<Alert>, start: nat, i: nat)
    requires (forall k :: 0 <= k < |alerts| ==> alerts[k].name in ids) && i < |alerts|
    ensures var ps := Grid(ids, alerts, start);
            && ps[i].w == 6 && ps[i].h == 6 && ps[i].title == alerts[i].name && ps[i].id == ids[alerts[i].name] && !ps[i].isRow
            && (i == 0 ==> ps[i].x == 0 && ps[i].y == start)
            && (i + 1 < |alerts| && ps[i].x < 18 ==> ps[i + 1].x == ps[i].x + 6 && ps[i + 1].y == ps[i].y)
            && (i + 1 < |alerts| && ps[i].x >= 18 ==> ps[i].x == 18 && ps[i + 1].x == 0 && ps[i + 1].y == ps[i].y + 6)
  {
    if i % 4 < 3 {
      assert (i + 1) % 4 == i % 4 + 1 && (i + 1) / 4 == i / 4;
    } else {
      assert (i + 1) % 4 == 0 && (i + 1) / 4 == i / 4 + 1;
    }
  }

  /** Two tidy lists one above the other stay tidy together. */
  lemma StackIsTidy(a: seq<Panel>, b: seq<Panel>, lo: nat, mid: nat, hi: nat)
    requires lo <= mid <= hi && NoOverlaps(a) && NoOverlaps(b) && Within(a, lo, mid) && Within(b, mid, hi)
    ensures NoOverlaps(a + b) && Within(a + b, lo, hi)
  {
    forall i, j | 0 <= i < j < |a + b| ensures !Overlap((a + b)[i], (a + b)[j]) {
      if i < |a| && j >= |a| {
        assert (a + b)[i].y + (a + b)[i].h <= mid <= (a + b)[j].y;
      }
    }
  }

  function Bottom(grouped: map<string, seq<Alert>>, keys: seq<string>, y: nat): (b: nat)
    requires forall k :: 0 <= k < |keys| ==> keys[k] in grouped
    ensures b >= y
  {
    if keys == [] then y else Bottom(grouped, keys[1..], y + 1 + Height(|grouped[keys[0]]|))
  }

  lemma {:induction false} SectionsAreTidy(ids: map<string, nat>, grouped: map<string, seq<Alert>>, keys: seq<string>,
                                           rowId: nat, y: nat)
    requires Covered(ids, grouped, keys)
    ensures NoOverlaps(Sections(ids, grouped, keys, rowId, y))
    ensures Within(Sections(ids, grouped, keys, rowId, y), y, Bottom(grouped, keys, y))
    decreases |keys|
  {
    hide NoOverlaps, Within, Grid, Height;
    if keys == [] {
      NothingIsTidy(y);
    } else {
      var alerts := grouped[keys[0]];
      var next := y + 1 + Height(|alerts|);
      GridIsTidy(ids, alerts, y + 1);
      RowIsTidy(rowId, keys[0], y);
      StackIsTidy([RowPanel(rowId, keys[0], y)], Grid(ids, alerts, y + 1), y, y + 1, next);
      SectionsAreTidy(ids, grouped, keys[1..], rowId + 1, next);
      StackIsTidy([RowPanel(rowId, keys[0], y)] + Grid(ids, alerts, y + 1),
                  Sections(ids, grouped, keys[1..], rowId + 1, next), y, next, Bottom(grouped, keys[1..], next));
    }
  }

  lemma NothingIsTidy(y: nat)
    ensures NoOverlaps([]) && Within([], y, y)
  {
  }

  lemma RowIsTidy(id: nat, title: string, y: nat)
    ensures NoOverlaps([RowPanel(id, title, y)]) && Within([RowPanel(id, title, y)], y, y + 1)
  {
  }

  // ---------------------------------------------------------------------
  // Each alert once, each id once
  // ---------------------------------------------------------------------

  /** The alerts shown, in order. */
  function Titles(ps: seq<Panel>): seq<string> {
    if ps == [] then [] else Titles(ps[..|ps| - 1]) + (if ps[|ps| - 1].isRow then [] else [ps[|ps| - 1].title])
  }

  lemma {:induction false} TitlesAppend(a: seq<Panel>, b: seq<Panel>)
    ensures Titles(a + b) == Titles(a) + Titles(b)
  {
    if b == [] {
      assert a + b == a;
    } else {
      var n := |b| - 1;
      TitlesAppend(a, b[..n]);
      assert (a + b)[..|a + b| - 1] == a + b[..n];
      var last := if b[n].isRow then [] else [b[n].title];
      assert Titles(a) + Titles(b[..n]) + last == Titles(a) + (Titles(b[..n]) + last);
    }
  }

  lemma {:induction false} TitlesOfGrid(ids: map<string, nat>, alerts: seq<Alert>, start: nat)
    requires forall i :: 0 <= i < |alerts| ==> alerts[i].name in ids
    ensures Titles(Grid(ids, alerts, start)) == Names(alerts)
    decreases |alerts|
  {
    if alerts != [] {
      var n := |alerts| - 1;
      TitlesOfGrid(ids, alerts[..n], start);
      assert Grid(ids, alerts, start)[..n] == Grid(ids, alerts[..n], start);
      assert Names(alerts) == Names(alerts[..n]) + [alerts[n].name];
    }
  }

  function AllOf(grouped: map<string, seq<Alert>>, keys: seq<string>): seq<Alert>
    requires forall k :: 0 <= k < |keys| ==> keys[k] in grouped
  {
    if keys == [] then [] else grouped[keys[0]] + AllOf(grouped, keys[1..])
  }

  lemma TitlesOfSection(ids: map<string, nat>, alerts: seq<Alert>, rowId: nat, title: string, y: nat)
    requires forall i :: 0 <= i < |alerts| ==> alerts[i].name in ids
    ensures Titles([RowPanel(rowId, title, y)] + Grid(ids, alerts, y + 1)) == Names(alerts)
  {
    hide Grid;
    var row := [RowPanel(rowId, title, y)];
    assert Titles(row) == [] by {
      assert row[..0] == [];
    }
    TitlesAppend(row, Grid(ids, alerts, y + 1));
    TitlesOfGrid(ids, alerts, y + 1);
  }

  lemma NamesAppend(a: seq<Alert>, b: seq<Alert>)
    ensures Names(a + b) == Names(a) + Names(b)
  {
  }

  lemma {:induction false} TitlesOfSections(ids: map<string, nat>, grouped: map<string, seq<Alert>>, keys: seq<string>,
                                            rowId: nat, y: nat)
    requires Covered(ids, grouped, keys)
    ensures Titles(Sections(ids, grouped, keys, rowId, y)) == Names(AllOf(grouped, keys))
    decreases |keys|
  {
    if keys != [] {
      hide Grid, Height, Titles, Names, RowPanel;
      assert forall i :: 0 <= i < |grouped[keys[0]]| ==> grouped[keys[0]][i].name in ids;
      var alerts := grouped[keys[0]];
      var next := y + 1 + Height(|alerts|);
      var section := [RowPanel(rowId, keys[0], y)] + Grid(ids, alerts, y + 1);
      var rest := Sections(ids, grouped, keys[1..], rowId + 1, next);
      var others := AllOf(grouped, keys[1..]);
      assert Sections(ids, grouped, keys, rowId, y) == section + rest;
      assert AllOf(grouped, keys) == alerts + others;
      TitlesOfSections(ids, grouped, keys[1..], rowId + 1, next);
      hide Sections, AllOf, Covered;
      TitlesOfSection(ids, alerts, rowId, keys[0], y);
      TitlesAppend(section, rest);
      NamesAppend(alerts, others);
    }
  }

  lemma {:induction false} SplitByRunbook(alerts: seq<Alert>, r: string)
    ensures multiset(OfRunbook(alerts, r)) + multiset(OfOthers(alerts, r)) == multiset(alerts)
  {
    if alerts != [] {
      var n := |alerts| - 1;
      SplitByRunbook(alerts[..n], r);
      assert alerts == alerts[..n] + [alerts[n]];
      SplitStep(OfRunbook(alerts[..n], r), OfOthers(alerts[..n], r), alerts[..n], alerts[n]);
    }
  }

  lemma SplitStep(a: seq<Alert>, b: seq<Alert>, all: seq<Alert>, x: Alert)
    requires multiset(a) + multiset(b) == multiset(all)
    ensures multiset(a + [x]) + multiset(b + []) == multiset(all + [x])
    ensures multiset(a + []) + multiset(b + [x]) == multiset(all + [x])
  {
    assert a + [] == a && b + [] == b;
  }

  lemma {:induction false} OthersAreOthers(alerts: seq<Alert>, r: string)
    ensures forall a :: a in OfOthers(alerts, r) ==> a in alerts && a.runbook != r
  {
    if alerts != [] {
      OthersAreOthers(alerts[..|alerts| - 1], r);
    }
  }

  lemma {:induction false} OthersKeepRunbook(alerts: seq<Alert>, r: string, q: string)
    requires q != r
    ensures OfRunbook(OfOthers(alerts, r), q) == OfRunbook(alerts, q)
  {
    if alerts != [] {
      var n := |alerts| - 1;
      OthersKeepRunbook(alerts[..n], r, q);
      var others := OfOthers(alerts[..n], r);
      if alerts[n].runbook != r {
        assert (others + [alerts[n]])[..|others|] == others;
      } else {
        assert OfOthers(alerts, r) == others;
      }
    }
  }

  function Flatten(alerts: seq<Alert>, keys: seq<string>): seq<Alert> {
    if keys == [] then [] else OfRunbook(alerts, keys[0]) + Flatten(alerts, keys[1..])
  }

  lemma {:induction false} FlattenOthers(alerts: seq<Alert>, r: string, keys: seq<string>)
    requires r !in keys
    ensures Flatten(OfOthers(alerts, r), keys) == Flatten(alerts, keys)
  {
    if keys != [] {
      FlattenOthers(alerts, r, keys[1..]);
      OthersKeepRunbook(alerts, r, keys[0]);
    }
  }

  /** Grouping by distinct keys that cover every runbook is a rearrangement. */
  lemma {:induction false} FlattenPermutes(alerts: seq<Alert>, keys: seq<string>)
    requires Distinct(keys) && forall i :: 0 <= i < |alerts| ==> alerts[i].runbook in keys
    ensures multiset(Flatten(alerts, keys)) == multiset(alerts)
    decreases |keys|
  {
    if keys == [] {
      assert alerts == [];
    } else {
      var others := OfOthers(alerts, keys[0]);
      SplitByRunbook(alerts, keys[0]);
      OthersAreOthers(alerts, keys[0]);
      forall i | 0 <= i < |others| ensures others[i].runbook in keys[1..] {
        assert others[i] in others;
        assert others[i] in alerts;
      }
      assert keys[0] !in keys[1..];
      FlattenPermutes(others, keys[1..]);
      FlattenOthers(alerts, keys[0], keys[1..]);
    }
  }

  lemma {:induction false} AllOfIsFlatten(alerts: seq<Alert>, grouped: map<string, seq<Alert>>, keys: seq<string>)
    requires forall k :: 0 <= k < |keys| ==> keys[k] in grouped && grouped[keys[k]] == OfRunbook(alerts, keys[k])
    ensures AllOf(grouped, keys) == Flatten(alerts, keys)
  {
    if keys != [] {
      AllOfIsFlatten(alerts, grouped, keys[1..]);
    }
  }

  lemma {:induction false} NamesOfPermutation(a: seq<Alert>, b: seq<Alert>)
    requires multiset(a) == multiset(b)
    ensures multiset(Names(a)) == multiset(Names(b))
    decreases |a|
  {
    if a == [] {
      assert |multiset(b)| == 0;
      assert b == [];
    } else {
      assert a[0] in multiset(a);
      var x := a[0];
      var a1 := TakeOut(a, x);
      var b1 := TakeOut(b, x);
      assert multiset(a1) == multiset(a) - multiset{x};
      assert multiset(b1) == multiset(b) - multiset{x};
      NamesOfPermutation(a1, b1);
    }
  }

  lemma TakeOut(a: seq<Alert>, x: Alert) returns (rest: seq<Alert>)
    requires x in multiset(a)
    ensures |rest| < |a| && multiset(a) == multiset(rest) + multiset{x}
    ensures multiset(Names(a)) == multiset(Names(rest)) + multiset{x.name}
  {
    var i :| 0 <= i < |a| && a[i] == x;
    rest := a[..i] + a[i + 1..];
    assert a == a[..i] + [a[i]] + a[i + 1..];
    TakeOutName(a, i);
  }

  lemma TakeOutName(a: seq<Alert>, i: nat)
    requires i < |a|
    ensures multiset(Names(a)) == multiset(Names(a[..i] + a[i + 1..])) + multiset{a[i].name}
  {
    var ns := Names(a);
    assert Names(a[..i] + a[i + 1..]) == ns[..i] + ns[i + 1..];
    hide Names;
    assert ns == ns[..i] + [ns[i]] + ns[i + 1..];
  }

  /** Row markers carry ids from `rowId` up, alerts the ids of their names. */
  predicate Numbered(ps: seq<Panel>, ids: map<string, nat>, rowId: nat) {
    forall i :: 0 <= i < |ps| ==>
      if ps[i].isRow then ps[i].id >= rowId else ps[i].title in ids && ps[i].id == ids[ps[i].title]
  }

  predicate RowIdsDistinct(ps: seq<Panel>) {
    forall i, j :: 0 <= i < j < |ps| && ps[i].isRow && ps[j].isRow ==> ps[i].id != ps[j].id
  }

  lemma {:induction false} SectionsAreNumbered(ids: map<string, nat>, grouped: map<string, seq<Alert>>, keys: seq<string>,
                                               rowId: nat, y: nat)
    requires Covered(ids, grouped, keys)
    ensures Numbered(Sections(ids, grouped, keys, rowId, y), ids, rowId)
    ensures RowIdsDistinct(Sections(ids, grouped, keys, rowId, y))
    decreases |keys|
  {
    if keys != [] {
      var alerts := grouped[keys[0]];
      SectionsAreNumbered(ids, grouped, keys[1..], rowId + 1, y + 1 + Height(|alerts|));
    }
  }

  lemma CountTitles(ps: seq<Panel>, t: string)
    requires ps != []
    ensures var last := ps[|ps| - 1];
            multiset(Titles(ps))[t]
            == multiset(Titles(ps[..|ps| - 1]))[t] + (if !last.isRow && last.title == t then 1 else 0)
  {
  }

  /** A title shown twice is counted twice. */
  lemma {:induction false} ShownTwice(ps: seq<Panel>, i: nat, j: nat)
    requires i < j < |ps| && !ps[i].isRow && !ps[j].isRow && ps[i].title == ps[j].title
    ensures multiset(Titles(ps))[ps[i].title] >= 2
    decreases |ps|
  {
    hide Titles;
    var n := |ps| - 1;
    CountTitles(ps, ps[i].title);
    if j < n {
      ShownTwice(ps[..n], i, j);
    } else {
      ShownOnce(ps[..n], i);
    }
  }

  lemma {:induction false} ShownOnce(ps: seq<Panel>, i: nat)
    requires i < |ps| && !ps[i].isRow
    ensures multiset(Titles(ps))[ps[i].title] >= 1
    decreases |ps|
  {
    hide Titles;
    var n := |ps| - 1;
    CountTitles(ps, ps[i].title);
    if i < n {
      ShownOnce(ps[..n], i);
    }
  }

  lemma {:induction false} DistinctCount(ns: seq<string>, n: string)
    requires Distinct(ns)
    ensures multiset(ns)[n] <= 1
  {
    if ns != [] {
      var k := |ns| - 1;
      DistinctCount(ns[..k], n);
      assert ns == ns[..k] + [ns[k]];
      if ns[k] == n {
        assert n !in ns[..k];
      }
    }
  }

  predicate IdsDistinct(ps: seq<Panel>) {
    forall i, j :: 0 <= i < j < |ps| ==> ps[i].id != ps[j].id
  }

  lemma PanelIdsDistinct(ps: seq<Panel>, ids: map<string, nat>, rowId: nat, names: seq<string>)
    requires Numbered(ps, ids, rowId) && RowIdsDistinct(ps)
    requires forall n :: n in ids ==> ids[n] < rowId
    requires forall m, n :: m in ids && n in ids && ids[m] == ids[n] ==> m == n
    requires Distinct(names) && multiset(Titles(ps)) == multiset(names)
    ensures IdsDistinct(ps)
  {
    forall i, j | 0 <= i < j < |ps| ensures ps[i].id != ps[j].id {
      if !ps[i].isRow && !ps[j].isRow && ps[i].title == ps[j].title {
        ShownTwice(ps, i, j);
        DistinctCount(names, ps[i].title);
      }
    }
  }

  /** A repeated name gives two panels with one id. */
  lemma RepeatedNameRepeatsId(ps: seq<Panel>, ids: map<string, nat>, rowId: nat, names: seq<string>)
    requires Numbered(ps, ids, rowId) && !Distinct(names) && multiset(Titles(ps)) == multiset(names)
    ensures !IdsDistinct(ps)
  {
    var i, j :| 0 <= i < j < |names| && names[i] == names[j];
    CountedTwice(names, i, j);
    var p, q := FindTwice(ps, names[i]);
    assert ps[p].id == ps[q].id;
  }

  lemma CountedTwice(ns: seq<string>, i: nat, j: nat)
    requires i < j < |ns| && ns[i] == ns[j]
    ensures multiset(ns)[ns[i]] >= 2
  {
    assert ns == ns[..j] + [ns[j]] + ns[j + 1..];
    assert ns[..j][i] == ns[i];
    assert ns[i] in multiset(ns[..j]);
  }

  lemma {:induction false} FindOnce(ps: seq<Panel>, t: string) returns (p: nat)
    requires multiset(Titles(ps))[t] >= 1
    ensures p < |ps| && !ps[p].isRow && ps[p].title == t
  {
    p := |ps| - 1;
    if ps[p].isRow || ps[p].title != t {
      p := FindOnce(ps[..p], t);
    }
  }

  lemma {:induction false} FindTwice(ps: seq<Panel>, t: string) returns (p: nat, q: nat)
    requires multiset(Titles(ps))[t] >= 2
    ensures p < q < |ps| && !ps[p].isRow && !ps[q].isRow && ps[p].title == ps[q].title == t
  {
    q := |ps| - 1;
    if ps[q].isRow || ps[q].title != t {
      p, q := FindTwice(ps[..q], t);
    } else {
      p := FindOnce(ps[..q], t);
    }
  }

  predicate InColumns(ps: seq<Panel>) {
    forall i :: 0 <= i < |ps| ==> ps[i].x + ps[i].w <= 24
  }

  lemma SectionsFrom(ids: map<string, nat>, grouped: map<string, seq<Alert>>, keys: seq<string>, r: nat, rowId: nat, y: nat)
    requires Covered(ids, grouped, keys) && r < |keys|
    ensures keys[r] in grouped
    ensures Covered(ids, grouped, keys[r..]) && Covered(ids, grouped, keys[r + 1..])
    ensures forall i :: 0 <= i < |grouped[keys[r]]| ==> grouped[keys[r]][i].name in ids
    ensures Sections(ids, grouped, keys[r..], rowId, y)
         == [RowPanel(rowId, keys[r], y)] + Grid(ids, grouped[keys[r]], y + 1)
          + Sections(ids, grouped, keys[r + 1..], rowId + 1, y + 1 + Height(|grouped[keys[r]]|))
  {
    hide Height, Grid, RowPanel;
    assert keys[r..][0] == keys[r] && keys[r..][1..] == keys[r + 1..];
  }

  lemma SectionsEnds(ids: map<string, nat>, grouped: map<string, seq<Alert>>, keys: seq<string>, rowId: nat)
    requires Covered(ids, grouped, keys)
    ensures Covered(ids, grouped, keys[0..]) && Sections(ids, grouped, keys[0..], rowId, 0) == Sections(ids, grouped, keys, rowId, 0)
    ensures Covered(ids, grouped, keys[|keys|..])
    ensures forall i: nat, y: nat :: Sections(ids, grouped, keys[|keys|..], i, y) == []
  {
    assert keys[0..] == keys;
  }

  /** The row-by-row loop of the overview dashboard. */
  method LayoutSections(grouped: map<string, seq<Alert>>, ids: map<string, nat>, keys: seq<string>, rowBase: nat)
    returns (panels: seq<Panel>)
    requires Covered(ids, grouped, keys)
    ensures panels == Sections(ids, grouped, keys, rowBase, 0)
  {
    hide Height, Grid, Sections, Covered, RowPanel;
    SectionsEnds(ids, grouped, keys, rowBase);
    panels := [];
    var y := 0;
    for r := 0 to |keys|
      invariant Covered(ids, grouped, keys[r..])
      invariant Sections(ids, grouped, keys, rowBase, 0) == panels + Sections(ids, grouped, keys[r..], rowBase + r, y)
    {
      SectionsFrom(ids, grouped, keys, r, rowBase + r, y);
      var row := [RowPanel(rowBase + r, keys[r], y)];
      var sub, next := LayoutPanels(grouped[keys[r]], ids, y + 1);
      ghost var rest := Sections(ids, grouped, keys[r + 1..], rowBase + r + 1, next);
      assert panels + (row + sub + rest) == panels + row + sub + rest;
      panels := panels + row + sub;
      y := next;
    }
  }

  /** The overview dashboard: each alert is shown as often as it is listed,
      nothing overlaps or leaves the 24 columns, and all ids differ exactly when
      all names do. */
  method BuildMaster(alerts: seq<Alert>) returns (panels: seq<Panel>)
    ensures multiset(Titles(panels)) == multiset(Names(alerts))
    ensures NoOverlaps(panels) && InColumns(panels)
    ensures IdsDistinct(panels) <==> Distinct(Names(alerts))
  {
    hide Less, Titles, NoOverlaps, InColumns, IdsDistinct, Distinct, Increasing, OfRunbook, Covered, Sections;
    var grouped := GroupByRunbook(alerts);
    var ids := StablePanelIds(alerts);
    var keys := SortedKeys(grouped);
    GroupsAreCovered(alerts, grouped, ids, keys);
    var rowBase := 1000;
    if ids != map[] {
      var top :| top in ids.Values && forall v :: v in ids.Values ==> v <= top;
      rowBase := top + 100;
    }
    assert forall n :: n in ids ==> ids[n] in ids.Values && ids[n] < rowBase;
    panels := LayoutSections(grouped, ids, keys, rowBase);
    SectionsShowAll(alerts, grouped, ids, keys, rowBase);
    SectionsFit(ids, grouped, keys, rowBase);
    SectionIds(ids, grouped, keys, rowBase, Names(alerts));
  }

  lemma GroupsAreCovered(alerts: seq<Alert>, grouped: map<string, seq<Alert>>, ids: map<string, nat>, keys: seq<string>)
    requires forall r :: r in grouped ==> grouped[r] == OfRunbook(alerts, r)
    requires forall n :: n in Names(alerts) ==> n in ids
    requires forall k :: k in keys ==> k in grouped
    ensures Covered(ids, grouped, keys)
  {
    forall k, i | 0 <= k < |keys| && keys[k] in grouped && 0 <= i < |grouped[keys[k]]|
      ensures grouped[keys[k]][i].name in ids
    {
      var a := grouped[keys[k]][i];
      SplitByRunbook(alerts, keys[k]);
      assert a in multiset(OfRunbook(alerts, keys[k]));
      assert a in multiset(alerts);
      var j :| 0 <= j < |alerts| && alerts[j] == a;
      assert Names(alerts)[j] == a.name;
    }
  }

  lemma SectionsShowAll(alerts: seq<Alert>, grouped: map<string, seq<Alert>>, ids: map<string, nat>, keys: seq<string>, rowId: nat)
    requires Increasing(keys) && Covered(ids, grouped, keys)
    requires forall k :: k in keys <==> Mentions(alerts, k)
    requires forall r :: r in grouped ==> grouped[r] == OfRunbook(alerts, r)
    ensures multiset(Titles(Sections(ids, grouped, keys, rowId, 0))) == multiset(Names(alerts))
  {
    hide Less, Sections, Titles, Increasing, OfRunbook, Distinct, Flatten, AllOf;
    TitlesOfSections(ids, grouped, keys, rowId, 0);
    AllOfIsFlatten(alerts, grouped, keys);
    KeysDistinct(keys);
    assert forall i :: 0 <= i < |alerts| ==> Mentions(alerts, alerts[i].runbook);
    FlattenPermutes(alerts, keys);
    NamesOfPermutation(Flatten(alerts, keys), alerts);
  }

  lemma SectionsFit(ids: map<string, nat>, grouped: map<string, seq<Alert>>, keys: seq<string>, rowId: nat)
    requires Covered(ids, grouped, keys)
    ensures NoOverlaps(Sections(ids, grouped, keys, rowId, 0)) && InColumns(Sections(ids, grouped, keys, rowId, 0))
  {
    hide Sections, NoOverlaps;
    SectionsAreTidy(ids, grouped, keys, rowId, 0);
  }

  lemma SectionIds(ids: map<string, nat>, grouped: map<string, seq<Alert>>, keys: seq<string>, rowId: nat, names: seq<string>)
    requires Covered(ids, grouped, keys)
    requires forall n :: n in ids ==> ids[n] < rowId
    requires forall m, n :: m in ids && n in ids && ids[m] == ids[n] ==> m == n
    requires multiset(Titles(Sections(ids, grouped, keys, rowId, 0))) == multiset(names)
    ensures IdsDistinct(Sections(ids, grouped, keys, rowId, 0)) <==> Distinct(names)
  {
    hide Sections, Titles, IdsDistinct, Distinct, Numbered, RowIdsDistinct;
    var ps := Sections(ids, grouped, keys, rowId, 0);
    SectionsAreNumbered(ids, grouped, keys, rowId, 0);
    if Distinct(names) {
      PanelIdsDistinct(ps, ids, rowId, names);
    } else {
      RepeatedNameRepeatsId(ps, ids, rowId, names);
    }
  }

  lemma KeysDistinct(keys: seq<string>)
    requires Increasing(keys)
    ensures Distinct(keys)
  {
    hide Less;
    forall i, j | 0 <= i < j < |keys| ensures keys[i] != keys[j] {
      assert Less(keys[i], keys[j]);
      LessIrreflexive(keys[i]);
    }
  }
}
