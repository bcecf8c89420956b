/** The table through which Go code running in a page refers to JavaScript
    values: reference-counted ids, an inverse map and a pool of freed ids. */
module RefTable {

  datatype JsValue =
    | Undefined | Null | Bool(b: bool) | NaN | Number(r: real)
    | Str(s: string) | Symbol(n: nat) | Object(n: nat) | Function(n: nat)

  /** Objects are compared by identity; these two are the global object and the
      runtime object itself. */
  const GLOBAL_THIS := Object(0)
  const GO_RUNTIME := Object(1)

  const PRESETS := [NaN, Number(0.0), Null, Bool(true), Bool(false), GLOBAL_THIS, GO_RUNTIME]

  datatype Count = Infinite | Finite(n: int)

  /** Eight bytes of Go memory: a non-zero float, the all-zero word, or a NaN
      whose payload is a type flag and a table id. */
  datatype Word = Zero | Float(r: real) | Ref(flag: nat, id: nat)

  datatype Table = Table(values: seq<JsValue>, counts: seq<Count>, ids: map<JsValue, nat>, pool: seq<nat>)

  function Initial(): Table {
    Table(PRESETS, seq(7, _ => Infinite),
          map[Number(0.0) := 1, Null := 2, Bool(true) := 3, Bool(false) := 4, GLOBAL_THIS := 5, GO_RUNTIME := 6],
          [])
  }

  /** The values that are stored by id and counted. */
  predicate Tabled(v: JsValue) {
    v != Undefined && v != NaN && (v.Number? ==> v.r == 0.0)
  }

  function TypeFlag(v: JsValue): nat {
    match v
    case Object(_) => 1
    case Str(_) => 2
    case Symbol(_) => 3
    case Function(_) => 4
    case _ => 0
  }

  /** The flag says which of the four reference kinds the value is, or none of them. */
  predicate Tells(flag: nat, v: JsValue) {
    && (flag == 1 <==> v.Object?) && (flag == 2 <==> v.Str?) && (flag == 3 <==> v.Symbol?) && (flag == 4 <==> v.Function?)
    && (flag == 0 <==> !v.Object? && !v.Str? && !v.Symbol? && !v.Function?)
  }

  function Up(c: Count): Count {
    if c.Infinite? then c else Finite(c.n + 1)
  }

  function Down(c: Count): Count {
    if c.Infinite? then c else Finite(c.n - 1)
  }

  /** A new id for a value that has none: the last freed one, else a fresh one. */
  function Assign(t: Table, v: JsValue): (Table, nat)
    requires |t.counts| == |t.values|
    requires t.pool != [] ==> t.pool[|t.pool| - 1] < |t.values|
  {
    if t.pool != [] then
      var id := t.pool[|t.pool| - 1];
      (Table(t.values[id := v], t.counts[id := Finite(1)], t.ids[v := id], t.pool[..|t.pool| - 1]), id)
    else
      var id := |t.values|;
      (Table(t.values + [v], t.counts + [Finite(1)], t.ids[v := id], t.pool), id)
  }

  /** The shape every reachable table has, as far as indexing goes. */
  predicate Indexed(t: Table) {
    && |t.counts| == |t.values|
    && (forall k :: 0 <= k < |t.pool| ==> t.pool[k] < |t.values|)
    && (forall v :: v in t.ids ==> t.ids[v] < |t.values|)
  }

  function Intern(t: Table, v: JsValue): (Table, nat)
    requires Indexed(t)
  {
    if v in t.ids then (t.(counts := t.counts[t.ids[v] := Up(t.counts[t.ids[v]])]), t.ids[v])
    else Assign(t, v)
  }

  function Store(t: Table, v: JsValue): (Table, Word)
    requires Indexed(t)
  {
    if v == NaN then (t, Ref(0, 0))
    else if v == Undefined then (t, Zero)
    else if Tabled(v) then (Intern(t, v).0, Ref(TypeFlag(v), Intern(t, v).1))
    else (t, Float(v.r))
  }

  function Load(t: Table, w: Word): JsValue {
    match w
    case Zero => Undefined
    case Float(r) => Number(r)
    case Ref(_, id) => if id < |t.values| then t.values[id] else Undefined
  }

  function Finalize(t: Table, id: nat): Table
    requires |t.counts| == |t.values| && id < |t.values|
  {
    var counts := t.counts[id := Down(t.counts[id])];
    if counts[id] == Finite(0) then
      Table(t.values[id := Null], counts, t.ids - {t.values[id]}, t.pool + [id])
    else
      t.(counts := counts)
  }

  class GoRuntime {
    var values: seq<JsValue>
    var counts: seq<Count>
    var ids: map<JsValue, nat>
    var pool: seq<nat>

    ghost function View(): Table
      reads this
    {
      Table(values, counts, ids, pool)
    }

    constructor ()
      ensures View() == Initial() && Indexed(View())
    {
      values := PRESETS;
      counts := seq(7, _ => Infinite);
      ids := map[Number(0.0) := 1, Null := 2, Bool(true) := 3, Bool(false) := 4, GLOBAL_THIS := 5, GO_RUNTIME := 6];
      pool := [];
    }

    method StoreValue(v: JsValue) returns (w: Word)
      requires Indexed(View())
      modifies this
      ensures (View(), w) == Store(old(View()), v)
      ensures w.Ref? ==> Tells(w.flag, v)
      ensures (w == Zero <==> v == Undefined) && (w.Float? <==> v.Number? && v.r != 0.0) && (w.Float? ==> w.r == v.r)
    {
      if v.NaN? {
        return Ref(0, 0);
      }
      if v.Number? && v.r != 0.0 {
        return Float(v.r);
      }
      if v.Undefined? {
        return Zero;
      }
      var id;
      if v in ids {
        id := ids[v];
        counts := counts[id := Up(counts[id])];
      } else {
        if |pool| > 0 {
          id := pool[|pool| - 1];
          pool := pool[..|pool| - 1];
          values := values[id := v];
          counts := counts[id := Finite(0)];
        } else {
          id := |values|;
          values := values + [v];
          counts := counts + [Finite(0)];
        }
        ids := ids[v := id];
        counts := counts[id := Up(counts[id])];
      }
      w := Ref(TypeFlag(v), id);
      ghost var t := old(View());
      if v !in t.ids && t.pool == [] {
        assert counts == t.counts + [Finite(1)];
      } else if v !in t.ids {
        assert counts == t.counts[id := Finite(1)];
      }
    }

    method LoadValue(w: Word) returns (v: JsValue)
      ensures v == Load(View(), w)
    {
      match w
      case Zero => v := Undefined;
      case Float(r) => v := Number(r);
      case Ref(_, id) => v := if id < |values| then values[id] else Undefined;
    }

    method FinalizeRef(id: nat)
      requires |counts| == |values| && id < |values|
      modifies this
      ensures View() == Finalize(old(View()), id)
    {
      counts := counts[id := Down(counts[id])];
      if counts[id] == Finite(0) {
        var v := values[id];
        values := values[id := Null];
        ids := ids - {v};
        pool := pool + [id];
      }
    }
  }

  // ---------------------------------------------------------------------
  // Runs of stores and of finalisations of held references
  // ---------------------------------------------------------------------

  /** A reference Go code holds: the id it was given, and the value it was given
      it for. */
  datatype Held = Held(id: nat, value: JsValue)

  datatype Op = Put(v: JsValue) | Free(h: Held)

  /** `peak` is history: the most distinct values, presets aside, ever held at once. */
  datatype Run = Run(t: Table, held: multiset<Held>, peak: nat)

  /** The distinct non-preset values now held. */
  ghost function LiveValues(held: multiset<Held>): set<JsValue> {
    set h | h in held && h.id >= 7 :: h.value
  }

  function Max(a: nat, b: nat): nat {
    if a >= b then a else b
  }

  ghost function Next(r: Run, op: Op): Run
    requires Indexed(r.t)
  {
    match op
    case Put(v) =>
      var (t, w) := Store(r.t, v);
      var held := if w.Ref? then r.held + multiset{Held(w.id, v)} else r.held;
      Run(t, held, Max(r.peak, |LiveValues(held)|))
    case Free(h) =>
      if h !in r.held || h.id >= |r.t.values| then r
      else Run(Finalize(r.t, h.id), r.held - multiset{h}, r.peak)
  }

  predicate Busy(t: Table, id: nat) {
    id < |t.values| && id < |t.counts| && t.counts[id] != Finite(0)
  }

  /** The seven presets stay where they are and are never freed. */
  predicate PresetsStay(t: Table) {
    && |t.values| >= 7 && |t.counts| >= 7
    && (forall id :: 0 <= id < 7 ==> t.values[id] == PRESETS[id] && t.counts[id] == Infinite)
  }

  /** Every other count is the number of references held to that id, and a held
      reference still names the value it was given for. */
  ghost predicate Counted(t: Table, held: multiset<Held>) {
    && |t.counts| == |t.values|
    && (forall id :: 7 <= id < |t.values| ==> t.counts[id] == Finite(held[Held(id, t.values[id])]))
    && (forall h :: h in held ==> h.id < |t.values| && t.values[h.id] == h.value)
  }

  /** The pool lists each unheld id once. */
  predicate Pooled(t: Table) {
    && |t.counts| == |t.values|
    && (forall k :: 0 <= k < |t.pool| ==> 7 <= t.pool[k] < |t.values| && t.counts[t.pool[k]] == Finite(0))
    && (forall id :: 7 <= id < |t.values| && t.counts[id] == Finite(0) ==> id in t.pool)
    && (forall j, k :: 0 <= j < k < |t.pool| ==> t.pool[j] != t.pool[k])
  }

  /** `ids` is the inverse of the table on the ids in use. */
  predicate Inverse(t: Table) {
    && (forall v :: v in t.ids ==> Tabled(v) && t.ids[v] >= 1 && Busy(t, t.ids[v]) && t.values[t.ids[v]] == v)
    && (forall id :: 1 <= id < |t.values| && Busy(t, id) ==> t.values[id] in t.ids && t.ids[t.values[id]] == id)
  }

  ghost predicate Sound(t: Table, held: multiset<Held>) {
    PresetsStay(t) && Counted(t, held) && Pooled(t) && Inverse(t)
  }

  lemma InitialIsSound()
    ensures Sound(Initial(), multiset{}) && Indexed(Initial())
  {
    InitialInverse();
  }

  lemma InitialInverse()
    ensures Inverse(Initial())
  {
    var t := Initial();
    assert t.values[1] == Number(0.0) && t.values[2] == Null && t.values[3] == Bool(true);
    assert t.values[4] == Bool(false) && t.values[5] == GLOBAL_THIS && t.values[6] == GO_RUNTIME;
    forall v | v in t.ids ensures Tabled(v) && 1 <= t.ids[v] < 7 && t.values[t.ids[v]] == v {
    }
    forall id | 1 <= id < 7 ensures t.values[id] in t.ids && t.ids[t.values[id]] == id {
      if id <= 3 {
        assert id == 1 || id == 2 || id == 3;
      } else {
        assert id == 4 || id == 5 || id == 6;
      }
    }
    forall id | 1 <= id < 7 ensures Busy(t, id) {
    }
  }

  lemma SoundIsIndexed(t: Table, held: multiset<Held>)
    requires Sound(t, held)
    ensures Indexed(t)
  {
    forall v | v in t.ids ensures t.ids[v] < |t.values| {
      assert Busy(t, t.ids[v]);
    }
  }

  // A value that already has an id.

  lemma KnownKeepsCounted(t: Table, held: multiset<Held>, v: JsValue)
    requires Indexed(t) && PresetsStay(t) && Counted(t, held) && Inverse(t) && v in t.ids
    ensures var t' := Intern(t, v).0; PresetsStay(t') && Counted(t', held + multiset{Held(t.ids[v], v)})
  {
    assert Busy(t, t.ids[v]);
  }

  lemma KnownKeepsIds(t: Table, v: JsValue)
    requires Indexed(t) && Pooled(t) && Inverse(t) && v in t.ids
    requires forall id :: 0 <= id < |t.counts| && t.counts[id].Finite? ==> t.counts[id].n >= 0
    ensures Pooled(Intern(t, v).0) && Inverse(Intern(t, v).0)
  {
    var t' := Intern(t, v).0;
    assert Busy(t, t.ids[v]);
    forall id ensures Busy(t', id) <==> Busy(t, id) {
    }
  }

  // A value that is given an id.

  lemma AssignedIdIsNew(t: Table, held: multiset<Held>, v: JsValue)
    requires Indexed(t) && PresetsStay(t) && Counted(t, held) && Pooled(t)
    ensures var id' := Assign(t, v).1;
            id' >= 7 && !Busy(t, id') && forall h :: h in held ==> h.id != id'
  {
    var id' := Assign(t, v).1;
    forall h | h in held ensures h.id != id' {
      HeldIsBusy(t, held, h);
    }
  }

  lemma AssignKeepsCounted(t: Table, held: multiset<Held>, v: JsValue)
    requires Indexed(t) && PresetsStay(t) && Counted(t, held) && Pooled(t)
    ensures var (t', id') := Assign(t, v); PresetsStay(t') && Counted(t', held + multiset{Held(id', v)})
  {
    AssignedIdIsNew(t, held, v);
    var (t', id') := Assign(t, v);
    assert held[Held(id', v)] == 0;
  }

  lemma AssignKeepsPooled(t: Table, v: JsValue)
    requires Indexed(t) && Pooled(t) && |t.values| >= 7
    ensures Pooled(Assign(t, v).0)
  {
    var (t', id') := Assign(t, v);
    forall id | 7 <= id < |t'.values| && t'.counts[id] == Finite(0) ensures id in t'.pool {
      assert id in t.pool;
    }
  }

  lemma AssignKeepsInverse(t: Table, v: JsValue)
    requires Indexed(t) && Inverse(t) && v !in t.ids && Tabled(v)
    requires Assign(t, v).1 >= 7 && !Busy(t, Assign(t, v).1)
    ensures Inverse(Assign(t, v).0)
  {
    var (t', id') := Assign(t, v);
    forall id ensures Busy(t', id) <==> Busy(t, id) || id == id' {
    }
  }

  // A reference that is given up.

  lemma FinalizeKeepsCounted(t: Table, held: multiset<Held>, h: Held)
    requires Indexed(t) && PresetsStay(t) && Counted(t, held) && h in held
    ensures PresetsStay(Finalize(t, h.id)) && Counted(Finalize(t, h.id), held - multiset{h})
  {
    var t', held' := Finalize(t, h.id), held - multiset{h};
    assert h == Held(h.id, t.values[h.id]);
    forall g | g in held' ensures g.id < |t'.values| && t'.values[g.id] == g.value {
      assert g in held;
      if g.id == h.id && h.id >= 7 {
        assert g == h;
        assert t.counts[h.id] == Finite(held[h]);
      }
    }
    forall id | 7 <= id < |t'.values| ensures t'.counts[id] == Finite(held'[Held(id, t'.values[id])]) {
      if id == h.id && t'.values[id] != t.values[id] {
        assert Held(id, Null) !in held;
      }
    }
  }

  lemma FinalizeKeepsPooled(t: Table, id: nat)
    requires Indexed(t) && PresetsStay(t) && Pooled(t) && Busy(t, id)
    ensures Pooled(Finalize(t, id))
  {
    var t' := Finalize(t, id);
    forall k | 7 <= k < |t'.values| && t'.counts[k] == Finite(0) ensures k in t'.pool {
      assert k == id || k in t.pool;
    }
  }

  lemma FinalizeKeepsInverse(t: Table, id: nat)
    requires Indexed(t) && PresetsStay(t) && Inverse(t) && Busy(t, id) && id >= 7
    ensures Inverse(Finalize(t, id))
  {
    var t' := Finalize(t, id);
    assert t.ids[t.values[id]] == id;
    forall k ensures Busy(t', k) <==> Busy(t, k) && (k != id || t'.counts[id] != Finite(0)) {
    }
  }

  lemma StoreKeepsSound(t: Table, held: multiset<Held>, v: JsValue)
    requires Indexed(t) && Sound(t, held) && Tabled(v)
    ensures var (t', id) := Intern(t, v); Sound(t', held + multiset{Held(id, v)})
  {
    if v in t.ids {
      KnownKeepsCounted(t, held, v);
      KnownKeepsIds(t, v);
    } else {
      AssignedIdIsNew(t, held, v);
      AssignKeepsCounted(t, held, v);
      AssignKeepsPooled(t, v);
      AssignKeepsInverse(t, v);
    }
  }

  lemma HeldIsBusy(t: Table, held: multiset<Held>, h: Held)
    requires PresetsStay(t) && Counted(t, held) && h in held
    ensures Busy(t, h.id)
  {
    if h.id >= 7 {
      assert t.counts[h.id] == Finite(held[h]);
    }
  }

  lemma FinalizeKeepsSound(t: Table, held: multiset<Held>, h: Held)
    requires Indexed(t) && Sound(t, held) && h in held
    ensures Sound(Finalize(t, h.id), held - multiset{h})
  {
    HeldIsBusy(t, held, h);
    FinalizeKeepsCounted(t, held, h);
    FinalizeKeepsPooled(t, h.id);
    if h.id >= 7 {
      FinalizeKeepsInverse(t, h.id);
    } else {
      assert Finalize(t, h.id) == t;
    }
  }

  // ---------------------------------------------------------------------
  // How many values are live
  // ---------------------------------------------------------------------

  /** The ids from `lo` up to, not including, `hi`. */
  function IdRange(lo: nat, hi: nat): (ids: set<nat>)
    requires lo <= hi
    ensures |ids| == hi - lo && forall id :: id in ids <==> lo <= id < hi
    decreases hi
  {
    if lo == hi then {} else IdRange(lo, hi - 1) + {hi - 1}
  }

  function Members(s: seq<nat>): set<nat> {
    set x | x in s
  }

  lemma {:induction false} SizeOfDistinct(s: seq<nat>)
    requires forall j, k :: 0 <= j < k < |s| ==> s[j] != s[k]
    ensures |Members(s)| == |s|
  {
    if s == [] {
      assert Members(s) == {};
    } else {
      var n := |s| - 1;
      SizeOfDistinct(s[..n]);
      assert s == s[..n] + [s[n]];
      assert Members(s) == Members(s[..n]) + {s[n]};
      assert s[n] !in Members(s[..n]);
    }
  }

  /** The values in the slots `ids`. */
  ghost function ValuesAt(t: Table, ids: set<nat>): set<JsValue> {
    set id | id in ids && id < |t.values| :: t.values[id]
  }

  /** Slots whose values are all different hold as many values as there are slots. */
  lemma {:induction false} SizeOfValues(t: Table, ids: set<nat>)
    requires forall id :: id in ids ==> id < |t.values|
    requires forall a, b :: a in ids && b in ids && t.values[a] == t.values[b] ==> a == b
    ensures |ValuesAt(t, ids)| == |ids|
    decreases |ids|
  {
    if ids == {} {
      assert ValuesAt(t, ids) == {};
    } else {
      var x :| x in ids;
      SizeOfValues(t, ids - {x});
      assert ValuesAt(t, ids) == ValuesAt(t, ids - {x}) + {t.values[x]};
      assert t.values[x] !in ValuesAt(t, ids - {x});
    }
  }

  ghost function BusyIds(t: Table): (ids: set<nat>)
    requires |t.values| >= 7
    ensures forall id :: id in ids <==> 7 <= id < |t.values| && id !in t.pool
  {
    IdRange(7, |t.values|) - Members(t.pool)
  }

  lemma SizeOfBusy(t: Table)
    requires PresetsStay(t) && Pooled(t)
    ensures |BusyIds(t)| == |t.values| - 7 - |t.pool|
  {
    SizeOfDistinct(t.pool);
    assert Members(t.pool) <= IdRange(7, |t.values|);
    assert BusyIds(t) + Members(t.pool) == IdRange(7, |t.values|);
  }

  lemma BusyIdsHoldLiveValues(t: Table, held: multiset<Held>)
    requires PresetsStay(t) && Counted(t, held) && Pooled(t)
    ensures ValuesAt(t, BusyIds(t)) == LiveValues(held)
  {
    forall v | v in ValuesAt(t, BusyIds(t)) ensures v in LiveValues(held) {
      var id :| id in BusyIds(t) && t.values[id] == v;
      assert t.counts[id] == Finite(held[Held(id, v)]);
      assert Held(id, v) in held;
    }
    forall v | v in LiveValues(held) ensures v in ValuesAt(t, BusyIds(t)) {
      var h :| h in held && h.id >= 7 && h.value == v;
      HeldIsBusy(t, held, h);
    }
  }

  /** Distinct live values and ids in use correspond one to one, so beside the
      pooled slots the table has exactly one slot per live value. */
  lemma LiveCount(t: Table, held: multiset<Held>)
    requires Sound(t, held)
    ensures |LiveValues(held)| == |t.values| - 7 - |t.pool|
  {
    forall id | id in BusyIds(t) ensures Busy(t, id) && t.values[id] in t.ids && t.ids[t.values[id]] == id {
      assert t.counts[id] != Finite(0);
      assert Busy(t, id);
    }
    SizeOfValues(t, BusyIds(t));
    SizeOfBusy(t);
    BusyIdsHoldLiveValues(t, held);
  }

  // ---------------------------------------------------------------------
  // Every run
  // ---------------------------------------------------------------------

  /** Sound, and the table is exactly as long as the peak demands. */
  ghost predicate Good(r: Run) {
    Indexed(r.t) && Sound(r.t, r.held) && |r.t.values| == 7 + r.peak
  }

  lemma PutKeepsSound(r: Run, v: JsValue)
    requires Good(r)
    ensures Sound(Next(r, Put(v)).t, Next(r, Put(v)).held)
  {
    if v.NaN? {
      var held' := r.held + multiset{Held(0, NaN)};
      assert Counted(r.t, held');
    } else if Tabled(v) {
      StoreKeepsSound(r.t, r.held, v);
    }
  }

  /** Storing grows the table only when the pool is empty, and then by one. */
  lemma StoreGrowth(t: Table, v: JsValue)
    requires Indexed(t)
    ensures var t' := Store(t, v).0;
            || (|t'.values| == |t.values| && |t'.pool| <= |t.pool|)
            || (|t'.values| == |t.values| + 1 && t.pool == [] && t'.pool == [])
  {
  }

  lemma NextKeepsGood(r: Run, op: Op)
    requires Good(r)
    ensures Good(Next(r, op))
  {
    var r' := Next(r, op);
    match op
    case Put(v) =>
      PutKeepsSound(r, v);
      StoreGrowth(r.t, v);
      LiveCount(r'.t, r'.held);
    case Free(h) =>
      if h in r.held {
        FinalizeKeepsSound(r.t, r.held, h);
      }
    SoundIsIndexed(r'.t, r'.held);
  }

  ghost function After(ops: seq<Op>): (r: Run)
    ensures Good(r)
  {
    if ops == [] then
      InitialIsSound();
      Run(Initial(), multiset{}, 0)
    else
      var r := After(ops[..|ops| - 1]);
      NextKeepsGood(r, ops[|ops| - 1]);
      Next(r, ops[|ops| - 1])
  }

  /** A held reference other than to NaN has the id the inverse map gives. */
  lemma HeldIdIsTheId(t: Table, held: multiset<Held>, h: Held)
    requires Sound(t, held) && h in held
    ensures if h.value == NaN then h.id == 0 else h.value in t.ids && t.ids[h.value] == h.id
  {
    HeldIsBusy(t, held, h);
    if h.id == 0 {
      assert t.values[0] == PRESETS[0];
    }
  }

  /** Over every run: each held reference loads back the value it was stored for,
      and two held references share an id exactly when they share a value. */
  lemma HeldReferencesLoad(ops: seq<Op>, g: Held, h: Held)
    requires g in After(ops).held && h in After(ops).held
    ensures Load(After(ops).t, Ref(TypeFlag(h.value), h.id)) == h.value
    ensures g.value == h.value <==> g.id == h.id
  {
    HeldIdIsTheId(After(ops).t, After(ops).held, g);
    HeldIdIsTheId(After(ops).t, After(ops).held, h);
  }

  /** After any run, loading the word a store returns gives back the value
      stored, for every JavaScript value. */
  lemma StoreThenLoad(ops: seq<Op>, v: JsValue)
    ensures var (t, w) := Store(After(ops).t, v); Load(t, w) == v
  {
    StoredWordLoads(After(ops).t, v);
  }

  lemma StoredWordLoads(t: Table, v: JsValue)
    requires Indexed(t) && PresetsStay(t) && Inverse(t)
    ensures var (t', w) := Store(t, v); Load(t', w) == v
  {
    if v.NaN? {
      assert t.values[0] == PRESETS[0];
    } else if v in t.ids {
      assert Busy(t, t.ids[v]);
    }
  }

  /** The table is exactly as long as the peak number of live values needs, and
      freed ids are distinct, unheld and never preset. */
  lemma TableIsAsLongAsThePeak(ops: seq<Op>)
    ensures var r := After(ops);
            && |r.t.values| == 7 + r.peak
            && |LiveValues(r.held)| + |r.t.pool| == r.peak
            && (forall j, k :: 0 <= j < k < |r.t.pool| ==> r.t.pool[j] != r.t.pool[k])
            && (forall k :: 0 <= k < |r.t.pool| ==> r.t.pool[k] >= 7)
            && (forall h :: h in r.held ==> h.id !in r.t.pool)
  {
    var r := After(ops);
    LiveCount(r.t, r.held);
    forall h | h in r.held ensures h.id !in r.t.pool {
      HeldIsBusy(r.t, r.held, h);
    }
  }

  /** After any run, the word a store returns tells the kind of the value: undefined is
      the zero word, other numbers are themselves, and every reference carries the
      flag of what it loads. */
  lemma StoredWordTells(ops: seq<Op>, v: JsValue)
    ensures var (t, w) := Store(After(ops).t, v);
            && (w == Zero <==> v == Undefined) && (w.Float? <==> v.Number? && v.r != 0.0)
            && (w.Ref? ==> Tells(w.flag, v) && Tells(w.flag, Load(t, w)))
  {
    StoreThenLoad(ops, v);
  }

  /** Every held reference's flag tells the kind of value it loads. */
  lemma HeldFlagTells(ops: seq<Op>, h: Held)
    requires h in After(ops).held
    ensures Tells(TypeFlag(h.value), Load(After(ops).t, Ref(TypeFlag(h.value), h.id)))
  {
    HeldReferencesLoad(ops, h, h);
  }

  lemma PresetIsInterned(t: Table, held: multiset<Held>, id: nat)
    requires Sound(t, held) && 1 <= id < 7
    ensures PRESETS[id] in t.ids && t.ids[PRESETS[id]] == id
  {
    assert Busy(t, id) && t.values[id] == PRESETS[id];
  }

  lemma InternedWord(t: Table, v: JsValue, id: nat)
    requires Indexed(t) && Tabled(v) && v in t.ids && t.ids[v] == id
    ensures Store(t, v).1 == Ref(TypeFlag(v), id)
  {
  }

  /** The id Go knows a preset value by. */
  predicate PresetId(v: JsValue, id: nat) {
    || (v == NaN && id == 0) || (v == Number(0.0) && id == 1) || (v == Null && id == 2)
    || (v == Bool(true) && id == 3) || (v == Bool(false) && id == 4)
    || (v == GLOBAL_THIS && id == 5) || (v == GO_RUNTIME && id == 6)
  }

  /** After any run the preset values are stored under the ids Go knows them by. */
  lemma PresetWords(ops: seq<Op>, v: JsValue, id: nat)
    requires PresetId(v, id)
    ensures Store(After(ops).t, v).1 == Ref(if v.Object? then 1 else 0, id)
  {
    hide After, Sound, Indexed;
    var r := After(ops);
    if id > 0 {
      assert PRESETS[id] == v && Tabled(v) && TypeFlag(v) == if v.Object? then 1 else 0;
      PresetIsInterned(r.t, r.held, id);
      hide Store;
      InternedWord(r.t, v, id);
    }
  }

  /** Freeing the last reference to a slot clears it, and the next new value gets it. */
  lemma FreedSlotIsReused(t: Table, id: nat, v: JsValue)
    requires Indexed(t) && id < |t.values| && t.counts[id] == Finite(1)
    requires Tabled(v) && v !in t.ids
    ensures var freed := Finalize(t, id);
            && Load(freed, Ref(0, id)) == Null && Indexed(freed)
            && Store(freed, v).1 == Ref(TypeFlag(v), id)
  {
  }
}
