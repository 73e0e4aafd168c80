/** The browser-side logs: analysis results, credit events and precision requests, each a JSON
    list under its own `localStorage` key, newest first and trimmed to a cap. The store is an
    abstract key-to-value map; what a stored text parses to is part of the stored value. */
module History {
  import opened Wrappers
  import opened Types

  const AnalysisKey: string := "voicefit.analysis.history"
  const CreditKey: string := "voicefit.credit.events"
  const PrecisionKey: string := "voicefit.precision.events"

  const AnalysisCap: nat := 30
  const CreditCap: nat := 100
  const PrecisionCap: nat := 100

  /** A stored text as `JSON.parse` sees it: empty, not JSON, or a value of the expected shape. */
  datatype Raw<T> = EmptyText | Unparsable | Parsed(value: T)

  /** `safeParse`: a missing or empty text and an unparsable one give the fallback. */
  function SafeParse<T>(raw: Option<Raw<T>>, fallback: T): (r: T)
    ensures raw.Some? && raw.value.Parsed? ==> r == raw.value.value
    ensures raw.None? || !raw.value.Parsed? ==> r == fallback
  {
    match raw
    case None => fallback
    case Some(EmptyText) => fallback
    case Some(Unparsable) => fallback
    case Some(Parsed(v)) => v
  }

  /** What a key holds: one of the three lists, an empty text, or text that is not JSON. */
  datatype Stored =
    | AnalysisList(records: seq<AnalysisRecord>)
    | CreditList(events: seq<CreditEvent>)
    | PrecisionList(precision: seq<PrecisionEvent>)
    | BlankText
    | NotJson

  type Store = map<string, Stored>

  function Lookup(store: Store, key: string): Option<Stored> {
    if key in store then Some(store[key]) else None
  }

  function AsAnalysis(s: Option<Stored>): Option<Raw<seq<AnalysisRecord>>> {
    match s
    case None => None
    case Some(BlankText) => Some(EmptyText)
    case Some(AnalysisList(l)) => Some(Parsed(l))
    case Some(_) => Some(Unparsable)
  }

  function AsCredit(s: Option<Stored>): Option<Raw<seq<CreditEvent>>> {
    match s
    case None => None
    case Some(BlankText) => Some(EmptyText)
    case Some(CreditList(l)) => Some(Parsed(l))
    case Some(_) => Some(Unparsable)
  }

  function AsPrecision(s: Option<Stored>): Option<Raw<seq<PrecisionEvent>>> {
    match s
    case None => None
    case Some(BlankText) => Some(EmptyText)
    case Some(PrecisionList(l)) => Some(Parsed(l))
    case Some(_) => Some(Unparsable)
  }

  function LoadAnalysisHistory(store: Store): seq<AnalysisRecord> {
    SafeParse(AsAnalysis(Lookup(store, AnalysisKey)), [])
  }

  function LoadCreditEvents(store: Store): seq<CreditEvent> {
    SafeParse(AsCredit(Lookup(store, CreditKey)), [])
  }

  function LoadPrecisionEvents(store: Store): seq<PrecisionEvent> {
    SafeParse(AsPrecision(Lookup(store, PrecisionKey)), [])
  }

  function SaveAnalysisHistory(store: Store, records: seq<AnalysisRecord>): Store {
    store[AnalysisKey := AnalysisList(records)]
  }

  function SaveCreditEvents(store: Store, events: seq<CreditEvent>): Store {
    store[CreditKey := CreditList(events)]
  }

  function SavePrecisionEvents(store: Store, events: seq<PrecisionEvent>): Store {
    store[PrecisionKey := PrecisionList(events)]
  }

  /** A missing, blank or unparsable entry loads as the empty list. */
  lemma LoadFallsBack(store: Store)
    requires CreditKey !in store || store[CreditKey] == BlankText || store[CreditKey] == NotJson
    ensures LoadCreditEvents(store) == []
  {
  }

  function Min(a: nat, b: nat): nat {
    if a <= b then a else b
  }

  /** `[item, ...current].slice(0, cap)`: the new item first, then the newest of the old ones.
      Nothing is reordered and only the oldest are dropped. */
  function AddTrim<T>(item: T, current: seq<T>, cap: nat): (next: seq<T>)
    ensures |next| == Min(cap, |current| + 1)
    ensures |next| <= cap
    ensures cap > 0 ==> |next| >= 1 && next[0] == item
    ensures |next| > 0 ==> next[1..] == current[..|next| - 1]
  {
    ([item] + current)[..Min(cap, |current| + 1)]
  }

  /** Below the cap nothing is dropped; at the cap exactly the oldest item is. */
  lemma AddTrimDrops<T>(item: T, current: seq<T>, cap: nat)
    requires cap > 0
    ensures |current| < cap ==> AddTrim(item, current, cap) == [item] + current
    ensures |current| >= cap ==> AddTrim(item, current, cap) + current[cap - 1..] == [item] + current
  {
    var next := AddTrim(item, current, cap);
    if |current| >= cap {
      assert next[1..] == current[..cap - 1];
      assert next == [item] + current[..cap - 1];
      assert current[..cap - 1] + current[cap - 1..] == current;
    }
  }

  function Reverse<T>(s: seq<T>): (r: seq<T>)
    ensures |r| == |s|
  {
    if |s| == 0 then [] else Reverse(s[1..]) + [s[0]]
  }

  /** Adding several items one at a time, oldest first. */
  function AddAll<T>(items: seq<T>, current: seq<T>, cap: nat): seq<T>
    decreases |items|
  {
    if |items| == 0 then current
    else AddAll(items[1..], AddTrim(items[0], current, cap), cap)
  }

  /** Repeated adds keep the most recent items, newest first: one add at a time gives the same
      list as one trim of everything. */
  lemma {:induction false} AddAllIsOneTrim<T>(items: seq<T>, current: seq<T>, cap: nat)
    requires |current| <= cap
    ensures AddAll(items, current, cap) == (Reverse(items) + current)[..Min(cap, |items| + |current|)]
    decreases |items|
  {
    if |items| == 0 {
      assert Reverse(items) + current == current;
    } else {
      var a := [items[0]] + current;
      var j := Min(cap, |current| + 1);
      var next := AddTrim(items[0], current, cap);
      assert next == a[..j];
      AddAllIsOneTrim(items[1..], next, cap);
      var m := Min(cap, |items| + |current|);
      var r1 := Reverse(items[1..]);
      assert Min(cap, |items| - 1 + |next|) == m;
      JoinTrimmed(r1, a, j, m);
      assert Reverse(items) + current == r1 + a by {
        assert Reverse(items) == r1 + [items[0]];
      }
    }
  }

  /** Cutting `a` at `j` does not change the first `k` items of `r1 + a` when `k <= |r1| + j`. */
  lemma JoinTrimmed<T>(r1: seq<T>, a: seq<T>, j: nat, k: nat)
    requires j <= |a| && k <= |r1| + j
    ensures (r1 + a[..j])[..k] == (r1 + a)[..k]
  {
    assert forall i :: 0 <= i < k ==> (r1 + a[..j])[i] == (r1 + a)[i];
  }

  /** `addAnalysisRecord` and its two siblings: load, add and trim, save, and return the list. */
  function AddAnalysisRecord(store: Store, record: AnalysisRecord): (Store, seq<AnalysisRecord>) {
    var next := AddTrim(record, LoadAnalysisHistory(store), AnalysisCap);
    (SaveAnalysisHistory(store, next), next)
  }

  function AddCreditEvent(store: Store, event: CreditEvent): (Store, seq<CreditEvent>) {
    var next := AddTrim(event, LoadCreditEvents(store), CreditCap);
    (SaveCreditEvents(store, next), next)
  }

  function AddPrecisionEvent(store: Store, event: PrecisionEvent): (Store, seq<PrecisionEvent>) {
    var next := AddTrim(event, LoadPrecisionEvents(store), PrecisionCap);
    (SavePrecisionEvents(store, next), next)
  }

  /** The returned list is what the next load reads, and the other two lists are untouched
      because the keys differ. */
  lemma AddAnalysisThenLoad(store: Store, record: AnalysisRecord)
    ensures var (store', next) := AddAnalysisRecord(store, record);
      && LoadAnalysisHistory(store') == next
      && next[0] == record && |next| <= AnalysisCap
      && LoadCreditEvents(store') == LoadCreditEvents(store)
      && LoadPrecisionEvents(store') == LoadPrecisionEvents(store)
  {
  }

  lemma AddCreditThenLoad(store: Store, event: CreditEvent)
    ensures var (store', next) := AddCreditEvent(store, event);
      && LoadCreditEvents(store') == next
      && next[0] == event && |next| <= CreditCap
      && LoadAnalysisHistory(store') == LoadAnalysisHistory(store)
      && LoadPrecisionEvents(store') == LoadPrecisionEvents(store)
  {
  }

  lemma AddPrecisionThenLoad(store: Store, event: PrecisionEvent)
    ensures var (store', next) := AddPrecisionEvent(store, event);
      && LoadPrecisionEvents(store') == next
      && next[0] == event && |next| <= PrecisionCap
      && LoadAnalysisHistory(store') == LoadAnalysisHistory(store)
      && LoadCreditEvents(store') == LoadCreditEvents(store)
  {
  }
}
