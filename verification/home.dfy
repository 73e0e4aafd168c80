/** The home page's controller logic: the analyse-then-fall-back-to-mock decision, the credit
    balance derived from the stored credit log, charging and spending credits, and recording a
    precision request. Ids and timestamps (`Date.now`, `Math.random`) enter as parameters. */
module Home {
  import opened Wrappers
  import opened Types
  import opened Text
  import Voicefit
  import History

  /** Server error codes that mean the input itself is bad: no mock retry for these. */
  const NoMockFallbackCodes: set<string> := {
    "UNSUPPORTED_FORMAT", "FILE_TOO_LARGE", "EMPTY_FILE", "INVALID_WAV",
    "UNSUPPORTED_WAV_ENCODING", "AUDIO_DECODE_ERROR", "INVALID_AUDIO_SIGNAL", "AUDIO_TOO_SHORT",
    "SILENT_AUDIO", "NON_VOCAL_INPUT", "INVALID_BOOLEAN", "INVALID_VOCAL_RANGE_MODE"
  }

  const DegradedNotice: string := "분석 서버가 불안정하여 임시 추천 결과를 보여드리고 있습니다."
  const AnalyzeFailedMessage: string := "분석 요청 중 오류가 발생했습니다."
  const HistoryLoadedNotice: string := "선택한 히스토리 결과를 불러왔습니다."
  const UseNote: string := "정밀 분석 1회 사용"
  const ChargedNoticeSuffix: string := " 크레딧이 충전되었습니다."

  /** Every no-retry code has its own entry in the friendly-text table. */
  lemma NoMockCodesHaveText()
    ensures NoMockFallbackCodes <= Voicefit.MessageByCode.Keys
  {
  }

  // ---------------------------------------------------------------------------
  // Analyse with mock fallback
  // ---------------------------------------------------------------------------

  /** What the page shows once a request has settled. */
  datatype AnalyzeView = AnalyzeView(
    result: Option<AnalyzeResponse>,
    error: Option<string>,
    notice: Option<string>,
    isLoading: bool)

  /** One run of `handleAnalyze`: the requests made, in order, the final view, and the history
      record pushed (its source and data), if any. */
  datatype AnalyzeRun = AnalyzeRun(
    requests: seq<AnalyzeVoiceParams>,
    view: AnalyzeView,
    record: Option<(AnalysisSource, AnalyzeResponse)>)

  /** A typed API error whose code is in the no-retry set. */
  predicate NoRetry(e: Voicefit.Failure) {
    e.ApiError? && Truthy(e.code) && e.code.value in NoMockFallbackCodes
  }

  /** The message shown when the mock retry fails too: the first error's, if it was an `Error`. */
  function FirstErrorMessage(e: Voicefit.Failure): string {
    if e.IsError() then e.message else AnalyzeFailedMessage
  }

  /** `handleAnalyze`, given the outcome of the first request and of the mock retry (used only if
      the retry is made). */
  function HandleAnalyze(params: AnalyzeVoiceParams,
                         first: Result<AnalyzeResponse, Voicefit.Failure>,
                         retry: Result<AnalyzeResponse, Voicefit.Failure>): (run: AnalyzeRun)
    ensures !run.view.isLoading
    ensures run.view.result.Some? != run.view.error.Some?
    ensures run.view.notice.Some? ==> run.record.Some? && run.record.value.0 == Mock
    ensures run.record.Some? <==> run.view.result.Some?
    ensures run.record.Some? ==> run.record.value.1 == run.view.result.value
    ensures 1 <= |run.requests| <= 2 && run.requests[0] == params
  {
    match first
    case Success(data) =>
      AnalyzeRun([params], AnalyzeView(Some(data), None, None, false), Some((Api, data)))
    case Failure(e) =>
      if NoRetry(e) then
        AnalyzeRun([params], AnalyzeView(None, Some(e.message), None, false), None)
      else
        var requests := [params, params.(mock := Some(true))];
        match retry
        case Success(fallbackData) =>
          AnalyzeRun(requests, AnalyzeView(Some(fallbackData), None, Some(DegradedNotice), false), Some((Mock, fallbackData)))
        case Failure(_) =>
          AnalyzeRun(requests, AnalyzeView(None, Some(FirstErrorMessage(e)), None, false), None)
  }

  /** The three ways a run ends, with the retry made exactly when the first failure is not a
      no-retry code, and made with the same parameters except `mock = true`. */
  lemma AnalyzeOutcomes(params: AnalyzeVoiceParams,
                        first: Result<AnalyzeResponse, Voicefit.Failure>,
                        retry: Result<AnalyzeResponse, Voicefit.Failure>)
    ensures var run := HandleAnalyze(params, first, retry);
      && (first.Success? ==>
            run.requests == [params] && run.view == AnalyzeView(Some(first.value), None, None, false)
            && run.record == Some((Api, first.value)))
      && (first.Failure? && NoRetry(first.error) ==>
            run.requests == [params] && run.view == AnalyzeView(None, Some(first.error.message), None, false)
            && run.record.None?)
      && (first.Failure? && !NoRetry(first.error) ==>
            && |run.requests| == 2
            && run.requests[1] == AnalyzeVoiceParams(params.file, params.vocalRangeMode, params.allowCrossGender, Some(true))
            && (retry.Success? ==> run.record == Some((Mock, retry.value)) && run.view.notice == Some(DegradedNotice))
            && (retry.Failure? ==> run.view.error == Some(FirstErrorMessage(first.error)) && run.view.result.None?))
  {
  }

  /** When both outcomes come from the service client, the surfaced error is always a real error
      message: the client never throws a non-`Error`, so the generic text is not used. */
  lemma ClientErrorsAreErrors(params: AnalyzeVoiceParams,
                              firstReply: HttpReply<ApiErrorEnvelope>,
                              retryReply: HttpReply<ApiErrorEnvelope>)
    ensures var first := Voicefit.AnalyzeVoice(params, firstReply);
      var run := HandleAnalyze(params, first, Voicefit.AnalyzeVoice(params.(mock := Some(true)), retryReply));
      run.view.error.Some? ==> first.Failure? && run.view.error == Some(first.error.message)
  {
  }

  /** `loadFromHistory`: show a past result with the history notice. The error and the loading
      flag are left as they were. */
  function LoadFromHistory(v: AnalyzeView, record: AnalysisRecord): (r: AnalyzeView)
    ensures r.result == Some(record.result) && r.notice == Some(HistoryLoadedNotice)
    ensures r.error == v.error && r.isLoading == v.isLoading
  {
    v.(result := Some(record.result), notice := Some(HistoryLoadedNotice))
  }

  /** An error left by a refused analysis stays on screen beside a result loaded from the history
      afterwards: loading a record never clears it. */
  lemma HistoryLoadKeepsError(params: AnalyzeVoiceParams,
                              first: Result<AnalyzeResponse, Voicefit.Failure>,
                              retry: Result<AnalyzeResponse, Voicefit.Failure>,
                              record: AnalysisRecord)
    requires first.Failure? && NoRetry(first.error)
    ensures var v := LoadFromHistory(HandleAnalyze(params, first, retry).view, record);
      v.error == Some(first.error.message) && v.result == Some(record.result)
  {
  }

  // ---------------------------------------------------------------------------
  // Credits
  // ---------------------------------------------------------------------------

  function Delta(e: CreditEvent): int {
    if e.kind == Charge then e.amount else -e.amount
  }

  /** The balance as the page computes it: a fold over the stored log, adding charges and
      subtracting uses. */
  function Credits(events: seq<CreditEvent>): int {
    if |events| == 0 then 0 else Delta(events[0]) + Credits(events[1..])
  }

  /** The sum of the amounts of the events of one kind. */
  function Total(events: seq<CreditEvent>, kind: CreditEventType): int {
    if |events| == 0 then 0
    else (if events[0].kind == kind then events[0].amount else 0) + Total(events[1..], kind)
  }

  /** The balance is the charged total minus the spent total. */
  lemma {:induction false} CreditsIsChargesMinusUses(events: seq<CreditEvent>)
    ensures Credits(events) == Total(events, Charge) - Total(events, Use)
  {
    if |events| > 0 {
      CreditsIsChargesMinusUses(events[1..]);
    }
  }

  lemma {:induction false} CreditsAppend(a: seq<CreditEvent>, b: seq<CreditEvent>)
    ensures Credits(a + b) == Credits(a) + Credits(b)
  {
    if |a| > 0 {
      assert (a + b)[1..] == a[1..] + b;
      CreditsAppend(a[1..], b);
    } else {
      assert a + b == b;
    }
  }

  /** The page's credit state: the store and the list it last loaded or saved. */
  datatype Ledger = Ledger(store: History.Store, creditEvents: seq<CreditEvent>)

  predicate Synced(l: Ledger) {
    l.creditEvents == History.LoadCreditEvents(l.store)
  }

  function Balance(l: Ledger): int {
    Credits(l.creditEvents)
  }

  /** `pushCreditEvent`: add to the stored log and show the returned list. */
  function PushCreditEvent(l: Ledger, e: CreditEvent): (r: Ledger)
    ensures Synced(r)
    ensures r.creditEvents == History.AddTrim(e, History.LoadCreditEvents(l.store), History.CreditCap)
  {
    var (store', next) := History.AddCreditEvent(l.store, e);
    History.AddCreditThenLoad(l.store, e);
    Ledger(store', next)
  }

  function UseEvent(id: string, createdAt: string): CreditEvent {
    CreditEvent(id, createdAt, Use, 1, UseNote)
  }

  function ChargeEvent(id: string, createdAt: string, amount: int): CreditEvent {
    CreditEvent(id, createdAt, Charge, amount, "크레딧 충전 +" + IntToString(amount))
  }

  /** `consumeOneCredit`: refused, changing nothing, below one credit; otherwise one use of one
      credit is logged first. */
  function ConsumeOneCredit(l: Ledger, id: string, createdAt: string): (r: (bool, Ledger))
    ensures !r.0 <==> Balance(l) < 1
    ensures !r.0 ==> r.1 == l
    ensures r.0 ==> Synced(r.1) && |r.1.creditEvents| >= 1 && r.1.creditEvents[0] == UseEvent(id, createdAt)
  {
    if Balance(l) < 1 then (false, l)
    else (true, PushCreditEvent(l, UseEvent(id, createdAt)))
  }

  /** `addCredits`: log a charge and return the notice naming the amount. */
  function AddCredits(l: Ledger, amount: int, id: string, createdAt: string): (r: (Ledger, string))
    ensures Synced(r.0) && |r.0.creditEvents| >= 1 && r.0.creditEvents[0] == ChargeEvent(id, createdAt, amount)
    ensures |r.1| > |ChargedNoticeSuffix| && r.1[|r.1| - |ChargedNoticeSuffix|..] == ChargedNoticeSuffix
  {
    (PushCreditEvent(l, ChargeEvent(id, createdAt, amount)), IntToString(amount) + ChargedNoticeSuffix)
  }

  /** The notice names the amount charged: the text before the fixed suffix reads back as it. */
  lemma ChargeNoticeNamesAmount(l: Ledger, amount: nat, id: string, createdAt: string)
    ensures var n := AddCredits(l, amount, id, createdAt).1;
      && AllDigits(n[..|n| - |ChargedNoticeSuffix|])
      && ParseDecimal(n[..|n| - |ChargedNoticeSuffix|]) == amount
  {
    var n := AddCredits(l, amount, id, createdAt).1;
    assert n[..|n| - |ChargedNoticeSuffix|] == Decimal(amount);
    ParseDecimalOfDecimal(amount);
  }

  /** How one logged event moves the page's balance: by its own amount while the log is below its
      cap; at the cap the oldest event falls off and its contribution leaves the balance too. */
  lemma PushBalance(l: Ledger, e: CreditEvent)
    requires Synced(l)
    ensures |l.creditEvents| < History.CreditCap ==> Balance(PushCreditEvent(l, e)) == Balance(l) + Delta(e)
    ensures |l.creditEvents| >= History.CreditCap ==>
      Balance(PushCreditEvent(l, e)) == Balance(l) + Delta(e) - Credits(l.creditEvents[History.CreditCap - 1..])
  {
    var es := l.creditEvents;
    var next := PushCreditEvent(l, e).creditEvents;
    History.AddTrimDrops(e, es, History.CreditCap);
    assert ([e] + es)[1..] == es;
    if |es| >= History.CreditCap {
      assert next + es[History.CreditCap - 1..] == [e] + es;
      CreditsAppend(next, es[History.CreditCap - 1..]);
    }
  }

  /** While the log is below its cap, a charge raises the balance by exactly its amount. */
  lemma ChargeBelowCap(l: Ledger, amount: int, id: string, createdAt: string)
    requires Synced(l) && |l.creditEvents| < History.CreditCap
    ensures Balance(AddCredits(l, amount, id, createdAt).0) == Balance(l) + amount
  {
    PushBalance(l, ChargeEvent(id, createdAt, amount));
  }

  /** While the log is below its cap, spending a credit lowers the balance by exactly one. */
  lemma ConsumeBelowCap(l: Ledger, id: string, createdAt: string)
    requires Synced(l) && |l.creditEvents| < History.CreditCap && Balance(l) >= 1
    ensures Balance(ConsumeOneCredit(l, id, createdAt).1) == Balance(l) - 1
  {
    History.AddTrimDrops(UseEvent(id, createdAt), l.creditEvents, History.CreditCap);
  }

  /** At the cap the oldest event falls off the log, and its amount falls out of the balance with
      it: spending one credit moves the balance by one plus the oldest event's effect. */
  lemma ConsumeAtCapLosesOldest(l: Ledger, id: string, createdAt: string)
    requires Synced(l) && |l.creditEvents| >= History.CreditCap && Balance(l) >= 1
    ensures Balance(ConsumeOneCredit(l, id, createdAt).1)
      == Balance(l) - 1 - Credits(l.creditEvents[History.CreditCap - 1..])
  {
    var es := l.creditEvents;
    var u := UseEvent(id, createdAt);
    var next := ConsumeOneCredit(l, id, createdAt).1.creditEvents;
    History.AddTrimDrops(u, es, History.CreditCap);
    assert next + es[History.CreditCap - 1..] == [u] + es;
    CreditsAppend(next, es[History.CreditCap - 1..]);
    assert ([u] + es)[1..] == es;
  }

  function Repeat(e: CreditEvent, n: nat): (s: seq<CreditEvent>)
    ensures |s| == n && forall i :: 0 <= i < n ==> s[i] == e
  {
    if n == 0 then [] else [e] + Repeat(e, n - 1)
  }

  lemma {:induction false} CreditsOfRepeat(e: CreditEvent, n: nat)
    ensures Credits(Repeat(e, n)) == n * Delta(e)
  {
    if n > 0 {
      assert Repeat(e, n)[1..] == Repeat(e, n - 1);
      CreditsOfRepeat(e, n - 1);
    }
  }

  /** A log of one hundred one-credit charges shows 100 credits; spending one leaves 98, not 99,
      because the oldest charge is trimmed away with the new entry. */
  lemma CappedLedgerCounterexample(charge: CreditEvent, id: string, createdAt: string)
    requires charge.kind == Charge && charge.amount == 1
    ensures var es := Repeat(charge, 100);
      var l := Ledger(map[History.CreditKey := History.CreditList(es)], es);
      && Synced(l) && Balance(l) == 100
      && ConsumeOneCredit(l, id, createdAt).0
      && Balance(ConsumeOneCredit(l, id, createdAt).1) == 98
  {
    var es := Repeat(charge, 100);
    var l := Ledger(map[History.CreditKey := History.CreditList(es)], es);
    CreditsOfRepeat(charge, 100);
    ConsumeAtCapLosesOldest(l, id, createdAt);
    assert es[History.CreditCap - 1..] == [charge];
  }

  // ---------------------------------------------------------------------------
  // The balance kept apart from the capped log
  // ---------------------------------------------------------------------------

  /** Credits with the balance as a running total beside the capped display log, so that trimming
      the log cannot change it. */
  datatype Account = Account(log: seq<CreditEvent>, balance: int)

  function Record(a: Account, e: CreditEvent): (r: Account)
    ensures r.balance == a.balance + Delta(e)
    ensures 1 <= |r.log| <= History.CreditCap && r.log[0] == e
  {
    Account(History.AddTrim(e, a.log, History.CreditCap), a.balance + Delta(e))
  }

  function RecordAll(a: Account, items: seq<CreditEvent>): Account
    decreases |items|
  {
    if |items| == 0 then a else RecordAll(Record(a, items[0]), items[1..])
  }

  /** Whatever was trimmed, the balance is the sum over every event ever recorded, and the log is
      the capped log the page keeps. */
  lemma {:induction false} RecordAllBalance(a: Account, items: seq<CreditEvent>)
    ensures RecordAll(a, items).balance == a.balance + Credits(items)
    ensures RecordAll(a, items).log == History.AddAll(items, a.log, History.CreditCap)
    decreases |items|
  {
    if |items| > 0 {
      RecordAllBalance(Record(a, items[0]), items[1..]);
    }
  }

  /** Spending a credit on the running total: refused below one, and otherwise exactly one less,
      at any log length. */
  function Consume(a: Account, id: string, createdAt: string): (r: (bool, Account))
    ensures !r.0 <==> a.balance < 1
    ensures !r.0 ==> r.1 == a
    ensures r.0 ==> r.1.balance == a.balance - 1 && |r.1.log| >= 1 && r.1.log[0] == UseEvent(id, createdAt)
  {
    if a.balance < 1 then (false, a) else (true, Record(a, UseEvent(id, createdAt)))
  }

  function ChargeAccount(a: Account, amount: int, id: string, createdAt: string): (r: Account)
    ensures r.balance == a.balance + amount && |r.log| >= 1 && r.log[0] == ChargeEvent(id, createdAt, amount)
  {
    Record(a, ChargeEvent(id, createdAt, amount))
  }

  /** Below the cap the running total and the page's fold agree. */
  lemma AccountAgreesBelowCap(a: Account, items: seq<CreditEvent>)
    requires a.log == [] && a.balance == 0 && |items| <= History.CreditCap
    ensures RecordAll(a, items).balance == Credits(RecordAll(a, items).log)
  {
    RecordAllBalance(a, items);
    History.AddAllIsOneTrim(items, [], History.CreditCap);
    assert History.Reverse(items) + [] == History.Reverse(items);
    assert History.Reverse(items)[..|items|] == History.Reverse(items);
    CreditsOfReverse(items);
  }

  lemma {:induction false} CreditsOfReverse(items: seq<CreditEvent>)
    ensures Credits(History.Reverse(items)) == Credits(items)
  {
    if |items| > 0 {
      CreditsOfReverse(items[1..]);
      CreditsAppend(History.Reverse(items[1..]), [items[0]]);
      assert Credits([items[0]]) == Delta(items[0]);
    }
  }

  // ---------------------------------------------------------------------------
  // Precision requests
  // ---------------------------------------------------------------------------

  /** `handleRunPrecision`: log a request for the plan with the credit it used. */
  function HandleRunPrecision(store: History.Store, plan: PrecisionPlan, usedCredit: int,
                              id: string, createdAt: string): (r: (History.Store, seq<PrecisionEvent>))
    ensures |r.1| >= 1 && r.1[0] == PrecisionEvent(id, createdAt, plan, usedCredit, Requested)
    ensures History.LoadPrecisionEvents(r.0) == r.1
    ensures History.LoadCreditEvents(r.0) == History.LoadCreditEvents(store)
  {
    History.AddPrecisionThenLoad(store, PrecisionEvent(id, createdAt, plan, usedCredit, Requested));
    History.AddPrecisionEvent(store, PrecisionEvent(id, createdAt, plan, usedCredit, Requested))
  }
}
