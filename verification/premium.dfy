/** The precision-analysis panel: choosing a plan, and the gate in front of a precision request
    (login first, then a credit for the free plan). The gate takes the credit-spending callback
    as a parameter, and is stated both over the page's capped credit log and over the corrected
    running-total account. */
module Premium {
  import opened Wrappers
  import opened Types
  import Home
  import History

  const FreePlanMessage: string := "현재 Free 플랜입니다."
  const LoginRequiredMessage: string := "정밀 분석은 로그인 후 이용 가능합니다."
  const NoCreditMessage: string := "크레딧이 부족합니다. 마이페이지에서 크레딧을 충전해주세요."
  const AcceptedMessage: string := "정밀 분석 요청이 접수되었습니다. 백엔드 연결 후 실제 결과가 제공됩니다."

  function PlanLabel(plan: PrecisionPlan): string {
    match plan
    case Free => "Free"
    case Plus => "Plus"
    case Pro => "Pro"
  }

  /** The precision shown for a plan. */
  function PrecisionLabel(plan: PrecisionPlan): string {
    if plan == Pro then "정밀도 높음"
    else if plan == Plus then "정밀도 향상"
    else "기본 정밀도"
  }

  /** The three plans have three different precision labels and three different plan names. */
  lemma LabelsDistinct(a: PrecisionPlan, b: PrecisionPlan)
    ensures PrecisionLabel(a) == PrecisionLabel(b) <==> a == b
    ensures PlanLabel(a) == PlanLabel(b) <==> a == b
  {
  }

  datatype PremiumState = PremiumState(selectedPlan: PrecisionPlan, message: string)

  const InitialState: PremiumState := PremiumState(Free, "")

  /** `handleUpgrade`: select the plan, with the free-plan message or one naming the trial plan. */
  function HandleUpgrade(s: PremiumState, plan: PrecisionPlan): (r: PremiumState)
    ensures r.selectedPlan == plan
  {
    if plan == Free then PremiumState(plan, FreePlanMessage)
    else PremiumState(plan, PlanLabel(plan) + " 플랜 체험 상태로 전환되었습니다. (임시)")
  }

  /** The upgrade message tells the plans apart: it names the plan chosen. */
  lemma UpgradeMessageNamesPlan(s: PremiumState, a: PrecisionPlan, b: PrecisionPlan)
    ensures HandleUpgrade(s, a).message == HandleUpgrade(s, b).message <==> a == b
  {
    var ma := HandleUpgrade(s, a).message;
    var mb := HandleUpgrade(s, b).message;
    if a != b && a != Free && b != Free {
      assert ma[0] != mb[0] || ma[1] != mb[1];
    }
  }

  /** A precision run: the panel afterwards, the credit state afterwards, and the request passed
      on (plan and credits used), if any. */
  datatype PrecisionRun<L> = PrecisionRun(state: PremiumState, credits: L, request: Option<(PrecisionPlan, int)>)

  /** `handleRunPrecision`: refused without login; on the free plan the `onConsumeCredit`
      callback is asked for one credit first and the run refused when it declines; paid plans
      never call it. The callback is a parameter: the page passes its `consumeOneCredit`. */
  function HandleRunPrecision<L>(s: PremiumState, isLoggedIn: bool, credits: L,
                                 consume: L -> (bool, L)): (r: PrecisionRun<L>)
    ensures r.state.selectedPlan == s.selectedPlan
    ensures r.request.Some? <==> r.state.message == AcceptedMessage
  {
    if !isLoggedIn then
      PrecisionRun(s.(message := LoginRequiredMessage), credits, None)
    else if s.selectedPlan == Free then
      var (consumed, credits') := consume(credits);
      if !consumed then PrecisionRun(s.(message := NoCreditMessage), credits', None)
      else PrecisionRun(s.(message := AcceptedMessage), credits', Some((Free, 1)))
    else
      PrecisionRun(s.(message := AcceptedMessage), credits, Some((s.selectedPlan, 0)))
  }

  /** The gate's four outcomes, for any spending callback. */
  lemma PrecisionGate<L>(s: PremiumState, isLoggedIn: bool, credits: L, consume: L -> (bool, L))
    ensures var r := HandleRunPrecision(s, isLoggedIn, credits, consume);
      && (!isLoggedIn ==>
            r.state.message == LoginRequiredMessage && r.credits == credits && r.request.None?)
      && (isLoggedIn && s.selectedPlan == Free && !consume(credits).0 ==>
            r.state.message == NoCreditMessage && r.credits == consume(credits).1 && r.request.None?)
      && (isLoggedIn && s.selectedPlan == Free && consume(credits).0 ==>
            r.request == Some((Free, 1)) && r.credits == consume(credits).1)
      && (isLoggedIn && s.selectedPlan != Free ==>
            r.request == Some((s.selectedPlan, 0)) && r.credits == credits)
  {
  }

  /** The page's `consumeOneCredit`, over the capped credit log. */
  function LedgerSpend(id: string, createdAt: string): Home.Ledger -> (bool, Home.Ledger) {
    l => Home.ConsumeOneCredit(l, id, createdAt)
  }

  /** The corrected spend, over the running-total account. */
  function AccountSpend(id: string, createdAt: string): Home.Account -> (bool, Home.Account) {
    a => Home.Consume(a, id, createdAt)
  }

  /** The gate as the page wires it: a free-plan request is accepted exactly when the page's
      balance is at least one, and logs a use first. Below the log's cap it then costs exactly the
      credit it says it used; at the cap it also costs the trimmed oldest event's contribution. */
  lemma LedgerGate(s: PremiumState, isLoggedIn: bool, l: Home.Ledger, id: string, createdAt: string)
    requires Home.Synced(l)
    ensures var r := HandleRunPrecision(s, isLoggedIn, l, LedgerSpend(id, createdAt));
      && (isLoggedIn && s.selectedPlan == Free ==> (r.request.Some? <==> Home.Balance(l) >= 1))
      && (r.request.None? || s.selectedPlan != Free ==> r.credits == l)
      && (r.request.Some? && s.selectedPlan == Free ==>
            && r.credits.creditEvents[0] == Home.UseEvent(id, createdAt)
            && (|l.creditEvents| < History.CreditCap ==>
                  Home.Balance(r.credits) == Home.Balance(l) - r.request.value.1)
            && (|l.creditEvents| >= History.CreditCap ==>
                  Home.Balance(r.credits) == Home.Balance(l) - r.request.value.1
                    - Home.Credits(l.creditEvents[History.CreditCap - 1..])))
  {
    var spend := LedgerSpend(id, createdAt);
    PrecisionGate(s, isLoggedIn, l, spend);
    if isLoggedIn && s.selectedPlan == Free && Home.Balance(l) >= 1 {
      assert spend(l) == Home.ConsumeOneCredit(l, id, createdAt);
      Home.PushBalance(l, Home.UseEvent(id, createdAt));
    }
  }

  /** With the corrected account, credits used by an accepted request are exactly what the
      account lost, at any log length, and a refused request costs nothing. */
  lemma RequestPaysWhatItUses(s: PremiumState, isLoggedIn: bool, account: Home.Account, id: string, createdAt: string)
    ensures var r := HandleRunPrecision(s, isLoggedIn, account, AccountSpend(id, createdAt));
      r.request.Some? ==> r.credits.balance == account.balance - r.request.value.1
    ensures var r := HandleRunPrecision(s, isLoggedIn, account, AccountSpend(id, createdAt));
      r.request.None? ==> r.credits == account
    ensures var r := HandleRunPrecision(s, isLoggedIn, account, AccountSpend(id, createdAt));
      isLoggedIn && s.selectedPlan == Free ==> (r.request.Some? <==> account.balance >= 1)
  {
    PrecisionGate(s, isLoggedIn, account, AccountSpend(id, createdAt));
  }
}
