/** The admin withdraw form (`src/components/WithdrawSection.tsx`): its
    validation chain, which the modal variant repeats, and the state changes
    around the withdraw and balance calls. Awaited calls are split into a
    start and a finish whose outcome is a parameter. */
module WithdrawSection {
  import opened Js
  import opened Text

  const UserIdMissing: string := "Введите User ID"
  const AmountInvalid: string := "Введите корректную сумму"
  const AmountOverBalance: string := "Сумма превышает баланс клуба"
  const WithdrawFailed: string := "Ошибка при выводе средств"
  const BalanceUnavailable: string := "Не удалось загрузить баланс клуба"
  const WithdrawDone: string := "Вывод средств выполнен успешно"

  /** The verdict of the checks before a withdrawal. */
  datatype Verdict = Rejected(message: string) | Accepted(userId: string, amount: Num)

  /** `!amount || isNaN(amountNum) || amountNum <= 0`. */
  predicate BadAmount(amountText: string, amountNum: Num) {
    amountText == [] || amountNum.NaN? || AtMostZero(amountNum)
  }

  /** `clubBalance !== null && amountNum > clubBalance`. */
  predicate OverBalance(amountNum: Num, balance: Option<real>) {
    balance.Some? && Exceeds(amountNum, balance.value)
  }

  /** The checks of `handleSubmit`, where `amountNum` is `Number(amount)`:
      user id, then amount, then balance; the first failing check decides
      the message, and only an input passing all three is accepted, with the
      trimmed user id. */
  function Validate(userId: string, amountText: string, amountNum: Num, balance: Option<real>): (r: Verdict)
    ensures r == Rejected(UserIdMissing) <==> Trim(userId) == []
    ensures r == Rejected(AmountInvalid) <==> Trim(userId) != [] && BadAmount(amountText, amountNum)
    ensures r == Rejected(AmountOverBalance) <==>
              Trim(userId) != [] && !BadAmount(amountText, amountNum) && OverBalance(amountNum, balance)
    ensures r.Accepted? <==>
              Trim(userId) != [] && !BadAmount(amountText, amountNum) && !OverBalance(amountNum, balance)
    ensures r.Accepted? ==> r.userId == Trim(userId) && r.amount == amountNum
  {
    if Trim(userId) == [] then Rejected(UserIdMissing)
    else if BadAmount(amountText, amountNum) then Rejected(AmountInvalid)
    else if OverBalance(amountNum, balance) then Rejected(AmountOverBalance)
    else Accepted(Trim(userId), amountNum)
  }

  /** A user id is refused exactly when it is made of spaces only. */
  lemma UserIdRejectedIffBlank(userId: string, amountText: string, amountNum: Num, balance: Option<real>)
    ensures Validate(userId, amountText, amountNum, balance) == Rejected(UserIdMissing) <==> AllSpace(userId)
  {
    TrimEmptyIffBlank(userId);
  }

  /** The balance check: an unknown balance never blocks, and the whole
      balance may be withdrawn. */
  lemma BalanceBoundary(userId: string, amountText: string, v: real, balance: Option<real>)
    requires Trim(userId) != [] && amountText != [] && 0.0 < v
    requires balance.None? || v <= balance.value
    ensures Validate(userId, amountText, Fin(v), balance).Accepted?
  {
  }

  datatype SectionState = SectionState(
    userId: string,
    amount: string,
    clubBalance: Option<real>,
    isLoadingBalance: bool,
    error: Option<string>,
    successMessage: Option<string>)

  /** The withdraw call a submit issues. */
  datatype WithdrawCall = WithdrawCall(userId: string, amount: Num)

  /** `handleSubmit` up to the awaited `onWithdraw`: a rejected input sets
      the inline error and issues no call; an accepted one clears both
      messages and calls `onWithdraw` with the trimmed user id. */
  function SubmitStart(s: SectionState, amountNum: Num): (r: (SectionState, Option<WithdrawCall>))
    ensures r.1.Some? <==> Validate(s.userId, s.amount, amountNum, s.clubBalance).Accepted?
    ensures r.1.None? ==> r.0 == s.(error := Some(Validate(s.userId, s.amount, amountNum, s.clubBalance).message))
    ensures r.1.Some? ==>
              r.1.value == WithdrawCall(Trim(s.userId), amountNum) && r.0 == s.(error := None, successMessage := None)
  {
    match Validate(s.userId, s.amount, amountNum, s.clubBalance)
    case Rejected(msg) => (s.(error := Some(msg)), None)
    case Accepted(u, a) => (s.(error := None, successMessage := None), Some(WithdrawCall(u, a)))
  }

  /** `loadClubBalance` up to the awaited `getClubBalance`. */
  function LoadBalanceStart(s: SectionState): (r: SectionState)
    ensures r.isLoadingBalance && r.error.None?
    ensures r.userId == s.userId && r.amount == s.amount && r.clubBalance == s.clubBalance
  {
    s.(isLoadingBalance := true, error := None)
  }

  /** The balance query's result. */
  datatype BalanceReply = BalanceIs(balance: real) | BalanceThrew(message: string)

  /** The rest of `loadClubBalance`: a failure forgets the balance and
      reports an error; the loading flag is cleared either way. */
  function LoadBalanceFinish(s: SectionState, reply: BalanceReply): (r: SectionState)
    ensures !r.isLoadingBalance
    ensures reply.BalanceIs? ==> r.clubBalance == Some(reply.balance) && r.error == s.error
    ensures reply.BalanceThrew? ==>
              r.clubBalance.None? && r.error == Some(MessageOr(reply.message, BalanceUnavailable))
    ensures r.userId == s.userId && r.amount == s.amount && r.successMessage == s.successMessage
  {
    match reply
    case BalanceIs(b) => s.(clubBalance := Some(b), isLoadingBalance := false)
    case BalanceThrew(m) =>
      s.(error := Some(MessageOr(m, BalanceUnavailable)), clubBalance := None, isLoadingBalance := false)
  }

  /** The effect on `[isActive, clubShortId]`: while the section is the
      active step for a known club it starts loading the balance (the second
      component says that `getClubBalance` is called); otherwise nothing
      happens. */
  function Activate(s: SectionState, isActive: bool, clubShortId: string): (r: (SectionState, bool))
    ensures r.1 <==> isActive && clubShortId != []
    ensures r.1 ==> r.0 == LoadBalanceStart(s)
    ensures !r.1 ==> r.0 == s
  {
    if isActive && clubShortId != [] then (LoadBalanceStart(s), true) else (s, false)
  }

  /** Whatever the balance query answers, an activation that loads the
      balance ends with loading off and the typed fields and success
      message untouched; an answer clears the error and is stored. */
  lemma ActivationLoadSettles(s: SectionState, isActive: bool, clubShortId: string, reply: BalanceReply)
    requires Activate(s, isActive, clubShortId).1
    ensures var r := LoadBalanceFinish(Activate(s, isActive, clubShortId).0, reply);
            && !r.isLoadingBalance
            && r.userId == s.userId && r.amount == s.amount && r.successMessage == s.successMessage
            && (reply.BalanceIs? ==> r.error.None? && r.clubBalance == Some(reply.balance))
            && (reply.BalanceThrew? ==> r.error.Some? && r.clubBalance.None?)
  {
  }

  /** The rest of `handleSubmit` once `onWithdraw` settles. A success
      clears both fields, reports success and starts reloading the balance;
      a failure sets the inline error and hands the same message to
      `onError`, the second component of the result. */
  function SubmitFinish(s: SectionState, outcome: Outcome): (r: (SectionState, Option<string>))
    ensures outcome.Done? ==>
              && r.1.None? && r.0.userId == [] && r.0.amount == []
              && r.0.successMessage == Some(WithdrawDone) && r.0.isLoadingBalance && r.0.error.None?
    ensures outcome.Threw? ==>
              r.1 == Some(MessageOr(outcome.message, WithdrawFailed)) && r.0 == s.(error := r.1)
  {
    match outcome
    case Done => (LoadBalanceStart(s.(successMessage := Some(WithdrawDone), userId := [], amount := [])), None)
    case Threw(m) =>
      var msg := MessageOr(m, WithdrawFailed);
      (s.(error := Some(msg)), Some(msg))
  }

  /** A submit that reaches the call and fails leaves the typed user id and
      amount in place for another attempt. */
  lemma FailedWithdrawKeepsInput(s: SectionState, amountNum: Num, m: string)
    requires SubmitStart(s, amountNum).1.Some?
    ensures var s' := SubmitFinish(SubmitStart(s, amountNum).0, Threw(m)).0;
            s'.userId == s.userId && s'.amount == s.amount && s'.error.Some?
  {
  }
}
