/** The modal variant of the withdraw form
    (`src/components/WithdrawModal.tsx`). It runs the same checks as the
    inline form; a success closes the modal instead of showing a message. */
module WithdrawModal {
  import opened Js
  import opened Text
  import WithdrawSection

  datatype ModalState = ModalState(
    userId: string,
    amount: string,
    clubBalance: Option<real>,
    isLoading: bool,
    isSubmitting: bool,
    error: Option<string>)

  /** `handleSubmit` up to the awaited `onWithdraw`; `amountNum` is
      `Number(amount)`. */
  function SubmitStart(s: ModalState, amountNum: Num): (r: (ModalState, Option<WithdrawSection.WithdrawCall>))
    ensures var v := WithdrawSection.Validate(s.userId, s.amount, amountNum, s.clubBalance);
            && (r.1.Some? <==> v.Accepted?)
            && (v.Rejected? ==> r.0 == s.(error := Some(v.message)))
            && (v.Accepted? ==> r.1 == Some(WithdrawSection.WithdrawCall(Trim(s.userId), amountNum)))
            && (v.Accepted? ==> r.0 == s.(isSubmitting := true, error := None))
  {
    match WithdrawSection.Validate(s.userId, s.amount, amountNum, s.clubBalance)
    case Rejected(msg) => (s.(error := Some(msg)), None)
    case Accepted(u, a) => (s.(isSubmitting := true, error := None), Some(WithdrawSection.WithdrawCall(u, a)))
  }

  /** `handleClose`: clears the form and the error; the second component
      says that `onClose` is invoked. */
  function Close(s: ModalState): (r: (ModalState, bool))
    ensures r.1
    ensures r.0.userId == [] && r.0.amount == [] && r.0.error.None?
    ensures r.0.clubBalance == s.clubBalance && r.0.isSubmitting == s.isSubmitting && r.0.isLoading == s.isLoading
  {
    (s.(userId := [], amount := [], error := None), true)
  }

  /** The rest of `handleSubmit`: a success closes the modal, a failure keeps
      the fields and shows the error; either way the submitting flag drops.
      The second component says whether `onClose` was invoked. */
  function SubmitFinish(s: ModalState, outcome: Outcome): (r: (ModalState, bool))
    ensures !r.0.isSubmitting
    ensures r.1 <==> outcome.Done?
    ensures outcome.Done? ==> r.0.userId == [] && r.0.amount == [] && r.0.error.None?
    ensures outcome.Threw? ==>
              r.0 == s.(isSubmitting := false,
                        error := Some(MessageOr(outcome.message, WithdrawSection.WithdrawFailed)))
  {
    match outcome
    case Done =>
      var (closed, _) := Close(s);
      (closed.(isSubmitting := false), true)
    case Threw(m) =>
      (s.(error := Some(MessageOr(m, WithdrawSection.WithdrawFailed)), isSubmitting := false), false)
  }

  /** `loadClubBalance` up to the awaited `getClubBalance`. */
  function LoadBalanceStart(s: ModalState): (r: ModalState)
    ensures r.isLoading && r.error.None?
    ensures r.userId == s.userId && r.amount == s.amount && r.clubBalance == s.clubBalance
  {
    s.(isLoading := true, error := None)
  }

  /** The rest of `loadClubBalance`: a failure forgets the balance and sets
      an error; loading ends either way. */
  function LoadBalanceFinish(s: ModalState, reply: WithdrawSection.BalanceReply): (r: ModalState)
    ensures !r.isLoading
    ensures reply.BalanceIs? ==> r.clubBalance == Some(reply.balance) && r.error == s.error
    ensures reply.BalanceThrew? ==>
              r.clubBalance.None? && r.error == Some(MessageOr(reply.message, WithdrawSection.BalanceUnavailable))
    ensures r.userId == s.userId && r.amount == s.amount
  {
    match reply
    case BalanceIs(b) => s.(clubBalance := Some(b), isLoading := false)
    case BalanceThrew(m) =>
      s.(error := Some(MessageOr(m, WithdrawSection.BalanceUnavailable)), clubBalance := None, isLoading := false)
  }

  /** The effect on `[isOpen, clubShortId]`: opening the modal for a known
      club starts loading the balance (the second component says that
      `getClubBalance` is called); otherwise nothing happens. */
  function Open(s: ModalState, isOpen: bool, clubShortId: string): (r: (ModalState, bool))
    ensures r.1 <==> isOpen && clubShortId != []
    ensures r.1 ==> r.0 == LoadBalanceStart(s)
    ensures !r.1 ==> r.0 == s
  {
    if isOpen && clubShortId != [] then (LoadBalanceStart(s), true) else (s, false)
  }

  /** Whatever the balance query answers, opening the modal ends with
      loading off, the typed fields and the submitting flag untouched; an
      answer clears the error and is stored. */
  lemma OpenLoadSettles(s: ModalState, isOpen: bool, clubShortId: string, reply: WithdrawSection.BalanceReply)
    requires Open(s, isOpen, clubShortId).1
    ensures var r := LoadBalanceFinish(Open(s, isOpen, clubShortId).0, reply);
            && !r.isLoading
            && r.userId == s.userId && r.amount == s.amount && r.isSubmitting == s.isSubmitting
            && (reply.BalanceIs? ==> r.error.None? && r.clubBalance == Some(reply.balance))
            && (reply.BalanceThrew? ==> r.error.Some? && r.clubBalance.None?)
  {
  }

  /** The modal and the inline form accept and refuse exactly the same
      inputs, with the same messages and the same call. */
  lemma SameChecksAsSection(m: ModalState, amountNum: Num)
    ensures var sec := WithdrawSection.SectionState(m.userId, m.amount, m.clubBalance, false, m.error, None);
            SubmitStart(m, amountNum).1 == WithdrawSection.SubmitStart(sec, amountNum).1
            && SubmitStart(m, amountNum).0.error == WithdrawSection.SubmitStart(sec, amountNum).0.error
  {
  }

  /** A submission that passes the checks holds the submitting flag until
      the call settles, and drops it whatever the outcome. */
  lemma SubmittingBracketsTheCall(s: ModalState, amountNum: Num, outcome: Outcome)
    requires SubmitStart(s, amountNum).1.Some?
    ensures SubmitStart(s, amountNum).0.isSubmitting
    ensures !SubmitFinish(SubmitStart(s, amountNum).0, outcome).0.isSubmitting
  {
  }
}
