/** The purchase flow of `src/App.tsx`: the step machine
    `form → packages → summary → success | error` (plus `withdraw`), the
    handlers that move it, the guards of the payment request, and the
    withdraw call handed to the admin form. Backend, wallet and chain results
    are parameters; handlers that await are split into a start and a
    finish. */
module PurchaseFlow {
  import opened Js
  import opened Text
  import opened Types
  import PackagesSection
  import SummarySection

  const AccountKey: string := "tg_club_chip_sales_account"
  const ClubKey: string := "tg_club_chip_sales_club"

  const WalletRequired: string := "Пожалуйста, подключите TON кошелек для оплаты."
  const PaymentAccepted: string := "Оплата принята. Фишки появятся на балансе в ближайшие секунды."
  const PaymentFailed: string := "Не удалось выполнить оплату."
  const IdsMissing: string := "Не указаны ID аккаунта или клуба"
  const TransactionUnavailable: string := "Не удалось инициализировать транзакцию. Проверьте подключение кошелька."
  const ClubIdMissing: string := "ID клуба не указан"
  const WithdrawFailed: string := "Ошибка при выводе средств"

  /** The Telegram user id sent when the Mini App supplies none. */
  const DefaultTelegramUserId: int := 6485315240

  /** The USDT price of one chip the payment converts with. */
  const UsdtPerChip: real := 0.01

  /** The screen state of the purchase flow. The app stores the selection
      as the text `String(amount)` and reads it back with `Number`, which
      gives the same number again; `selectedAmount` holds that number. */
  datatype FlowState = FlowState(
    step: Step,
    accountShortId: string,
    clubShortId: string,
    preview: Option<Preview>,
    selectedAmount: Option<Num>,
    clubInfo: Option<ClubInfo>,
    clubMessage: string,
    errorMessage: string,
    errorContacts: seq<Contact>,
    isLoading: bool,
    successMessage: string)

  /** The flow as the app mounts it. */
  function Initial(initialAccount: string, initialClub: string): (s: FlowState)
    ensures s.step == Form && s.preview.None? && s.selectedAmount.None? && !s.isLoading
    ensures s.accountShortId == initialAccount && s.clubShortId == initialClub
  {
    FlowState(Form, initialAccount, initialClub, None, None, None, "", "", [], false, "")
  }

  /** The storage effect: an empty field fills from its stored value unless
      the field is locked. */
  function InitFromStorage(s: FlowState, accountLocked: bool, clubLocked: bool,
                           storedAccount: Option<string>, storedClub: Option<string>): (r: FlowState)
    ensures !accountLocked && s.accountShortId == [] && TruthyOptStr(storedAccount) ==>
              r.accountShortId == storedAccount.value
    ensures accountLocked || s.accountShortId != [] || !TruthyOptStr(storedAccount) ==>
              r.accountShortId == s.accountShortId
    ensures !clubLocked && s.clubShortId == [] && TruthyOptStr(storedClub) ==> r.clubShortId == storedClub.value
    ensures clubLocked || s.clubShortId != [] || !TruthyOptStr(storedClub) ==> r.clubShortId == s.clubShortId
    ensures r == s.(accountShortId := r.accountShortId, clubShortId := r.clubShortId)
  {
    var account := if !accountLocked && s.accountShortId == [] && TruthyOptStr(storedAccount)
                   then storedAccount.value else s.accountShortId;
    var club := if !clubLocked && s.clubShortId == [] && TruthyOptStr(storedClub)
                then storedClub.value else s.clubShortId;
    s.(accountShortId := account, clubShortId := club)
  }

  /** A `localStorage` write, key and value. */
  datatype StorageWrite = StorageWrite(key: string, value: string)

  /** `persistInputs`: the non-empty fields are written, account first. */
  function PersistInputs(account: string, club: string): (w: seq<StorageWrite>)
    ensures StorageWrite(AccountKey, account) in w <==> account != []
    ensures StorageWrite(ClubKey, club) in w <==> club != []
    ensures forall x :: x in w ==> x == StorageWrite(AccountKey, account) || x == StorageWrite(ClubKey, club)
    ensures forall x :: x in w ==> x.value != []
  {
    (if account != [] then [StorageWrite(AccountKey, account)] else [])
    + (if club != [] then [StorageWrite(ClubKey, club)] else [])
  }

  /** The sale terms the live form submit stores: one chip costs 0.01
      USDT, with the quick packages 100, 500, 1000 and 5000 chips and custom
      amounts from 1 to 100000. */
  function MockSale(): (sale: Sale)
    ensures sale.quickPackages == [100, 500, 1000, 5000] && sale.pricePerChip == UsdtPerChip
    ensures sale.allowCustomAmount
  {
    Sale(UsdtPerChip, None, [100, 500, 1000, 5000], true, Some(1.0), Some(100000.0), None, None)
  }

  /** The club the live form submit stores: titled `Клуб <club>`, with
      the typed club id as its short id. */
  function MockClub(club: string): (c: ClubInfo)
    ensures c.title == Some(ClubWord + club) && c.shortId == Some(IdText(club))
    ensures c.logo.None? && c.contacts.None?
  {
    ClubInfo(None, Some(ClubWord + club), Some(IdText(club)), None, None, None, None)
  }

  /** The preview the live form submit stores in place of a backend
      answer. */
  function MockPreview(club: string): (p: Preview)
    ensures p.allowed && p.sale == Some(MockSale()) && p.club == Some(MockClub(club))
    ensures p.memberBalance == Some(0.0)
  {
    Preview(true, None, None, Some(MockClub(club)), Some(MockSale()), Some(0.0))
  }

  /** `handleFormSubmit`. The account is trimmed, the club only when it is
      not locked. A blank one of the two changes nothing and writes nothing.
      Otherwise the trimmed inputs, the mock preview and its club are
      stored, the step moves to `packages`, and the inputs are persisted --
      with the values as they were before trimming, because `persistInputs`
      reads the fields of the render that ran the submit. */
  function FormSubmit(s: FlowState, clubLocked: bool): (r: (FlowState, seq<StorageWrite>))
    ensures var club := if clubLocked then s.clubShortId else Trim(s.clubShortId);
            (Trim(s.accountShortId) == [] || club == []) <==> r == (s, [])
    ensures var club := if clubLocked then s.clubShortId else Trim(s.clubShortId);
            Trim(s.accountShortId) != [] && club != [] ==>
              && r.0.step == Packages && !r.0.isLoading
              && r.0.accountShortId == Trim(s.accountShortId) && r.0.clubShortId == club
              && r.0.preview == Some(MockPreview(club)) && r.0.clubInfo == Some(MockClub(club))
              && r.0.clubMessage == []
              && r.0.selectedAmount == s.selectedAmount && r.0.errorMessage == s.errorMessage
              && r.1 == PersistInputs(s.accountShortId, s.clubShortId)
  {
    var account := Trim(s.accountShortId);
    var club := if clubLocked then s.clubShortId else Trim(s.clubShortId);
    if account == [] || club == [] then (s, [])
    else
      var preview := MockPreview(club);
      var s' := s.(accountShortId := account, clubShortId := club, preview := Some(preview),
                   clubInfo := preview.club, clubMessage := OrElse(preview.sale.value.customMessage, ""),
                   step := Packages, isLoading := false);
      assert s.accountShortId != [];
      assert StorageWrite(AccountKey, s.accountShortId) in PersistInputs(s.accountShortId, s.clubShortId);
      (s', PersistInputs(s.accountShortId, s.clubShortId))
  }

  /** Storing a value again changes nothing: a field is only filled while
      it is empty, and a filled field stays as it is. */
  lemma InitFromStorageIdempotent(s: FlowState, accountLocked: bool, clubLocked: bool,
                                  storedAccount: Option<string>, storedClub: Option<string>)
    ensures var r := InitFromStorage(s, accountLocked, clubLocked, storedAccount, storedClub);
            InitFromStorage(r, accountLocked, clubLocked, storedAccount, storedClub) == r
  {
  }

  /** For every input: a refused submit writes nothing, and an accepted
      one stores trimmed ids but persists the inputs as typed, so the
      account written trims to the stored account, and so does the club
      unless it is locked (then it is written exactly as stored). */
  lemma SubmitPersistsUntrimmedInputs(s: FlowState, clubLocked: bool)
    ensures var club := if clubLocked then s.clubShortId else Trim(s.clubShortId);
            Trim(s.accountShortId) == [] || club == [] ==> FormSubmit(s, clubLocked).1 == []
    ensures var club := if clubLocked then s.clubShortId else Trim(s.clubShortId);
            Trim(s.accountShortId) != [] && club != [] ==>
              && StorageWrite(AccountKey, s.accountShortId) in FormSubmit(s, clubLocked).1
              && forall x :: x in FormSubmit(s, clubLocked).1 ==>
                   if x.key == AccountKey then Trim(x.value) == FormSubmit(s, clubLocked).0.accountShortId
                   else if clubLocked then x.value == FormSubmit(s, clubLocked).0.clubShortId
                   else Trim(x.value) == FormSubmit(s, clubLocked).0.clubShortId
  {
    var club := if clubLocked then s.clubShortId else Trim(s.clubShortId);
    if Trim(s.accountShortId) != [] && club != [] {
      PersistedValuesAreInputs(s.accountShortId, s.clubShortId);
    }
  }

  /** Each write carries the field its key names. */
  lemma PersistedValuesAreInputs(account: string, club: string)
    ensures forall x :: x in PersistInputs(account, club) ==>
              if x.key == AccountKey then x.value == account else x.key == ClubKey && x.value == club
  {
    assert AccountKey != ClubKey by { assert AccountKey[19] != ClubKey[19]; }
  }

  /** Submitting the stored ids again keeps them: they are trimmed already. */
  lemma ResubmitKeepsIds(s: FlowState, clubLocked: bool)
    requires FormSubmit(s, clubLocked).0.step == Packages
    ensures var r := FormSubmit(s, clubLocked).0;
            FormSubmit(r, clubLocked).0.accountShortId == r.accountShortId
            && FormSubmit(r, clubLocked).0.clubShortId == r.clubShortId
  {
    TrimIdempotent(s.accountShortId);
    TrimIdempotent(s.clubShortId);
  }

  /** `handleAmountSelect`: stores the amount and moves to `summary`. */
  function AmountSelect(s: FlowState, amount: Num): (r: FlowState)
    ensures r.step == Summary && r.selectedAmount == Some(amount)
    ensures r.(step := s.step, selectedAmount := s.selectedAmount) == s
  {
    s.(selectedAmount := Some(amount), step := Summary)
  }

  /** `handleSummaryBack`: back to `packages`, the preview and selection
      untouched. */
  function SummaryBack(s: FlowState): (r: FlowState)
    ensures r.step == Packages && r.(step := s.step) == s
  {
    s.(step := Packages)
  }

  /** `handleErrorRetry`: back to `form`; nothing else is cleared. */
  function ErrorRetry(s: FlowState): (r: FlowState)
    ensures r.step == Form && r.(step := s.step) == s
  {
    s.(step := Form)
  }

  /** `!!selectedAmount`. The stored text `String(amount)` is never empty
      (`"0"` and `"NaN"` included), so only `null` is falsy. */
  predicate HasSelection(s: FlowState) {
    s.selectedAmount.Some?
  }

  /** `handleSummaryConfirm` up to the awaited `sendPaymentRequest`. With
      no selection nothing happens. Without a connected wallet and address
      the flow shows the wallet error with no contacts and pays nothing.
      Otherwise loading starts and the payment is requested for
      `Number(selectedAmount)` chips (the second component). */
  function ConfirmStart(s: FlowState, connected: bool, walletAddress: Option<string>): (r: (FlowState, Option<Num>))
    ensures !HasSelection(s) ==> r == (s, None)
    ensures HasSelection(s) && !(connected && TruthyOptStr(walletAddress)) ==>
              r == (s.(errorMessage := WalletRequired, errorContacts := [], step := Error), None)
    ensures r.1.Some? <==> HasSelection(s) && connected && TruthyOptStr(walletAddress)
    ensures r.1.Some? ==> r.1.value == s.selectedAmount.value && r.0 == s.(isLoading := true)
  {
    if !HasSelection(s) then (s, None)
    else if !connected || !TruthyOptStr(walletAddress) then
      (s.(errorMessage := WalletRequired, errorContacts := [], step := Error), None)
    else (s.(isLoading := true), Some(s.selectedAmount.value))
  }

  /** The rest of `handleSummaryConfirm` once the payment settles: success
      shows the fixed message, a thrown error its message (or the default)
      with no contacts; loading ends either way. */
  function ConfirmFinish(s: FlowState, payment: Outcome): (r: FlowState)
    ensures !r.isLoading
    ensures payment.Done? <==> r.step == Success
    ensures payment.Done? ==> r.successMessage == PaymentAccepted && r.errorMessage == s.errorMessage
    ensures payment.Threw? ==>
              && r.step == Error && r.errorMessage == MessageOr(payment.message, PaymentFailed)
              && r.errorContacts == [] && r.successMessage == s.successMessage
    ensures r.preview == s.preview && r.selectedAmount == s.selectedAmount
  {
    match payment
    case Done => s.(successMessage := PaymentAccepted, step := Success, isLoading := false)
    case Threw(m) => s.(errorMessage := MessageOr(m, PaymentFailed), errorContacts := [], step := Error, isLoading := false)
  }

  /** The `createTransaction` call: account and club ids (as typed; the
      call converts them with `Number`), chips and Telegram user. */
  datatype CreateTxRequest = CreateTxRequest(account: string, club: string, chips: Num, telegramUserId: int)

  /** `createTransaction`'s answer: a comment with its memo and address,
      none, or a thrown error. */
  datatype TxReply = TxComment(memo: string, address: string) | TxNone | TxThrew(message: string)

  /** The jetton transfer the payment sends, before `calculateUsdtAmount`
      converts the USDT amount to jetton units. */
  datatype TransferRequest = TransferRequest(memo: string, toAddress: string, usdtAmount: Num)

  /** What one `sendPaymentRequest` call did: the transaction it asked the
      backend for, the transfer it sent, and how it ended. */
  datatype PaymentTrace = PaymentTrace(createTx: Option<CreateTxRequest>, transfer: Option<TransferRequest>, outcome: Outcome)

  /** `sendPaymentRequest(chips)`. Missing ids throw before any call. The
      backend transaction is requested with the Telegram user id, or the
      fixed default. A missing TON client, wallet address or comment throws;
      otherwise `chips * 0.01` USDT are transferred to the comment's address
      with its memo, and the chain's outcome (`chain`, which covers the
      jetton-wallet lookup and the transfer) is the call's outcome. */
  function SendPaymentRequest(account: string, club: string, chips: Num, userId: Option<int>,
                              tx: TxReply, hasTonClient: bool, walletAddress: Option<string>, chain: Outcome)
    : (r: PaymentTrace)
    ensures account == [] || club == [] <==> r.createTx.None?
    ensures r.createTx.None? ==> r == PaymentTrace(None, None, Threw(IdsMissing))
    ensures r.createTx.Some? ==>
              r.createTx.value == CreateTxRequest(account, club, chips,
                                                  if TruthyOptInt(userId) then userId.value else DefaultTelegramUserId)
    ensures r.transfer.Some? <==>
              r.createTx.Some? && tx.TxComment? && hasTonClient && TruthyOptStr(walletAddress)
    ensures r.transfer.Some? ==>
              r.transfer.value == TransferRequest(tx.memo, tx.address, MulFin(chips, UsdtPerChip)) && r.outcome == chain
    ensures r.createTx.Some? && tx.TxThrew? ==> r.outcome == Threw(tx.message)
    ensures r.createTx.Some? && !tx.TxThrew? && r.transfer.None? ==> r.outcome == Threw(TransactionUnavailable)
  {
    if account == [] || club == [] then PaymentTrace(None, None, Threw(IdsMissing))
    else
      var telegramUserId := if TruthyOptInt(userId) then userId.value else DefaultTelegramUserId;
      var request := Some(CreateTxRequest(account, club, chips, telegramUserId));
      match tx
      case TxThrew(m) => PaymentTrace(request, None, Threw(m))
      case TxNone => PaymentTrace(request, None, Threw(TransactionUnavailable))
      case TxComment(memo, address) =>
        if !hasTonClient || !TruthyOptStr(walletAddress) then PaymentTrace(request, None, Threw(TransactionUnavailable))
        else PaymentTrace(request, Some(TransferRequest(memo, address, MulFin(chips, UsdtPerChip))), chain)
  }

  /** The environment of one confirm: wallet state and every reply the
      payment may receive. */
  datatype PaymentEnv = PaymentEnv(
    connected: bool,
    walletAddress: Option<string>,
    userId: Option<int>,
    tx: TxReply,
    hasTonClient: bool,
    chain: Outcome)

  /** A whole `handleSummaryConfirm`: the start, the payment (when it is
      made), and the finish. */
  function Confirm(s: FlowState, env: PaymentEnv): (r: (FlowState, Option<PaymentTrace>))
    ensures r.1.Some? <==> HasSelection(s) && env.connected && TruthyOptStr(env.walletAddress)
    ensures r.1.None? ==> r.0 == ConfirmStart(s, env.connected, env.walletAddress).0
    ensures r.1.Some? ==> r.0 == ConfirmFinish(s.(isLoading := true), r.1.value.outcome)
  {
    match ConfirmStart(s, env.connected, env.walletAddress)
    case (s1, None) => (s1, None)
    case (s1, Some(chips)) =>
      var trace := SendPaymentRequest(s.accountShortId, s.clubShortId, chips, env.userId,
                                      env.tx, env.hasTonClient, env.walletAddress, env.chain);
      (ConfirmFinish(s1, trace.outcome), Some(trace))
  }

  /** The flow reaches `success` only through a transfer that was sent and
      confirmed, for the chips the user selected, from a connected wallet;
      and every attempt that does not reach `success` and gets past the
      selection check shows the error screen. */
  lemma SuccessOnlyAfterTransfer(s: FlowState, env: PaymentEnv)
    requires s.step != Success
    ensures var (r, trace) := Confirm(s, env);
            r.step == Success ==>
              && env.connected && TruthyOptStr(env.walletAddress)
              && trace.Some? && trace.value.transfer.Some? && env.chain.Done?
              && trace.value.transfer.value.usdtAmount == MulFin(s.selectedAmount.value, UsdtPerChip)
    ensures var (r, _) := Confirm(s, env);
            HasSelection(s) ==> r.step == Success || r.step == Error
  {
  }

  /** The payment guard only asks whether a selection exists: a selection
      of 0 or NaN (a package priced at 0, say) with a connected wallet still
      requests a transaction, for that many chips, and without a wallet it
      shows the wallet error. */
  lemma FalsyNumbersStillSelect(s: FlowState, env: PaymentEnv, v: Num)
    requires v == Fin(0.0) || v.NaN?
    requires s.selectedAmount == Some(v)
    ensures env.connected && TruthyOptStr(env.walletAddress) && s.accountShortId != [] && s.clubShortId != [] ==>
              && Confirm(s, env).1.Some?
              && Confirm(s, env).1.value.createTx.Some?
              && Confirm(s, env).1.value.createTx.value.chips == v
    ensures !env.connected ==> Confirm(s, env).0.step == Error && Confirm(s, env).0.errorMessage == WalletRequired
  {
  }

  /** Retrying after a failed payment returns to the form with the old
      preview and selection still in place, so the packages and summary
      screens show the previous choice again. */
  lemma RetryKeepsPreviousChoice(s: FlowState, env: PaymentEnv)
    requires HasSelection(s) && Confirm(s, env).0.step == Error
    ensures var r := ErrorRetry(Confirm(s, env).0);
            r.step == Form && r.preview == s.preview && r.selectedAmount == s.selectedAmount
            && r.accountShortId == s.accountShortId && r.clubShortId == s.clubShortId
            && r.errorMessage != []
  {
  }

  /** A package click hands over the package's USDT price, but the summary
      and the payment read the selection as a number of chips. With the
      live sale terms, the 500-chip package is priced at 5 USDT, the summary
      then credits 5 chips at a displayed price of 0 (5 * 0.01 rounds to 0),
      and the transfer sent is 0.05 USDT. */
  lemma PackageSelectionIsReadAsChips(s: FlowState, picker: PackagesSection.PickerState, env: PaymentEnv)
    requires s.step == Packages && s.accountShortId != [] && s.clubShortId != []
    requires env.connected && TruthyOptStr(env.walletAddress) && env.tx.TxComment? && env.hasTonClient
    ensures var (_, effect) := PackagesSection.PackageClick(picker, MockSale(), true, 500);
            && effect == PackagesSection.SelectAmount(Fin(5.0))
            && var selected := AmountSelect(s, effect.usdt);
               && SummarySection.ComputeTotals(selected.selectedAmount, MockSale().pricePerChip, 0.0)
                    == SummarySection.Totals(Fin(5.0), Fin(0.0), Fin(5.0))
               && Confirm(selected, env).1.value.transfer.value.usdtAmount == Fin(0.05)
  {
    PackagesSection.CentPerChipPrice(500);
    assert Round(5.0 * 0.01) == 0;
  }

  /** The withdraw request `handleWithdraw` sends. */
  datatype WithdrawRequest = WithdrawRequest(userId: string, amount: Num, clubShortId: string)

  /** The withdraw endpoint's answer. */
  datatype WithdrawReply = WithdrawBody(success: bool, message: Option<string>) | WithdrawThrew(thrownMessage: string)

  /** `handleWithdraw(userId, amount)`: without a club it throws before any
      call; otherwise it sends the request and throws unless the reply
      reports success, with the reply's message or the default. */
  function HandleWithdraw(clubShortId: string, userId: string, amount: Num, reply: WithdrawReply)
    : (r: (Option<WithdrawRequest>, Outcome))
    ensures clubShortId == [] <==> r.0.None?
    ensures clubShortId == [] ==> r.1 == Threw(ClubIdMissing)
    ensures r.0.Some? ==> r.0.value == WithdrawRequest(userId, amount, clubShortId)
    ensures r.1.Done? <==> clubShortId != [] && reply.WithdrawBody? && reply.success
    ensures clubShortId != [] && reply.WithdrawBody? && !reply.success ==>
              r.1 == Threw(OrElse(reply.message, WithdrawFailed))
    ensures clubShortId != [] && reply.WithdrawThrew? ==> r.1 == Threw(reply.thrownMessage)
  {
    if clubShortId == [] then (None, Threw(ClubIdMissing))
    else
      var request := Some(WithdrawRequest(userId, amount, clubShortId));
      match reply
      case WithdrawThrew(m) => (request, Threw(m))
      case WithdrawBody(success, message) =>
        if success then (request, Done) else (request, Threw(OrElse(message, WithdrawFailed)))
  }

  /** A refused withdrawal always surfaces a non-empty message: the reply's
      own one, or the default. */
  lemma RefusedWithdrawHasMessage(clubShortId: string, userId: string, amount: Num, message: Option<string>)
    ensures HandleWithdraw(clubShortId, userId, amount, WithdrawBody(false, message)).1.Threw?
    ensures HandleWithdraw(clubShortId, userId, amount, WithdrawBody(false, message)).1.message != []
  {
  }
}
