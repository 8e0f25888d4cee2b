/** The wallet-proof reconciliation of
    `src/components/hooks/useTonWalletConnection.ts`: requesting a proof
    payload, verifying each new proof with the backend exactly once, and
    disconnecting whenever verification fails. The backend and the wallet
    library are parameters; awaited calls are split into a start and a
    finish. */
module WalletConnection {
  import opened Js

  const PayloadMissing: string := "Не удалось получить payload для подключения. Ответ сервера: "
  const PayloadFailed: string := "Ошибка при генерации payload"
  const ProofRejected: string := "Не удалось подтвердить подключение кошелька"
  const VerifyFailed: string := "Ошибка при подключении кошелька"

  /** The connect-request parameters handed to the wallet library. */
  datatype ConnectParams = ParamsNull | ParamsLoading | ParamsReady(tonProof: string)

  datatype WalletState = WalletState(
    lastProof: Option<string>,
    isConnecting: bool,
    isGeneratingPayload: bool,
    connectionError: Option<string>,
    connectParams: ConnectParams)

  /** `onConnectWallet` up to the awaited `generatePayload()`. */
  function ConnectStart(s: WalletState): (r: WalletState)
    ensures r.isGeneratingPayload && r.connectionError.None? && r.connectParams == ParamsLoading
    ensures r.lastProof == s.lastProof && r.isConnecting == s.isConnecting
  {
    s.(isGeneratingPayload := true, connectionError := None, connectParams := ParamsLoading)
  }

  /** What was thrown: an `Error` with its message, or some other value. */
  datatype Thrown = ErrorObject(message: string) | OtherValue

  /** The payload request's result: a response with its `payload` field and
      its JSON text, or a thrown value. */
  datatype PayloadReply =
    | PayloadBody(payload: Option<string>, json: string)
    | PayloadThrew(thrown: Thrown)

  /** The rest of `onConnectWallet`. A (truthy) payload becomes the proof
      request; anything else sets the connection error and resets the
      parameters to `null`. The generating flag drops either way. */
  function ConnectFinish(s: WalletState, reply: PayloadReply): (r: WalletState)
    ensures !r.isGeneratingPayload
    ensures r.lastProof == s.lastProof && r.isConnecting == s.isConnecting
    ensures r.connectParams.ParamsReady? <==> reply.PayloadBody? && TruthyOptStr(reply.payload)
    ensures r.connectParams.ParamsReady? ==>
              r.connectParams.tonProof == reply.payload.value && r.connectionError == s.connectionError
    ensures !r.connectParams.ParamsReady? ==> r.connectParams == ParamsNull && r.connectionError.Some?
    ensures reply.PayloadBody? && !TruthyOptStr(reply.payload) ==>
              r.connectionError == Some(PayloadMissing + reply.json)
    ensures reply.PayloadThrew? && reply.thrown.ErrorObject? ==> r.connectionError == Some(reply.thrown.message)
    ensures reply.PayloadThrew? && reply.thrown.OtherValue? ==> r.connectionError == Some(PayloadFailed)
  {
    var s1 := s.(isGeneratingPayload := false);
    match reply
    case PayloadBody(payload, json) =>
      if TruthyOptStr(payload) then s1.(connectParams := ParamsReady(payload.value))
      else s1.(connectionError := Some(PayloadMissing + json), connectParams := ParamsNull)
    case PayloadThrew(thrown) =>
      var msg := match thrown
        case ErrorObject(m) => m
        case OtherValue => PayloadFailed;
      s1.(connectionError := Some(msg), connectParams := ParamsNull)
  }

  /** A whole `onConnectWallet`, start and finish: the parameters never
      stay loading and the generating flag is off; the connection error is
      cleared exactly when a payload arrived, and the proof state is left
      alone. */
  lemma ConnectSettles(s: WalletState, reply: PayloadReply)
    ensures var r := ConnectFinish(ConnectStart(s), reply);
            && r.connectParams != ParamsLoading && !r.isGeneratingPayload
            && (r.connectionError.None? <==> reply.PayloadBody? && TruthyOptStr(reply.payload))
            && r.lastProof == s.lastProof && r.isConnecting == s.isConnecting
  {
  }

  /** `onDisconnectWallet`, where `hookWallet` says whether the hook's
      `wallet` is set and `backend` is the outcome of `disconnectWallet()`.
      Without a wallet nothing happens; otherwise the wallet library is told
      to disconnect (the second component), and the last proof is forgotten
      only when the backend call succeeds. A failure is swallowed. */
  function Disconnect(s: WalletState, hookWallet: bool, backend: Outcome): (r: (WalletState, bool))
    ensures r.1 <==> hookWallet
    ensures !hookWallet ==> r.0 == s
    ensures hookWallet && backend.Done? ==> r.0 == s.(lastProof := None)
    ensures hookWallet && backend.Threw? ==> r.0 == s
  {
    if !hookWallet then (s, false)
    else match backend
      case Done => (s.(lastProof := None), true)
      case Threw(_) => (s, true)
  }

  /** The wallet passed to the status-change listener: none, one without a
      TON proof, or one with its already serialised proof and account. */
  datatype StatusEvent =
    | NoWallet
    | WalletWithoutProof
    | WalletWithProof(proof: string, address: string, publicKey: string)

  /** The backend request that verifies a proof. */
  datatype VerifyRequest = VerifyRequest(address: string, publicKey: string, proof: string)

  /** What the listener does next. */
  datatype StatusAction = Ignore | RunDisconnect | Verify(request: VerifyRequest)

  /** `handleStatusChange` up to the awaited `connectWallet`. No wallet
      means disconnect; a wallet without a proof, or with the proof already
      processed, means nothing; a new proof is recorded and the error
      cleared before verification is requested. */
  function StatusChangeStart(s: WalletState, ev: StatusEvent): (r: (WalletState, StatusAction))
    ensures ev.NoWallet? ==> r == (s, RunDisconnect)
    ensures ev.WalletWithoutProof? ==> r == (s, Ignore)
    ensures ev.WalletWithProof? && s.lastProof == Some(ev.proof) ==> r == (s, Ignore)
    ensures ev.WalletWithProof? && s.lastProof != Some(ev.proof) ==>
              && r.0 == s.(lastProof := Some(ev.proof), isConnecting := true, connectionError := None)
              && r.1 == Verify(VerifyRequest(ev.address, ev.publicKey, ev.proof))
  {
    match ev
    case NoWallet => (s, RunDisconnect)
    case WalletWithoutProof => (s, Ignore)
    case WalletWithProof(proof, address, publicKey) =>
      if s.lastProof == Some(proof) then (s, Ignore)
      else (s.(lastProof := Some(proof), isConnecting := true, connectionError := None),
            Verify(VerifyRequest(address, publicKey, proof)))
  }

  /** The verification call's result: a response whose `success` is or is
      not exactly `true`, or a thrown error with its (possibly empty)
      message. */
  datatype VerifyReply = VerifyBody(successIsTrue: bool) | VerifyThrew(message: string)

  /** Verification failed: anything but a response with `success === true`. */
  predicate Failed(reply: VerifyReply) {
    !(reply.VerifyBody? && reply.successIsTrue)
  }

  /** The rest of `handleStatusChange`. A failed verification runs
      `onDisconnectWallet` (outcome `backend`) and then sets the error; the
      connecting flag drops whatever happened. The second component says
      whether the wallet library was told to disconnect. */
  function StatusChangeFinish(s: WalletState, reply: VerifyReply, hookWallet: bool, backend: Outcome)
    : (r: (WalletState, bool))
    ensures !r.0.isConnecting
    ensures r.1 <==> Failed(reply) && hookWallet
    ensures !Failed(reply) ==> r.0 == s.(isConnecting := false)
    ensures reply.VerifyBody? && Failed(reply) ==> r.0.connectionError == Some(ProofRejected)
    ensures reply.VerifyThrew? ==> r.0.connectionError == Some(MessageOr(reply.message, VerifyFailed))
    ensures Failed(reply) ==> r.0.lastProof == Disconnect(s, hookWallet, backend).0.lastProof
    ensures r.0.isGeneratingPayload == s.isGeneratingPayload && r.0.connectParams == s.connectParams
  {
    if !Failed(reply) then (s.(isConnecting := false), false)
    else
      var (d, told) := Disconnect(s, hookWallet, backend);
      var msg := match reply
        case VerifyBody(_) => ProofRejected
        case VerifyThrew(m) => MessageOr(m, VerifyFailed);
      (d.(connectionError := Some(msg), isConnecting := false), told)
  }

  /** One full status change: the start, then (when verification is
      requested) the finish with the given replies. */
  function StatusChange(s: WalletState, ev: StatusEvent, reply: VerifyReply, hookWallet: bool, backend: Outcome)
    : (r: WalletState)
    ensures ev.WalletWithProof? ==> !r.isConnecting || r == s
    ensures ev.WalletWithProof? ==> r.lastProof == Some(ev.proof) || r.lastProof.None?
  {
    match StatusChangeStart(s, ev)
    case (s1, Verify(_)) => StatusChangeFinish(s1, reply, hookWallet, backend).0
    case (s1, RunDisconnect) => Disconnect(s1, hookWallet, backend).0
    case (s1, Ignore) =>
      assert ev.WalletWithProof? ==> s1.lastProof == Some(ev.proof);
      s1
  }

  /** A proof is verified once: after any attempt that leaves it recorded,
      the same proof arriving again changes nothing and calls nobody. */
  lemma ProofVerifiedOnce(s: WalletState, p: string, a: string, k: string,
                          reply: VerifyReply, hookWallet: bool, backend: Outcome)
    requires s.lastProof != Some(p)
    requires !Failed(reply) || !hookWallet || backend.Threw?
    ensures var s' := StatusChange(s, WalletWithProof(p, a, k), reply, hookWallet, backend);
            StatusChangeStart(s', WalletWithProof(p, a, k)) == (s', Ignore)
  {
  }

  /** After a failed verification whose disconnect reached the backend, the
      last proof is forgotten, so the very same proof is sent for
      verification again the next time it arrives. */
  lemma SameProofReverifiedAfterDisconnect(s: WalletState, p: string, a: string, k: string, reply: VerifyReply)
    requires s.lastProof != Some(p) && Failed(reply)
    ensures var s' := StatusChange(s, WalletWithProof(p, a, k), reply, true, Done);
            StatusChangeStart(s', WalletWithProof(p, a, k)).1 == Verify(VerifyRequest(a, k, p))
  {
  }

  /** The same proof is verified a second time exactly when the first
      verification failed and the disconnect that followed it succeeded. */
  lemma ReverifyIff(s: WalletState, p: string, a: string, k: string,
                    reply: VerifyReply, hookWallet: bool, backend: Outcome)
    requires s.lastProof != Some(p)
    ensures var s' := StatusChange(s, WalletWithProof(p, a, k), reply, hookWallet, backend);
            (StatusChangeStart(s', WalletWithProof(p, a, k)).1.Verify? <==> Failed(reply) && hookWallet && backend.Done?)
  {
  }
}
