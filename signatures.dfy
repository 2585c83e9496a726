/** The values the signature board exchanges with its two collaborators, the
    signature store (an HTTP endpoint for list and create) and the wallet
    provider, and the effects a handler has besides updating its state. */
module Signatures {
  import opened Wrappers
  import opened JsText

  /** One endorsement as the store returns it. */
  datatype Signature = Signature(
    id: string,
    name: string,
    message: Option<string>,
    timestamp: string,
    signerWallet: Option<string>,
    txHash: Option<string>)

  /** The path both store operations use. */
  const Endpoint := "/api/signatures"

  /** The JSON the list call answers with (its `error` field is never read). */
  datatype ListReply = ListReply(ok: bool, signatures: Option<seq<Signature>>)

  /** The JSON the create call answers with. */
  datatype CreateReply = CreateReply(ok: bool, error: Option<string>)

  /** The JSON body of the create call; a `None` field is absent from it. */
  datatype CreateBody = CreateBody(name: string, message: Option<string>, signerWallet: Option<string>)

  /** How an awaited call ended: with a value, or by throwing (a network
      failure, a body that is not JSON, a refused wallet request). */
  datatype Settled<T> = Returned(value: T) | Threw

  /** The wallet provider as the page finds it: missing, or present and
      answering an accounts request with the authorised addresses. */
  datatype Wallet = Absent | Present(accounts: Settled<seq<string>>)

  /** The wallet methods: one that only reads, one that may prompt the user. */
  const AccountsMethod := "eth_accounts"
  const RequestAccountsMethod := "eth_requestAccounts"

  /** A call to a collaborator. */
  datatype Request =
    | Get(url: string)
    | Post(url: string, body: CreateBody)
    | WalletCall(walletMethod: string)

  /** What one handler does besides updating the board: the call it makes, the
      blocking notice it shows (`alert`), the line it logs (`console.error`)
      and the delay after which it schedules a reload (`setTimeout`). */
  datatype Effects = Effects(
    request: Option<Request>,
    notice: Option<string>,
    log: Option<string>,
    reloadAfterMs: Option<nat>)

  const NoEffects := Effects(None, None, None, None)

  const ReloadDelayMs: nat := 2000
  const SubmittedNotice := "Your signature has been recorded on-chain. Thank you for signing the Declaration!"
  const FailureReasonDefault := "Failed to submit"
  const FailurePrefix := "Error: "
  const SubmitErrorNotice := "Error submitting signature"
  const NoWalletNotice := "No wallet detected. You can still sign without a wallet."
  const CheckWalletLog := "Error checking wallet:"
  const ConnectWalletLog := "Error connecting wallet:"
  const LoadLog := "Error loading signatures:"
  const SubmitLog := "Error submitting signature:"

  /** The body a submission sends: the trimmed name; the trimmed message, or
      nothing when the message is blank; the connected address, or nothing
      when there is none or it is empty. */
  function SubmissionBody(name: string, message: string, walletAddress: Option<string>): (b: CreateBody)
    ensures b.name == Trim(name)
    ensures b.name == [] <==> IsBlank(name)
    ensures b.message.Some? <==> !IsBlank(message)
    ensures b.message.Some? ==> b.message.value == Trim(message) && b.message.value != ""
    ensures b.signerWallet.Some? <==> walletAddress.Some? && walletAddress.value != ""
    ensures b.signerWallet.Some? ==> b.signerWallet == walletAddress
  {
    CreateBody(Trim(name), OrUndefined(Some(Trim(message))), OrUndefined(walletAddress))
  }

  /** Whitespace typed before or after the name or the message, each
      padding chosen independently, never reaches the store. */
  lemma SubmissionBodyIgnoresPadding(
    name: string, message: string, walletAddress: Option<string>,
    preName: string, postName: string, preMessage: string, postMessage: string)
    requires IsBlank(preName) && IsBlank(postName)
    requires IsBlank(preMessage) && IsBlank(postMessage)
    ensures SubmissionBody(preName + name + postName, preMessage + message + postMessage, walletAddress)
         == SubmissionBody(name, message, walletAddress)
  {
    TrimIgnoresPadding(preName, name, postName);
    TrimIgnoresPadding(preMessage, message, postMessage);
  }

  /** A body is its own draft: typing back what was sent (an absent message
      as the empty one) sends the same body again. */
  lemma SubmissionBodyIsStable(name: string, message: string, walletAddress: Option<string>)
    ensures var b := SubmissionBody(name, message, walletAddress);
      SubmissionBody(b.name, b.message.GetOr(""), b.signerWallet) == b
  {
    TrimIdempotent(name);
    TrimIdempotent(message);
  }

  /** The notice for a create reply that is not `ok`: the store's reason after
      "Error: ", or "Failed to submit" when the reason is missing or empty. */
  function FailureNotice(error: Option<string>): (n: string)
    ensures |n| > |FailurePrefix| && n[..|FailurePrefix|] == FailurePrefix
    ensures Truthy(error) ==> n[|FailurePrefix|..] == error.value
    ensures !Truthy(error) ==> n[|FailurePrefix|..] == FailureReasonDefault
  {
    FailurePrefix + OrElse(error.GetOr(""), FailureReasonDefault)
  }

  /** A create call that answered `ok`. */
  predicate Accepted(reply: Settled<CreateReply>) {
    reply.Returned? && reply.value.ok
  }

  /** What a submission that passed the blank-name guard does outside the
      board: it posts the body; an accepted post thanks the user and
      schedules exactly one reload, two seconds later; a refused post shows
      the store's reason; a thrown error is logged and reported. Every
      outcome shows exactly one notice. */
  function SubmissionEffects(body: CreateBody, reply: Settled<CreateReply>): (fx: Effects)
    ensures fx.request == Some(Post(Endpoint, body))
    ensures fx.notice.Some?
    ensures fx.reloadAfterMs.Some? <==> Accepted(reply)
    ensures fx.reloadAfterMs.Some? ==> fx.reloadAfterMs.value == ReloadDelayMs
    ensures Accepted(reply) ==> fx.notice.value == SubmittedNotice && fx.log == None
    ensures reply.Returned? && !reply.value.ok ==>
      fx.notice.value == FailureNotice(reply.value.error) && fx.log == None
    ensures reply.Threw? ==> fx.notice.value == SubmitErrorNotice && fx.log == Some(SubmitLog)
  {
    var post := Some(Post(Endpoint, body));
    match reply
    case Returned(data) =>
      if data.ok then Effects(post, Some(SubmittedNotice), None, Some(ReloadDelayMs))
      else Effects(post, Some(FailureNotice(data.error)), None, None)
    case Threw => Effects(post, Some(SubmitErrorNotice), Some(SubmitLog), None)
  }

  /** The list a load adopts: the returned one when the reply is `ok` (an
      absent list reads as empty), and none otherwise. */
  function Adopted(reply: Settled<ListReply>): (r: Option<seq<Signature>>)
    ensures r.Some? <==> reply.Returned? && reply.value.ok
    ensures r.Some? && reply.value.signatures.Some? ==> r.value == reply.value.signatures.value
    ensures r.Some? && reply.value.signatures.None? ==> r.value == []
  {
    match reply
    case Returned(data) => if data.ok then Some(data.signatures.GetOr([])) else None
    case Threw => None
  }

  /** The address a wallet request yields: the first account, when the
      provider is there, answered, and listed at least one. */
  function FirstAccount(wallet: Wallet): (a: Option<string>)
    ensures a.Some? <==> wallet.Present? && wallet.accounts.Returned? && |wallet.accounts.value| > 0
    ensures a.Some? ==> a.value == wallet.accounts.value[0]
  {
    match wallet
    case Absent => None
    case Present(Threw) => None
    case Present(Returned(accounts)) => if |accounts| > 0 then Some(accounts[0]) else None
  }
}
