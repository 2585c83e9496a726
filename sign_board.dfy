/** The signature board: the seven pieces of state of the sign section and
    the handlers that update them. Every handler runs to completion in one
    call; what it awaits (the store's reply, the wallet's accounts) is a
    parameter, and what it does to the outside world is returned as Effects. */
module SignBoard {
  import opened Wrappers
  import opened JsText
  import opened Signatures
  import opened SignView

  class Board {
    var signatures: seq<Signature>
    var loading: bool
    var name: string
    var message: string
    var submitting: bool
    var walletConnected: bool
    var walletAddress: Option<string>

    /** The connected flag and the address are only ever set together. */
    ghost predicate Valid()
      reads this
    {
      walletConnected <==> walletAddress.Some?
    }

    /** The wallet row as rendered from the board. A connected board always
        holds an address, so the badge is always built from it and never from
        a missing one; it reduces to the bare prefix and ellipsis only when
        the wallet reported an empty address. */
    function WalletRow(): (w: WalletControl)
      reads this
      requires Valid()
      ensures !walletConnected ==> w == ConnectButton
      ensures walletConnected ==>
        var a := walletAddress.value;
        w == Badge(BadgePrefix + a[..Min(6, |a|)] + Ellipsis + a[|a| - Min(4, |a|)..])
    {
      WalletControlOf(walletConnected, walletAddress)
    }

    /** The state of a freshly mounted section: no signatures, a load pending,
        an empty draft, nothing in flight and no wallet. */
    constructor ()
      ensures Valid()
      ensures signatures == [] && loading
      ensures name == "" && message == "" && !submitting
      ensures !walletConnected && walletAddress == None
    {
      signatures := [];
      loading := true;
      name := "";
      message := "";
      submitting := false;
      walletConnected := false;
      walletAddress := None;
    }

    /** Typing into the name field. */
    method SetName(value: string)
      requires Valid()
      modifies this`name
      ensures Valid() && name == value
    {
      name := value;
    }

    /** Typing into the message field. */
    method SetMessage(value: string)
      requires Valid()
      modifies this`message
      ensures Valid() && message == value
    {
      message := value;
    }

    /** Adopts the first listed account, if any, as the connected wallet. */
    method AdoptFirstAccount(accounts: seq<string>)
      requires Valid()
      modifies this`walletConnected, this`walletAddress
      ensures Valid()
      ensures |accounts| > 0 ==> walletConnected && walletAddress == Some(accounts[0])
      ensures |accounts| == 0 ==> walletConnected == old(walletConnected) && walletAddress == old(walletAddress)
    {
      if |accounts| > 0 {
        walletConnected := true;
        walletAddress := Some(accounts[0]);
      }
    }

    /** Looks, without prompting, for an account the wallet already
        authorised. Nothing happens without a provider; a failed request is
        only logged. */
    method CheckWallet(wallet: Wallet) returns (fx: Effects)
      requires Valid()
      modifies this`walletConnected, this`walletAddress
      ensures Valid()
      ensures FirstAccount(wallet).Some? ==> walletConnected && walletAddress == FirstAccount(wallet)
      ensures FirstAccount(wallet).None? ==>
        walletConnected == old(walletConnected) && walletAddress == old(walletAddress)
      ensures fx.request == (if wallet.Present? then Some(WalletCall(AccountsMethod)) else None)
      ensures fx.log == (if wallet == Present(Threw) then Some(CheckWalletLog) else None)
      ensures fx.notice == None && fx.reloadAfterMs == None
    {
      fx := NoEffects;
      if wallet.Present? {
        fx := fx.(request := Some(WalletCall(AccountsMethod)));
        match wallet.accounts {
          case Returned(accounts) =>
            AdoptFirstAccount(accounts);
          case Threw =>
            fx := fx.(log := Some(CheckWalletLog));
        }
      }
    }

    /** Asks the wallet for access, which may prompt the user. Without a
        provider it only tells the user that signing works without one; a
        failed request is only logged. */
    method ConnectWallet(wallet: Wallet) returns (fx: Effects)
      requires Valid()
      modifies this`walletConnected, this`walletAddress
      ensures Valid()
      ensures FirstAccount(wallet).Some? ==> walletConnected && walletAddress == FirstAccount(wallet)
      ensures FirstAccount(wallet).None? ==>
        walletConnected == old(walletConnected) && walletAddress == old(walletAddress)
      ensures fx.request == (if wallet.Present? then Some(WalletCall(RequestAccountsMethod)) else None)
      ensures fx.notice == (if wallet.Absent? then Some(NoWalletNotice) else None)
      ensures fx.log == (if wallet == Present(Threw) then Some(ConnectWalletLog) else None)
      ensures fx.reloadAfterMs == None
    {
      fx := NoEffects;
      if wallet.Present? {
        fx := fx.(request := Some(WalletCall(RequestAccountsMethod)));
        match wallet.accounts {
          case Returned(accounts) =>
            AdoptFirstAccount(accounts);
          case Threw =>
            fx := fx.(log := Some(ConnectWalletLog));
        }
      } else {
        fx := fx.(notice := Some(NoWalletNotice));
      }
    }

    /** The first half of a load, up to the awaited reply: the flag goes up
        on every call, refreshes included, and the list is requested. While
        the reply is awaited the panel shows the placeholders, whatever list
        the board already holds. */
    method BeginLoad() returns (fx: Effects)
      requires Valid()
      modifies this`loading
      ensures Valid()
      ensures loading && fx == NoEffects.(request := Some(Get(Endpoint)))
      ensures PanelOf(loading, signatures) == Placeholders(PlaceholderRows)
    {
      loading := true;
      fx := NoEffects.(request := Some(Get(Endpoint)));
    }

    /** The second half of a load: an `ok` reply replaces the list (an
        absent list reads as empty); any other outcome keeps it, and only a
        thrown error is logged. Loading is over whatever happened. */
    method SettleLoad(reply: Settled<ListReply>) returns (fx: Effects)
      requires Valid()
      modifies this`signatures, this`loading
      ensures Valid()
      ensures signatures == Adopted(reply).GetOr(old(signatures))
      ensures !loading
      ensures fx == NoEffects.(log := if reply.Threw? then Some(LoadLog) else None)
    {
      fx := NoEffects;
      match reply {
        case Returned(data) =>
          if data.ok {
            signatures := data.signatures.GetOr([]);
          }
        case Threw =>
          fx := fx.(log := Some(LoadLog));
      }
      loading := false;
    }

    /** Fetches the list, on mount and on every refresh: the two halves of a
        load in sequence. */
    method LoadSignatures(reply: Settled<ListReply>) returns (fx: Effects)
      requires Valid()
      modifies this`signatures, this`loading
      ensures Valid()
      ensures signatures == Adopted(reply).GetOr(old(signatures))
      ensures !loading
      ensures fx.request == Some(Get(Endpoint))
      ensures fx.log == (if reply.Threw? then Some(LoadLog) else None)
      ensures fx.notice == None && fx.reloadAfterMs == None
    {
      fx := BeginLoad();
      var settled := SettleLoad(reply);
      fx := fx.(log := settled.log);
    }

    /** The first half of a submission, up to the awaited reply. A blank
        name stops it and nothing changes. Otherwise the flag goes up and the
        body to post is built from the trimmed draft and the connected
        address; while the reply is awaited the inputs and the button are
        locked and the button reads "Signing...". */
    method StartSubmission() returns (body: Option<CreateBody>)
      requires Valid()
      modifies this`submitting
      ensures Valid()
      ensures body.Some? <==> !IsBlank(name)
      ensures body.None? ==> submitting == old(submitting)
      ensures body.Some? ==> body.value == SubmissionBody(name, message, walletAddress) && submitting
      ensures body.Some? ==> FormControlsOf(submitting, name) == FormControls(true, true, SubmittingLabel)
    {
      // The body's name is the trimmed name, so testing it is the blank-name guard.
      var b := SubmissionBody(name, message, walletAddress);
      if b.name == "" {
        return None;
      }
      submitting := true;
      body := Some(b);
    }

    /** The second half of a submission: posts `body` and applies the
        store's answer. An accepted post clears the draft, any other outcome
        keeps it; either way nothing is left in flight. */
    method SettleSubmission(body: CreateBody, reply: Settled<CreateReply>) returns (fx: Effects)
      requires Valid()
      modifies this`name, this`message, this`submitting
      ensures Valid()
      ensures fx == SubmissionEffects(body, reply)
      ensures !submitting
      ensures Accepted(reply) ==> name == "" && message == ""
      ensures !Accepted(reply) ==> name == old(name) && message == old(message)
    {
      fx := NoEffects.(request := Some(Post(Endpoint, body)));
      match reply {
        case Returned(data) =>
          if data.ok {
            name := "";
            message := "";
            fx := fx.(notice := Some(SubmittedNotice), reloadAfterMs := Some(ReloadDelayMs));
          } else {
            fx := fx.(notice := Some(FailureNotice(data.error)));
          }
        case Threw =>
          fx := fx.(log := Some(SubmitLog), notice := Some(SubmitErrorNotice));
      }
      submitting := false;
    }

    /** Submits the draft: the two halves of a submission in sequence. A
        blank name stops it before anything happens. Otherwise it posts the
        trimmed draft with the connected address; an accepted post clears
        the draft, any other outcome keeps it. The list and the wallet are
        never touched, and nothing is left in flight. */
    method SubmitSignature(reply: Settled<CreateReply>) returns (fx: Effects)
      requires Valid()
      modifies this`name, this`message, this`submitting
      ensures Valid()
      ensures IsBlank(old(name)) ==>
        fx == NoEffects && name == old(name) && message == old(message) && submitting == old(submitting)
      ensures !IsBlank(old(name)) ==>
        fx == SubmissionEffects(SubmissionBody(old(name), old(message), walletAddress), reply) && !submitting
      ensures !IsBlank(old(name)) && Accepted(reply) ==> name == "" && message == ""
      ensures !Accepted(reply) ==> name == old(name) && message == old(message)
    {
      var body := StartSubmission();
      if body.None? {
        return NoEffects;
      }
      fx := SettleSubmission(body.value, reply);
    }

    /** What mounting does: load the list, then look for a wallet. */
    method Mount(reply: Settled<ListReply>, wallet: Wallet) returns (loadFx: Effects, walletFx: Effects)
      requires Valid()
      modifies this
      ensures Valid()
      ensures signatures == Adopted(reply).GetOr(old(signatures)) && !loading
      ensures FirstAccount(wallet).Some? ==> walletConnected && walletAddress == FirstAccount(wallet)
      ensures FirstAccount(wallet).None? ==>
        walletConnected == old(walletConnected) && walletAddress == old(walletAddress)
      ensures name == old(name) && message == old(message) && submitting == old(submitting)
      ensures loadFx.request == Some(Get(Endpoint))
      ensures walletFx.request == (if wallet.Present? then Some(WalletCall(AccountsMethod)) else None)
      ensures loadFx.log == (if reply.Threw? then Some(LoadLog) else None)
      ensures walletFx.log == (if wallet == Present(Threw) then Some(CheckWalletLog) else None)
      ensures loadFx.notice == None && walletFx.notice == None
      ensures loadFx.reloadAfterMs == None && walletFx.reloadAfterMs == None
    {
      loadFx := LoadSignatures(reply);
      walletFx := CheckWallet(wallet);
    }
  }
}
