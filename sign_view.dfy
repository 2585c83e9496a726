/** What the signature board renders from its state: the header count, the
    wallet control, the form controls, the list panel and each signature card. */
module SignView {
  import opened Wrappers
  import opened JsText
  import opened Signatures

  /** Placeholder rows shown while a load is in flight. */
  const PlaceholderRows: nat := 4
  /** At most this many cards are listed. */
  const DisplayCap: nat := 10

  const SingularLabel := "Signatory"
  const PluralLabel := "Signatories"

  datatype Header = Header(count: nat, caption: string)

  /** The header: the number of signatures held, with the singular label for
      exactly one and the plural one otherwise, zero included. */
  function HeaderOf(signatures: seq<Signature>): (h: Header)
    ensures h.count == |signatures|
    ensures h.caption == SingularLabel <==> |signatures| == 1
    ensures h.caption == SingularLabel || h.caption == PluralLabel
  {
    Header(|signatures|, if |signatures| == 1 then SingularLabel else PluralLabel)
  }

  /** The wallet row: the connect button, or a badge naming the address. */
  datatype WalletControl = ConnectButton | Badge(text: string)

  const BadgePrefix := "\U{2713} Wallet: "
  const Ellipsis := "..."

  /** The wallet row shows the badge exactly when a wallet is connected; the
      badge shows the first six and the last four characters of the address
      (all of a shorter one) around an ellipsis. */
  function WalletControlOf(connected: bool, address: Option<string>): (w: WalletControl)
    ensures w.Badge? <==> connected
    ensures connected && address.Some? ==>
      var a := address.value;
      w.text == BadgePrefix + a[..Min(6, |a|)] + Ellipsis + a[|a| - Min(4, |a|)..]
    ensures connected && address.None? ==> w.text == BadgePrefix + Ellipsis
  {
    if !connected then
      ConnectButton
    else
      // `address?.slice(...)` renders nothing when the address is absent.
      var head := if address.Some? then Slice(address.value, 0, 6) else "";
      var tail := if address.Some? then SliceFrom(address.value, -4) else "";
      Badge(BadgePrefix + head + Ellipsis + tail)
  }

  const SubmitLabel := "Reclaim Your Voice"
  const SubmittingLabel := "Signing..."

  datatype FormControls = FormControls(inputsDisabled: bool, submitDisabled: bool, submitLabel: string)

  /** The form: the inputs are locked while a submission is in flight; the
      submit button is disabled then and also while the name is blank, and its
      label announces the submission in flight. */
  function FormControlsOf(submitting: bool, name: string): (f: FormControls)
    ensures f.inputsDisabled == submitting
    ensures f.submitDisabled <==> submitting || IsBlank(name)
    ensures f.submitLabel == SubmittingLabel <==> submitting
    ensures f.submitLabel == SubmittingLabel || f.submitLabel == SubmitLabel
  {
    FormControls(submitting, submitting || Trim(name) == "", if submitting then SubmittingLabel else SubmitLabel)
  }

  /** One signature card. The quote is shown between double quotes; the
      card keeps the raw timestamp, not its locale-formatted date. */
  datatype Card = Card(
    name: string,
    timestamp: string,
    quote: Option<string>,
    walletShort: Option<string>,
    verifyHref: Option<string>)

  const ExplorerTxBase := "https://explorer.arkiv.network/tx/"

  /** The verification link for a transaction hash. */
  function ExplorerLink(txHash: string): (href: string)
    ensures |href| == |ExplorerTxBase| + |txHash|
    ensures href[..|ExplorerTxBase|] == ExplorerTxBase && href[|ExplorerTxBase|..] == txHash
  {
    ExplorerTxBase + txHash
  }

  /** A card shows the name; the message, the shortened wallet and the
      verification link each only when the field is present and not empty.
      The wallet is shortened to its first eight characters and an ellipsis. */
  function CardOf(sig: Signature): (c: Card)
    ensures c.name == sig.name && c.timestamp == sig.timestamp
    ensures c.quote.Some? <==> Truthy(sig.message)
    ensures c.quote.Some? ==> c.quote == sig.message
    ensures c.walletShort.Some? <==> Truthy(sig.signerWallet)
    ensures c.walletShort.Some? ==>
      var w := sig.signerWallet.value;
      c.walletShort.value == w[..Min(8, |w|)] + Ellipsis
    ensures c.verifyHref.Some? <==> Truthy(sig.txHash)
    ensures c.verifyHref.Some? ==> c.verifyHref.value == ExplorerLink(sig.txHash.value)
  {
    var walletShort :=
      if Truthy(sig.signerWallet) then
        Some(Slice(sig.signerWallet.value, 0, 8) + Ellipsis)
      else None;
    Card(
      sig.name,
      sig.timestamp,
      if Truthy(sig.message) then sig.message else None,
      walletShort,
      if Truthy(sig.txHash) then Some(ExplorerLink(sig.txHash.value)) else None)
  }

  /** The cards for a run of signatures, in order. */
  function CardsOf(sigs: seq<Signature>): (cards: seq<Card>)
    ensures |cards| == |sigs|
    ensures forall i :: 0 <= i < |sigs| ==> cards[i] == CardOf(sigs[i])
  {
    if sigs == [] then [] else [CardOf(sigs[0])] + CardsOf(sigs[1..])
  }

  /** The list panel: placeholders, the empty-state message, or the cards
      with an optional "+ N more signatories" line. */
  datatype Panel = Placeholders(rows: nat) | NoSignatures | Cards(cards: seq<Card>, more: Option<nat>)

  /** While loading, exactly four placeholders; otherwise the empty-state
      message for no signatures, or the cards of the first ten signatures in
      order, with a "more" line for the rest exactly when there are more than
      ten. Every signature is either carded or counted in the "more" line. */
  function PanelOf(loading: bool, signatures: seq<Signature>): (p: Panel)
    ensures loading ==> p == Placeholders(4)
    ensures !loading && signatures == [] ==> p == NoSignatures
    ensures !loading && signatures != [] ==>
      && p.Cards?
      && |p.cards| == Min(|signatures|, 10)
      && (forall i :: 0 <= i < |p.cards| ==> p.cards[i] == CardOf(signatures[i]))
      && (p.more.Some? <==> |signatures| > 10)
      && |p.cards| + p.more.GetOr(0) == |signatures|
  {
    if loading then
      Placeholders(PlaceholderRows)
    else if |signatures| == 0 then
      NoSignatures
    else
      Cards(
        CardsOf(Slice(signatures, 0, DisplayCap)),
        if |signatures| > DisplayCap then Some(|signatures| - DisplayCap) else None)
  }

  /** The submit button is enabled only for a draft the submit handler acts
      on: nothing is in flight and the name sent is not empty. */
  lemma EnabledSubmitPassesGuard(submitting: bool, name: string, message: string, walletAddress: Option<string>)
    requires !FormControlsOf(submitting, name).submitDisabled
    ensures !submitting && !IsBlank(name)
    ensures SubmissionBody(name, message, walletAddress).name != ""
  {
  }

  /** The header count and the list panel agree: every signature held is
      either shown as a card or counted in the "more" line, and the empty
      state shows exactly when the header counts zero "Signatories". */
  lemma HeaderAgreesWithPanel(signatures: seq<Signature>)
    ensures var p := PanelOf(false, signatures);
      var h := HeaderOf(signatures);
      && (p.NoSignatures? <==> h.count == 0)
      && (p.NoSignatures? ==> h.caption == PluralLabel)
      && (p.Cards? ==> h.count == |p.cards| + p.more.GetOr(0))
  {
  }

  /** A submission that the store keeps with the fields it was sent renders
      as a card with the trimmed name, with the trimmed message exactly when
      the draft message was not blank, and with the wallet exactly when a
      non-empty address was connected. */
  lemma SubmittedSignatureCard(
    name: string, message: string, walletAddress: Option<string>,
    id: string, timestamp: string, txHash: Option<string>)
    ensures var b := SubmissionBody(name, message, walletAddress);
      var c := CardOf(Signature(id, b.name, b.message, timestamp, b.signerWallet, txHash));
      && c.name == Trim(name)
      && (c.quote.Some? <==> !IsBlank(message))
      && (c.quote.Some? ==> c.quote.value == Trim(message))
      && (c.walletShort.Some? <==> walletAddress.Some? && walletAddress.value != "")
      && (c.walletShort.Some? ==>
            var w := walletAddress.value;
            c.walletShort.value == w[..Min(8, |w|)] + Ellipsis)
  {
  }
}
