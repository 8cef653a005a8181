/** The wallet connection-state hook: a state record plus a remembered
    provider, changed by connect and disconnect, and queried by purpose.
    The provider call itself is an input outcome (see WalletTypes). */
module UseWallet {
  import opened WalletTypes

  const NoProviderMessage: string := "No wallet provider selected."
  const GenericFailureMessage: string := "Failed to connect wallet"

  /** The hook's own state and the provider it remembers. */
  datatype Session = Session(state: WalletState, provider: Option<WalletProvider>)

  // ---------------------------------------------------------------------
  // Transitions, as functions on values

  /** The idle shape the hook starts in and returns to on disconnect. */
  function InitialState(): WalletState {
    WalletState(false, [], None, false, None)
  }

  function InitialSession(): Session {
    Session(InitialState(), None)
  }

  /** The caller's provider wins; otherwise the remembered one, if any. */
  function ResolveProvider(selected: Option<WalletProvider>, remembered: Option<WalletProvider>): Option<WalletProvider> {
    if selected.Some? then selected else remembered
  }

  /** The text a failed provider call leaves in `error`. */
  function FailureMessage(t: Thrown): string {
    match t
    case WalletConnectionError(_, message) => message
    case OtherError(_) => GenericFailureMessage
  }

  /** First phase of connect: either record that there is no provider, or enter loading. */
  function Begin(h: Session, selected: Option<WalletProvider>): Session {
    if ResolveProvider(selected, h.provider).None? then
      h.(state := h.state.(error := Some(NoProviderMessage)))
    else
      h.(state := h.state.(isLoading := true, error := None))
  }

  /** Second phase of connect: apply the settled outcome of the provider call. */
  function Complete(h: Session, providerToUse: WalletProvider, outcome: ConnectOutcome): Session {
    match outcome
    case Resolved(addresses) =>
      Session(WalletState(true, addresses, None, false, None), Some(providerToUse))
    case Rejected(thrown) =>
      h.(state := h.state.(error := Some(FailureMessage(thrown)), isLoading := false,
                           isConnected := false, addresses := []))
  }

  /** A whole connect call: the first phase, then, if a provider was found, the second. */
  function Connect(h: Session, selected: Option<WalletProvider>, outcome: ConnectOutcome): Session {
    var providerToUse := ResolveProvider(selected, h.provider);
    var begun := Begin(h, selected);
    if providerToUse.None? then begun else Complete(begun, providerToUse.value, outcome)
  }

  function Disconnect(h: Session): Session {
    InitialSession()
  }

  // ---------------------------------------------------------------------
  // Looking up an address by purpose

  /** `i` is the position of the first address in `addrs` with purpose `p`. */
  predicate IsFirstMatch(addrs: seq<WalletAddress>, p: AddressPurpose, i: int) {
    0 <= i < |addrs| && addrs[i].purpose == p &&
    forall j :: 0 <= j < i ==> addrs[j].purpose != p
  }

  /** The first address with purpose `p`, scanning in order. */
  function FindByPurpose(addrs: seq<WalletAddress>, p: AddressPurpose): (r: Option<WalletAddress>)
    ensures r.None? <==> forall a :: a in addrs ==> a.purpose != p
    ensures r.Some? ==> r.value in addrs && r.value.purpose == p
  {
    if addrs == [] then None
    else if addrs[0].purpose == p then Some(addrs[0])
    else FindByPurpose(addrs[1..], p)
  }

  /** Among several addresses with purpose `p`, the lookup picks the earliest. */
  lemma {:induction false} FindByPurposeReturnsFirstMatch(addrs: seq<WalletAddress>, p: AddressPurpose, i: int)
    requires IsFirstMatch(addrs, p, i)
    ensures FindByPurpose(addrs, p) == Some(addrs[i])
  {
    if i > 0 {
      assert addrs[0].purpose != p;
      forall j | 0 <= j < i - 1 ensures addrs[1..][j].purpose != p {
        assert addrs[1..][j] == addrs[j + 1];
      }
      FindByPurposeReturnsFirstMatch(addrs[1..], p, i - 1);
    }
  }

  lemma FindByPurposeFirstMatchAll(addrs: seq<WalletAddress>, p: AddressPurpose)
    ensures forall i :: IsFirstMatch(addrs, p, i) ==> FindByPurpose(addrs, p) == Some(addrs[i])
  {
    forall i | IsFirstMatch(addrs, p, i) ensures FindByPurpose(addrs, p) == Some(addrs[i]) {
      FindByPurposeReturnsFirstMatch(addrs, p, i);
    }
  }

  /** Addresses after the first match never change the answer; with no match
      in the front part, the answer comes from the back part. */
  lemma {:induction false} FindByPurposeAppend(front: seq<WalletAddress>, back: seq<WalletAddress>, p: AddressPurpose)
    ensures FindByPurpose(front + back, p) ==
            if FindByPurpose(front, p).Some? then FindByPurpose(front, p) else FindByPurpose(back, p)
  {
    if front == [] {
      assert front + back == back;
    } else {
      assert (front + back)[0] == front[0];
      assert (front + back)[1..] == front[1..] + back;
      FindByPurposeAppend(front[1..], back, p);
    }
  }

  // ---------------------------------------------------------------------
  // Properties of single calls

  /** With no provider at hand, connect sets exactly the error text and nothing else. */
  lemma ConnectWithoutProvider(h: Session, outcome: ConnectOutcome)
    requires h.provider.None?
    ensures Connect(h, None, outcome) == Session(h.state.(error := Some(NoProviderMessage)), None)
    ensures Connect(h, None, outcome).state.isLoading == h.state.isLoading
  {
  }

  /** A provider supplied by the caller is used, and remembered on success,
      whatever provider was remembered before. */
  lemma OverrideTakesPrecedence(h: Session, p: WalletProvider, addresses: seq<WalletAddress>)
    ensures ResolveProvider(Some(p), h.provider) == Some(p)
    ensures Connect(h, Some(p), Resolved(addresses)).provider == Some(p)
  {
  }

  /** Entering the loading phase touches only `isLoading` and `error`. */
  lemma BeginWithProviderEntersLoading(h: Session, selected: Option<WalletProvider>)
    requires ResolveProvider(selected, h.provider).Some?
    ensures var r := Begin(h, selected);
      r.state.isLoading && r.state.error == None &&
      r.state.isConnected == h.state.isConnected && r.state.addresses == h.state.addresses &&
      r.state.network == h.state.network && r.provider == h.provider
  {
  }

  /** Whatever the outcome, a completed attempt is no longer loading; success
      and failure leave exactly the documented state. */
  lemma CompleteOutcome(h: Session, providerToUse: WalletProvider, outcome: ConnectOutcome)
    ensures var r := Complete(h, providerToUse, outcome);
      !r.state.isLoading &&
      (outcome.Resolved? ==>
         r.state == WalletState(true, outcome.addresses, None, false, None) &&
         r.provider == Some(providerToUse)) &&
      (outcome.Rejected? ==>
         !r.state.isConnected && r.state.addresses == [] &&
         r.state.network == h.state.network && r.provider == h.provider &&
         r.state.error == Some(FailureMessage(outcome.thrown)))
  {
  }

  /** A tagged connection error shows its own message; anything else shows the generic one. */
  lemma FailureMessageCases(t: Thrown)
    ensures t.WalletConnectionError? ==> FailureMessage(t) == t.message
    ensures t.OtherError? ==> FailureMessage(t) == "Failed to connect wallet"
  {
  }

  lemma DisconnectIdempotent(h: Session)
    ensures Disconnect(Disconnect(h)) == Disconnect(h)
    ensures Disconnect(h).state == InitialState() && Disconnect(h).provider == None
  {
  }

  /** After a disconnect, a connect that names no provider fails for lack of one. */
  lemma DisconnectForgetsProvider(h: Session, outcome: ConnectOutcome)
    ensures var r := Connect(Disconnect(h), None, outcome);
      r.state.error == Some(NoProviderMessage) && !r.state.isConnected && !r.state.isLoading
  {
  }

  // ---------------------------------------------------------------------
  // Sequences of calls

  datatype Call = ConnectCall(selected: Option<WalletProvider>, outcome: ConnectOutcome) | DisconnectCall

  function Step(h: Session, c: Call): Session {
    match c
    case ConnectCall(selected, outcome) => Connect(h, selected, outcome)
    case DisconnectCall => Disconnect(h)
  }

  /** The session after the calls, one completed before the next starts. */
  function Run(h: Session, calls: seq<Call>): Session
    decreases |calls|
  {
    if calls == [] then h else Run(Step(h, calls[0]), calls[1..])
  }

  /** What holds between calls: no network is ever set, nothing is left
      loading, a connected session has a provider and no error, and a
      session that is not connected holds no addresses. */
  ghost predicate Consistent(h: Session) {
    h.state.network == None &&
    !h.state.isLoading &&
    (h.state.isConnected ==> h.provider.Some? && h.state.error == None) &&
    (!h.state.isConnected ==> h.state.addresses == [])
  }

  lemma StepKeepsConsistent(h: Session, c: Call)
    requires Consistent(h)
    ensures Consistent(Step(h, c))
  {
  }

  lemma {:induction false} RunKeepsConsistent(h: Session, calls: seq<Call>)
    requires Consistent(h)
    ensures Consistent(Run(h, calls))
    decreases |calls|
  {
    if calls != [] {
      StepKeepsConsistent(h, calls[0]);
      RunKeepsConsistent(Step(h, calls[0]), calls[1..]);
    }
  }

  lemma {:induction false} RunAppend(h: Session, first: seq<Call>, second: seq<Call>)
    ensures Run(h, first + second) == Run(Run(h, first), second)
    decreases |first|
  {
    if first == [] {
      assert first + second == second;
    } else {
      assert (first + second)[0] == first[0];
      assert (first + second)[1..] == first[1..] + second;
      RunAppend(Step(h, first[0]), first[1..], second);
    }
  }

  /** Whatever happened before, ending with a disconnect gives the initial session. */
  lemma DisconnectLastResets(h: Session, calls: seq<Call>)
    ensures Run(h, calls + [DisconnectCall]) == InitialSession()
  {
    RunAppend(h, calls, [DisconnectCall]);
  }

  /** After a connect, the session is connected exactly when either a provider
      was found and its call resolved, or no provider was found and the session
      was already connected (the no-provider branch leaves the flag alone). */
  lemma ConnectedIff(h: Session, selected: Option<WalletProvider>, outcome: ConnectOutcome)
    ensures Connect(h, selected, outcome).state.isConnected <==>
            (ResolveProvider(selected, h.provider).Some? && outcome.Resolved?) ||
            (ResolveProvider(selected, h.provider).None? && h.state.isConnected)
  {
  }

  /** A failed re-connect from a connected session, whether or not the caller
      names a provider, drops the connection and its addresses and keeps the
      remembered provider. */
  lemma FailedReconnectDropsConnection(h: Session, selected: Option<WalletProvider>, t: Thrown)
    requires Consistent(h) && h.state.isConnected
    ensures var r := Connect(h, selected, Rejected(t));
      !r.state.isConnected && r.state.addresses == [] && r.provider == h.provider
  {
  }

  // ---------------------------------------------------------------------
  // The failure path as the source is written

  /** The second phase as written: `RpcErrorCode` is imported as a type only,
      so building the fallback error for a rejection that is not a
      `WalletConnectionError` throws inside the handler, before the state
      update. The session stays as the first phase left it, and the connect
      call itself rejects. */
  function CompleteAsWritten(h: Session, providerToUse: WalletProvider, outcome: ConnectOutcome): Session {
    if outcome.Rejected? && outcome.thrown.OtherError? then h
    else Complete(h, providerToUse, outcome)
  }

  function ConnectAsWritten(h: Session, selected: Option<WalletProvider>, outcome: ConnectOutcome): Session {
    var providerToUse := ResolveProvider(selected, h.provider);
    var begun := Begin(h, selected);
    if providerToUse.None? then begun else CompleteAsWritten(begun, providerToUse.value, outcome)
  }

  /** As written, a connect rejected with any error other than the tagged one
      stays loading, shows no error and keeps its connection and addresses;
      the corrected connect ends not loading, not connected, with the generic text. */
  lemma OtherErrorStaysLoadingAsWritten(h: Session, selected: Option<WalletProvider>, d: string)
    requires ResolveProvider(selected, h.provider).Some?
    ensures var r := ConnectAsWritten(h, selected, Rejected(OtherError(d)));
      r.state.isLoading && r.state.error == None &&
      r.state.isConnected == h.state.isConnected && r.state.addresses == h.state.addresses &&
      r.provider == h.provider
    ensures var c := Connect(h, selected, Rejected(OtherError(d)));
      !c.state.isLoading && c.state.error == Some(GenericFailureMessage) &&
      !c.state.isConnected && c.state.addresses == []
  {
  }

  /** On every other outcome the code as written and the corrected model agree. */
  lemma AsWrittenAgreesOtherwise(h: Session, selected: Option<WalletProvider>, outcome: ConnectOutcome)
    requires !(outcome.Rejected? && outcome.thrown.OtherError?)
    ensures ConnectAsWritten(h, selected, outcome) == Connect(h, selected, outcome)
  {
  }

  /** A concrete input: a connected session whose re-connect is rejected with
      a plain error keeps `isConnected` and is left loading, so the invariant
      between calls is broken as written. */
  lemma AsWrittenBreaksConsistent(p: WalletProvider, addresses: seq<WalletAddress>, d: string)
    ensures var connected := Connect(InitialSession(), Some(p), Resolved(addresses));
      Consistent(connected) &&
      var r := ConnectAsWritten(connected, None, Rejected(OtherError(d)));
      r.state.isConnected && r.state.isLoading && !Consistent(r)
  {
  }

  // ---------------------------------------------------------------------
  // The hook as an object whose two fields its operations update

  class WalletHook {
    var walletState: WalletState
    var provider: Option<WalletProvider>

    function Snapshot(): Session
      reads this
    {
      Session(walletState, provider)
    }

    constructor ()
      ensures walletState == InitialState() && provider == None
    {
      walletState := InitialState();
      provider := None;
    }

    /** First phase of connectWallet; returns the provider the call will use, if any. */
    method BeginConnect(selected: Option<WalletProvider>) returns (providerToUse: Option<WalletProvider>)
      modifies this
      ensures providerToUse == ResolveProvider(selected, old(provider))
      ensures provider == old(provider)
      ensures providerToUse.None? ==> walletState == old(walletState).(error := Some(NoProviderMessage))
      ensures providerToUse.Some? ==> walletState == old(walletState).(isLoading := true, error := None)
      ensures Snapshot() == Begin(old(Snapshot()), selected)
    {
      providerToUse := ResolveProvider(selected, provider);
      if providerToUse.None? {
        walletState := walletState.(error := Some(NoProviderMessage));
        return;
      }
      walletState := walletState.(isLoading := true, error := None);
    }

    /** Second phase of connectWallet, once the provider call has settled. */
    method CompleteConnect(providerToUse: WalletProvider, outcome: ConnectOutcome)
      modifies this
      ensures outcome.Resolved? ==>
        walletState == WalletState(true, outcome.addresses, None, false, None) &&
        provider == Some(providerToUse)
      ensures outcome.Rejected? ==>
        walletState == old(walletState).(error := Some(FailureMessage(outcome.thrown)), isLoading := false,
                                         isConnected := false, addresses := []) &&
        provider == old(provider)
      ensures Snapshot() == Complete(old(Snapshot()), providerToUse, outcome)
    {
      match outcome
      case Resolved(addresses) =>
        provider := Some(providerToUse);
        walletState := WalletState(true, addresses, None, false, None);
      case Rejected(thrown) =>
        walletState := walletState.(error := Some(FailureMessage(thrown)), isLoading := false,
                                    isConnected := false, addresses := []);
    }

    /** connectWallet run to completion, with `outcome` the provider call's result. */
    method ConnectWallet(selected: Option<WalletProvider>, outcome: ConnectOutcome)
      modifies this
      ensures Snapshot() == Connect(old(Snapshot()), selected, outcome)
      ensures !walletState.isLoading || (old(walletState).isLoading && ResolveProvider(selected, old(provider)).None?)
    {
      var providerToUse := BeginConnect(selected);
      if providerToUse.Some? {
        CompleteConnect(providerToUse.value, outcome);
      }
    }

    method DisconnectWallet()
      modifies this
      ensures walletState == InitialState() && provider == None
      ensures Snapshot() == Disconnect(old(Snapshot()))
    {
      walletState := InitialState();
      provider := None;
    }

    /** The first current address with purpose `p`, or None; reads the state and changes nothing. */
    function GetAddressByPurpose(p: AddressPurpose): (r: Option<WalletAddress>)
      reads this
      ensures r.None? <==> forall a :: a in walletState.addresses ==> a.purpose != p
      ensures forall i :: IsFirstMatch(walletState.addresses, p, i) ==> r == Some(walletState.addresses[i])
    {
      FindByPurposeFirstMatchAll(walletState.addresses, p);
      FindByPurpose(walletState.addresses, p)
    }
  }
}
