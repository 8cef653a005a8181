/** The values the wallet hook works with: addresses handed back by a wallet
    provider, the hook's connection state, and the outcome of one provider
    call. */
module WalletTypes {

  datatype Option<+T> = None | Some(value: T)

  /** What a wallet address is meant for. */
  datatype AddressPurpose = Payment | Ordinals | Stacks

  /** One address returned by a provider, with its optional public key. */
  datatype WalletAddress = WalletAddress(address: string, purpose: AddressPurpose, publicKey: Option<string>)

  /** The network descriptor; the hook never sets one, so its shape is left open. */
  datatype Network = Network(name: string)

  /** The state record the hook exposes to the pages. */
  datatype WalletState = WalletState(
    isConnected: bool,
    addresses: seq<WalletAddress>,
    error: Option<string>,
    isLoading: bool,
    network: Option<Network>)

  /** An opaque, non-null wallet provider as chosen by the caller. */
  datatype WalletProvider = WalletProvider(id: string)

  /** Error codes a connection error can carry. */
  datatype RpcErrorCode = Disconnected | ProviderReported(code: int)

  /** What a failed provider call throws: the tagged connection error, or anything else. */
  datatype Thrown =
    | WalletConnectionError(code: RpcErrorCode, message: string)
    | OtherError(description: string)

  /** The settled result of the time-bounded provider call. */
  datatype ConnectOutcome =
    | Resolved(addresses: seq<WalletAddress>)
    | Rejected(thrown: Thrown)
}
