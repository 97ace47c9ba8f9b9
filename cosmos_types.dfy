/**
 * Values exchanged between a Cosmos account and its collaborators: tokens, the
 * chain's metadata, the balance query's response, wallets, signatures and the
 * arguments of the five staking/transfer messages.
 */
module CosmosTypes {
  import opened Wrappers
  import opened Numerals

  /** A bech32 account or validator address, kept as text. */
  type Address = string

  /** A CosmosToken: a non-negative amount of base units tagged with its denomination. */
  datatype Token = Token(denom: string, amount: nat)

  /** The part of CosmosChain an account reads: its endpoint and native denomination. */
  datatype Chain = Chain(url: string, denom: string)

  /** `Chain.coins(n)`: `n` base units of the chain's native denomination. */
  function Coins(chain: Chain, n: nat): Token {
    Token(chain.denom, n)
  }

  /** `amount.toString()`: the amount in base units as a decimal numeral. */
  function AmountString(t: Token): (s: string)
    ensures ParseDecimal(s) == Some(t.amount)
  {
    ParseDecimalString(t.amount);
    DecimalString(t.amount)
  }

  /** One entry of `resp.result.value.coins`, its amount already read as a big number. */
  datatype Coin = Coin(denom: string, amount: nat)

  /** The fields of AuthAccountsResponse that updateBalance looks at; `None` is a null coin list. */
  datatype AuthAccountsResponse = AuthAccountsResponse(coins: Option<seq<Coin>>)

  /** How `api.auth.account(address)` settled: it threw, or it returned a (possibly empty) response. */
  datatype AccountQuery = QueryThrew | QueryReturned(resp: Option<AuthAccountsResponse>)

  /** The first account of a Secp256k1HdWallet derived from a mnemonic: its address and raw public key. */
  datatype HdWallet = HdWallet(address: Address, pubkey: seq<bv8>)

  /** `encodeSecp256k1Pubkey(pubkey)`, kept symbolic. */
  datatype PubKey = Secp256k1PubKey(raw: seq<bv8>)

  /** `new SigningCosmosClient(url, address, wallet)`. */
  datatype SigningClient = SigningClient(url: string, signer: Address, wallet: HdWallet)

  /** A parsed StdSignDoc; its JSON structure is not modelled. */
  datatype StdSignDoc = StdSignDoc(body: string)

  /** The signature `signAmino(address, doc)` returns, kept symbolic: who signed which document. */
  datatype AminoSignature = AminoSignature(signer: Address, doc: StdSignDoc)

  datatype Msg = Msg(msgType: string, value: string)
  datatype StdFee = StdFee(amount: seq<Coin>, gas: string)

  /** The envelope `client.sign(msgs, fee, memo)` returns, kept symbolic. */
  datatype StdTx = StdTx(msgs: seq<Msg>, fee: StdFee, memo: Option<string>, signer: Address)

  /** An amount as transaction arguments carry it: denomination and decimal base units. */
  datatype AmountArg = AmountArg(denom: string, amount: string)

  /** The argument records the five transaction builders hand to `Chain.tx`. */
  datatype TxArgs =
    | SendArgs(toAddress: Address, amounts: seq<AmountArg>)
      // used by both MsgDelegate and MsgUndelegate
    | DelegateArgs(validatorAddress: Address, amount: string, denom: string)
    | RedelegateArgs(validatorSourceAddress: Address, validatorDestinationAddress: Address,
                     amount: string, denom: string)
    | WithdrawArgs(validatorAddress: Address)

  /** One call `Chain.tx(msgType, sender, args, memo, gas, denom)`. */
  datatype TxCall = TxCall(msgType: string, sender: Address, args: TxArgs, memo: string, gas: int, denom: string)

  /** The deferred `txFn`: everything `Chain.tx` receives except the gas, which the broadcast pipeline supplies. */
  datatype TxFn = TxFn(msgType: string, sender: Address, args: TxArgs, memo: string, denom: string) {
    function Call(gas: int): TxCall {
      TxCall(msgType, sender, args, memo, gas, denom)
    }
  }

  /** The errors the account layer surfaces; `ChainUnbound` and `ClientUnset` stand for the TypeError of an undefined field. */
  datatype AccountError = ChainUnbound | ClientUnset | InvalidMnemonic | MalformedPayload | WalletRequired

  /** A builder's optional `memo` parameter, which defaults to the empty string. */
  function MemoOrDefault(memo: Option<string>): string {
    memo.GetOr("")
  }
}
