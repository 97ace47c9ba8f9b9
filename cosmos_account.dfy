/**
 * The Cosmos account registry (CosmosAccounts) and the accounts it holds
 * (CosmosAccount): lookup-or-create by address, wallet binding, signing, the
 * balance cache and the five transaction builders.
 */
module Cosmos {
  import opened Wrappers
  import opened CosmosTypes
  import opened CosmosBalance

  /**
   * What `Chain.createTXModalData(account, txFn, txType, summary, onSuccess?)`
   * receives: the descriptor the broadcast pipeline later resolves.
   */
  datatype TxModalData = TxModalData(
    account: CosmosAccount,
    txFn: TxFn,
    txType: string,
    summary: string,
    onSuccess: Option<seq<CosmosAccount>>)
  {
    /** The accounts whose balance the success callback refreshes once the broadcast settles with `success`. */
    function RefreshedOn(success: bool): seq<CosmosAccount> {
      match onSuccess
      case None => []
      case Some(accounts) => if success then accounts else []
    }
  }

  class CosmosAccount {
    const address: Address
    /** The chain bound at construction; `None` when the registry had not been initialised. */
    const chain: Option<Chain>
    const registry: CosmosAccounts

    var wallet: Option<HdWallet>
    var pubKey: Option<PubKey>
    var client: Option<SigningClient>
    var balance: Option<Token>
    /** What `setMnemonic`, a method of the base Account class, records. */
    var mnemonic: Option<string>

    /** An account as the constructor leaves it: no wallet, no client, no cached balance. */
    ghost predicate Bare()
      reads this
    {
      wallet.None? && pubKey.None? && client.None? && balance.None? && mnemonic.None?
    }

    /** Constructing an account adds it to its registry's store under its address. */
    constructor (chainInfo: Option<Chain>, accounts: CosmosAccounts, address: Address)
      requires accounts.Valid()
      modifies accounts`store
      ensures this.address == address && chain == chainInfo && registry == accounts
      ensures Bare()
      ensures accounts.store == old(accounts.store)[address := this]
      ensures accounts.Valid()
    {
      this.address := address;
      chain := chainInfo;
      registry := accounts;
      wallet, pubKey, client, balance, mnemonic := None, None, None, None, None;
      new;
      accounts.Add(this);
    }

    /**
     * Binds a wallet. The wallet and its encoded public key are stored first; the
     * signing client needs the chain's endpoint, so with no chain bound the call
     * fails (`ok` is false) after those two assignments and the client is left as it was.
     */
    method SetWallet(w: HdWallet) returns (ok: bool)
      modifies this`wallet, this`pubKey, this`client
      ensures wallet == Some(w) && pubKey == Some(Secp256k1PubKey(w.pubkey))
      ensures ok <==> chain.Some?
      ensures ok ==> client == Some(SigningClient(chain.value.url, w.address, w))
      ensures !ok ==> client == old(client)
    {
      wallet := Some(w);
      pubKey := Some(Secp256k1PubKey(w.pubkey));
      if chain.None? {
        return false;
      }
      client := Some(SigningClient(chain.value.url, w.address, w));
      ok := true;
    }

    /**
     * Signs a JSON sign document with the bound wallet. The payload is parsed
     * (`parse` stands for JSON.parse) before the wallet is checked.
     */
    function SignMessage(message: string, parse: string -> Option<StdSignDoc>): (r: Result<AminoSignature, AccountError>)
      reads this
      ensures parse(message).None? ==> r == Failure(MalformedPayload)
      ensures parse(message).Some? && wallet.None? ==> r == Failure(WalletRequired)
      ensures r.Success? <==> parse(message).Some? && wallet.Some?
      ensures r.Success? ==> r.value.signer == wallet.value.address && r.value.doc == parse(message).value
    {
      match parse(message)
      case None => Failure(MalformedPayload)
      case Some(doc) =>
        if wallet.None? then Failure(WalletRequired)
        else Success(AminoSignature(wallet.value.address, doc))
    }

    /** Signs exactly one staking message through the signing client. */
    function SignMsg(msg: Msg, fee: StdFee, memo: Option<string>): (r: Result<StdTx, AccountError>)
      reads this
      ensures r.Success? <==> client.Some?
      ensures client.None? ==> r == Failure(ClientUnset)
      ensures r.Success? ==> r.value.msgs == [msg] && r.value.fee == fee && r.value.memo == memo
      ensures r.Success? ==> r.value.signer == client.value.signer
    {
      if client.None? then Failure(ClientUnset)
      else Success(StdTx([msg], fee, memo, client.value.signer))
    }

    /**
     * One un-throttled run of updateBalance, given how the balance query settled.
     * With no chain bound both the query and the fallback in its catch block fail,
     * so the call rejects and the cache is untouched.
     */
    method UpdateBalance(q: AccountQuery) returns (r: Result<Option<Token>, AccountError>)
      modifies this`balance
      ensures chain.None? ==> r == Failure(ChainUnbound) && balance == old(balance)
      ensures chain.Some? ==>
        var step := AfterUpdate(chain.value, old(balance), q);
        balance == step.balance && r == Success(step.returned)
    {
      if chain.None? {
        return Failure(ChainUnbound);
      }
      var c := chain.value;
      match q
      case QueryThrew =>
        balance := Some(Coins(c, 0));
        r := Success(None);
      case QueryReturned(None) =>
        r := Success(None);
      case QueryReturned(Some(resp)) =>
        if resp.coins.Some? && |resp.coins.value| > 0 {
          var coins := resp.coins.value;
          var i := 0;
          while i < |coins|
            invariant 0 <= i <= |coins|
            invariant balance == Scan(c, coins[..i], old(balance))
          {
            assert coins[..i + 1][..i] == coins[..i];
            if coins[i].denom == c.denom {
              balance := Some(Coins(c, coins[i].amount));
            }
            i := i + 1;
          }
          assert coins[..|coins|] == coins;
        }
        if balance.None? {
          balance := Some(Coins(c, 0));
        }
        r := Success(balance);
    }

    /** The `balance` getter: always refreshes first, then reads the cache. */
    method Balance(q: AccountQuery) returns (r: Result<Option<Token>, AccountError>)
      modifies this`balance
      ensures chain.None? ==> r == Failure(ChainUnbound) && balance == old(balance)
      ensures chain.Some? ==> balance == AfterUpdate(chain.value, old(balance), q).balance && r == Success(balance)
    {
      var u := UpdateBalance(q);
      if u.Failure? {
        return Failure(u.error);
      }
      r := Success(balance);
    }

    /** `d` is a descriptor of this account whose deferred call sends `msgType` with `memo` and the chain's denomination. */
    ghost predicate DefersCall(d: TxModalData, msgType: string, tag: string, memo: Option<string>)
      requires chain.Some?
    {
      && d.account == this
      && d.txType == tag
      && forall gas :: d.txFn.Call(gas) == TxCall(msgType, address, d.txFn.args, MemoOrDefault(memo), gas, chain.value.denom)
    }

    function SendBalanceTx(recipient: CosmosAccount, amount: Token, memo: Option<string>, format: Token -> string)
      : (r: Result<TxModalData, AccountError>)
      ensures r.Success? <==> chain.Some?
      ensures chain.None? ==> r == Failure(ChainUnbound)
      ensures r.Success? ==>
        && DefersCall(r.value, "MsgSend", "MsgSend", memo)
        && r.value.txFn.args == SendArgs(recipient.address, [AmountArg(amount.denom, AmountString(amount))])
        && r.value.summary == address + " sent " + format(amount) + " to " + recipient.address
        && r.value.RefreshedOn(true) == [this, recipient]
        && r.value.RefreshedOn(false) == []
    {
      if chain.None? then Failure(ChainUnbound)
      else
        var args := SendArgs(recipient.address, [AmountArg(amount.denom, AmountString(amount))]);
        Success(TxModalData(
          this,
          TxFn("MsgSend", address, args, MemoOrDefault(memo), chain.value.denom),
          "MsgSend",
          address + " sent " + format(amount) + " to " + recipient.address,
          Some([this, recipient])))
    }

    function DelegateTx(validatorAddress: Address, amount: Token, memo: Option<string>, format: Token -> string)
      : (r: Result<TxModalData, AccountError>)
      ensures r.Success? <==> chain.Some?
      ensures chain.None? ==> r == Failure(ChainUnbound)
      ensures r.Success? ==>
        && DefersCall(r.value, "MsgDelegate", "MsgDelegate", memo)
        && r.value.txFn.args == DelegateArgs(validatorAddress, AmountString(amount), amount.denom)
        && r.value.summary == address + " delegated " + format(amount) + " to " + validatorAddress
        && r.value.onSuccess.None?
    {
      if chain.None? then Failure(ChainUnbound)
      else
        var args := DelegateArgs(validatorAddress, AmountString(amount), amount.denom);
        Success(TxModalData(
          this,
          TxFn("MsgDelegate", address, args, MemoOrDefault(memo), chain.value.denom),
          "MsgDelegate",
          address + " delegated " + format(amount) + " to " + validatorAddress,
          None))
    }

    function UndelegateTx(validatorAddress: Address, amount: Token, memo: Option<string>, format: Token -> string)
      : (r: Result<TxModalData, AccountError>)
      ensures r.Success? <==> chain.Some?
      ensures chain.None? ==> r == Failure(ChainUnbound)
      ensures r.Success? ==>
        && DefersCall(r.value, "MsgUndelegate", "MsgUndelegate", memo)
        && r.value.txFn.args == DelegateArgs(validatorAddress, AmountString(amount), amount.denom)
        && r.value.summary == address + " undelegated " + format(amount) + " from " + validatorAddress
        && r.value.onSuccess.None?
    {
      if chain.None? then Failure(ChainUnbound)
      else
        var args := DelegateArgs(validatorAddress, AmountString(amount), amount.denom);
        Success(TxModalData(
          this,
          TxFn("MsgUndelegate", address, args, MemoOrDefault(memo), chain.value.denom),
          "MsgUndelegate",
          address + " undelegated " + format(amount) + " from " + validatorAddress,
          None))
    }

    function RedelegateTx(validatorSource: Address, validatorDest: Address, amount: Token, memo: Option<string>,
                          format: Token -> string)
      : (r: Result<TxModalData, AccountError>)
      ensures r.Success? <==> chain.Some?
      ensures chain.None? ==> r == Failure(ChainUnbound)
      ensures r.Success? ==>
        && DefersCall(r.value, "MsgRedelegate", "MsgRedelegate", memo)
        && r.value.txFn.args == RedelegateArgs(validatorSource, validatorDest, AmountString(amount), amount.denom)
        && r.value.summary ==
             address + " redelegated " + format(amount) + " from " + validatorSource + " to " + validatorDest
        && r.value.onSuccess.None?
    {
      if chain.None? then Failure(ChainUnbound)
      else
        var args := RedelegateArgs(validatorSource, validatorDest, AmountString(amount), amount.denom);
        Success(TxModalData(
          this,
          TxFn("MsgRedelegate", address, args, MemoOrDefault(memo), chain.value.denom),
          "MsgRedelegate",
          address + " redelegated " + format(amount) + " from " + validatorSource + " to " + validatorDest,
          None))
    }

    /** As written: the chain receives MsgWithdrawDelegationReward, but the descriptor is tagged MsgDelegate. */
    function WithdrawDelegationRewardTx(validatorAddress: Address, memo: Option<string>)
      : (r: Result<TxModalData, AccountError>)
      ensures r.Success? <==> chain.Some?
      ensures chain.None? ==> r == Failure(ChainUnbound)
      ensures r.Success? ==>
        && DefersCall(r.value, "MsgWithdrawDelegationReward", "MsgDelegate", memo)
        && r.value.txFn.args == WithdrawArgs(validatorAddress)
        && r.value.summary == address + " withdrew reward from " + validatorAddress
        && r.value.onSuccess.None?
    {
      if chain.None? then Failure(ChainUnbound)
      else
        Success(TxModalData(
          this,
          TxFn("MsgWithdrawDelegationReward", address, WithdrawArgs(validatorAddress), MemoOrDefault(memo),
               chain.value.denom),
          "MsgDelegate",
          address + " withdrew reward from " + validatorAddress,
          None))
    }

    /** The withdraw descriptor's tag disagrees with the message it sends, unlike the other four builders. */
    lemma WithdrawTagMismatch(validatorAddress: Address, memo: Option<string>)
      requires chain.Some?
      ensures var d := WithdrawDelegationRewardTx(validatorAddress, memo).value;
        d.txType != d.txFn.msgType
    {
    }

    /** The withdraw builder tagged with the message type it actually sends. */
    function WithdrawDelegationRewardTxTagged(validatorAddress: Address, memo: Option<string>)
      : (r: Result<TxModalData, AccountError>)
      ensures r.Success? <==> chain.Some?
      ensures chain.None? ==> r == Failure(ChainUnbound)
      ensures r.Success? ==>
        && DefersCall(r.value, "MsgWithdrawDelegationReward", "MsgWithdrawDelegationReward", memo)
        && r.value.txType == r.value.txFn.msgType
        && r.value.txFn.args == WithdrawArgs(validatorAddress)
        && r.value.summary == address + " withdrew reward from " + validatorAddress
        && r.value.onSuccess.None?
    {
      if chain.None? then Failure(ChainUnbound)
      else
        Success(TxModalData(
          this,
          TxFn("MsgWithdrawDelegationReward", address, WithdrawArgs(validatorAddress), MemoOrDefault(memo),
               chain.value.denom),
          "MsgWithdrawDelegationReward",
          address + " withdrew reward from " + validatorAddress,
          None))
    }
  }

  class CosmosAccounts {
    var initialized: bool
    /** The AccountsStore, as its address index: address to account. */
    var store: map<Address, CosmosAccount>
    var chain: Option<Chain>

    /** Every stored account is filed under its own address. */
    ghost predicate Valid()
      reads this
    {
      forall a :: a in store ==> store[a].address == a
    }

    constructor ()
      ensures Valid() && !initialized && store == map[] && chain.None?
    {
      initialized := false;
      store := map[];
      chain := None;
    }

    /** `store.add(account)`: files the account under its address, replacing any earlier entry. */
    method Add(acct: CosmosAccount)
      requires Valid()
      modifies this`store
      ensures store == old(store)[acct.address := acct]
      ensures Valid()
    {
      store := store[acct.address := acct];
    }

    /** Looks an address up; on a miss builds a bare account, whose constructor files it in the store. */
    method FromAddress(address: Address) returns (acct: CosmosAccount)
      requires Valid()
      modifies this`store
      ensures Valid()
      ensures address in old(store) ==> acct == old(store)[address] && store == old(store)
      ensures address !in old(store) ==>
        fresh(acct) && acct.Bare() && acct.chain == chain && acct.registry == this
        && store == old(store)[address := acct]
      ensures acct.address == address && address in store && store[address] == acct
    {
      if address in store {
        acct := store[address];
      } else {
        acct := new CosmosAccount(chain, this, address);
      }
    }

    /** `get(address)`: the same as FromAddress. */
    method Get(address: Address) returns (acct: CosmosAccount)
      requires Valid()
      modifies this`store
      ensures Valid()
      ensures address in old(store) ==> acct == old(store)[address] && store == old(store)
      ensures address !in old(store) ==>
        fresh(acct) && acct.Bare() && acct.chain == chain && acct.registry == this
        && store == old(store)[address := acct]
      ensures acct.address == address && address in store && store[address] == acct
    {
      acct := FromAddress(address);
    }

    /** A lookup that never creates an account. */
    function FromAddressIfExists(address: Address): (r: Option<CosmosAccount>)
      reads this
      ensures r.Some? <==> address in store
      ensures r.Some? ==> r.value == store[address]
      ensures Valid() && r.Some? ==> r.value.address == address
    {
      if address in store then Some(store[address]) else None
    }

    /**
     * As written: builds a new account for the wallet's address without looking in
     * the store, records the mnemonic and binds the wallet. `derived` is the wallet
     * derived from `mnemonic`, or `None` when derivation rejects the phrase. With no
     * chain bound the new account is already filed when binding the wallet fails.
     */
    method FromMnemonic(mnemonic: string, derived: Option<HdWallet>) returns (r: Result<CosmosAccount, AccountError>)
      requires Valid()
      modifies this`store
      ensures Valid()
      ensures derived.None? ==> r == Failure(InvalidMnemonic) && store == old(store)
      ensures derived.Some? ==>
        var w := derived.value;
        && w.address in store
        && var acct := store[w.address];
        && fresh(acct)
        && store == old(store)[w.address := acct]
        && acct.chain == chain && acct.registry == this
        && acct.mnemonic == Some(mnemonic) && acct.wallet == Some(w)
        && acct.pubKey == Some(Secp256k1PubKey(w.pubkey))
        && acct.balance.None?
        && (chain.Some? ==> r == Success(acct) && acct.client == Some(SigningClient(chain.value.url, w.address, w)))
        && (chain.None? ==> r == Failure(ChainUnbound) && acct.client.None?)
    {
      if derived.None? {
        return Failure(InvalidMnemonic);
      }
      var w := derived.value;
      var acct := new CosmosAccount(chain, this, w.address);
      acct.mnemonic := Some(mnemonic);
      var ok := acct.SetWallet(w);
      r := if ok then Success(acct) else Failure(ChainUnbound);
    }

    /** `fromSeed(seed)`: the same as FromMnemonic. */
    method FromSeed(seed: string, derived: Option<HdWallet>) returns (r: Result<CosmosAccount, AccountError>)
      requires Valid()
      modifies this`store
      ensures Valid()
      ensures derived.None? ==> r == Failure(InvalidMnemonic) && store == old(store)
      ensures derived.Some? ==>
        var w := derived.value;
        && w.address in store
        && var acct := store[w.address];
        && fresh(acct)
        && store == old(store)[w.address := acct]
        && acct.chain == chain && acct.registry == this
        && acct.mnemonic == Some(seed) && acct.wallet == Some(w)
        && acct.pubKey == Some(Secp256k1PubKey(w.pubkey))
        && acct.balance.None?
        && (chain.Some? ==> r == Success(acct) && acct.client == Some(SigningClient(chain.value.url, w.address, w)))
        && (chain.None? ==> r == Failure(ChainUnbound) && acct.client.None?)
    {
      r := FromMnemonic(seed, derived);
    }

    /**
     * Corrected: reuses the account already filed under the wallet's address, so
     * the store keeps one account object per address across mnemonic logins.
     */
    method FromMnemonicSingleInstance(mnemonic: string, derived: Option<HdWallet>)
      returns (r: Result<CosmosAccount, AccountError>)
      requires Valid()
      modifies this`store, if derived.Some? && derived.value.address in store then {store[derived.value.address]} else {}
      ensures Valid()
      ensures derived.None? ==> r == Failure(InvalidMnemonic) && store == old(store)
      ensures derived.Some? ==>
        var w := derived.value;
        && w.address in store
        && var acct := store[w.address];
        && (w.address in old(store) ==> acct == old(store)[w.address] && store == old(store))
        && (w.address !in old(store) ==> fresh(acct) && acct.chain == chain && store == old(store)[w.address := acct])
        && acct.mnemonic == Some(mnemonic) && acct.wallet == Some(w)
        && acct.pubKey == Some(Secp256k1PubKey(w.pubkey))
        && acct.balance == old(if w.address in store then store[w.address].balance else None)
        && (acct.chain.Some? ==> r == Success(acct) && acct.client == Some(SigningClient(acct.chain.value.url, w.address, w)))
        && (acct.chain.None? ==>
              && r == Failure(ChainUnbound)
              && acct.client == old(if w.address in store then store[w.address].client else None))
      ensures derived.Some? ==>
        forall a :: a in old(store) && a != derived.value.address ==> unchanged(old(store)[a])
    {
      if derived.None? {
        return Failure(InvalidMnemonic);
      }
      var w := derived.value;
      var acct := FromAddress(w.address);
      acct.mnemonic := Some(mnemonic);
      var ok := acct.SetWallet(w);
      r := if ok then Success(acct) else Failure(ChainUnbound);
    }

    method Init(c: Chain)
      requires Valid()
      modifies this
      ensures Valid()
      ensures chain == Some(c) && initialized && store == old(store)
    {
      chain := Some(c);
      initialized := true;
    }

    /** Clears the store; the resulting state does not depend on the previous one, so a second call changes nothing. */
    method Deinit()
      modifies this`initialized, this`store
      ensures Valid()
      ensures !initialized && store == map[]
    {
      initialized := false;
      store := map[];
    }
  }

  /** Looking the same address up twice yields the very same account object. */
  method FromAddressTwice(accounts: CosmosAccounts, address: Address) returns (first: CosmosAccount, second: CosmosAccount)
    requires accounts.Valid()
    modifies accounts`store
    ensures first == second && first.address == address
    ensures accounts.FromAddressIfExists(address) == Some(first)
  {
    first := accounts.FromAddress(address);
    second := accounts.FromAddress(address);
  }

  /** A mnemonic login for an address already in the store displaces the stored account with a new object. */
  method FromMnemonicDisplaces(accounts: CosmosAccounts, mnemonic: string, w: HdWallet)
    returns (before: CosmosAccount, after: CosmosAccount)
    requires accounts.Valid()
    modifies accounts`store
    ensures before != after
    ensures before.address == after.address == w.address
    ensures accounts.FromAddressIfExists(w.address) == Some(after)
  {
    before := accounts.FromAddress(w.address);
    var _ := accounts.FromMnemonic(mnemonic, Some(w));
    after := accounts.store[w.address];
  }

  /** Calling Deinit twice leaves the same state as calling it once. */
  method DeinitTwice(accounts: CosmosAccounts)
    modifies accounts`initialized, accounts`store
    ensures !accounts.initialized && accounts.store == map[]
    ensures accounts.chain == old(accounts.chain)
  {
    accounts.Deinit();
    accounts.Deinit();
  }
}
