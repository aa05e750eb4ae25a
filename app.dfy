/** The App component as an object: one field per state hook, and the async handlers
    as methods that assign those fields in the order the setters run. Every awaited
    wallet or contract call is a parameter carrying what it resolved with or threw.

    `suspended` records the state on screen at each await of a wallet or contract
    call; it is how the contracts say what the page shows while a handler waits. */
module App {
  import opened Wrappers
  import opened Text
  import opened View
  import opened Sync

  class RaffleApp {
    var account: Option<string>
    var networkName: string
    var isSepolia: bool
    var lotteryInfo: Option<LotteryInfo>
    var playerStats: Option<PlayerStats>
    var loading: bool
    var status: Option<string>
    var winnerFlash: bool

    /** `ethers.utils.formatEther`, whose output format is not part of this model. */
    const formatEther: nat -> string

    ghost var suspended: seq<ViewState>

    ghost function State(): ViewState
      reads this
    {
      ViewState(account, networkName, isSepolia, lotteryInfo, playerStats, loading, status, winnerFlash)
    }

    /** Every screen shown at an await since the `n`-th had loading set. */
    ghost predicate LoadingShownSince(n: nat)
      reads this
    {
      n <= |suspended| && forall k :: n <= k < |suspended| ==> suspended[k].loading
    }

    /** The first render: every hook at its initial value. */
    constructor (formatEther: nat -> string)
      ensures State() == Initial && suspended == []
      ensures this.formatEther == formatEther
    {
      account, networkName, isSepolia := None, "", false;
      lotteryInfo, playerStats := None, None;
      loading, status, winnerFlash := false, None, false;
      this.formatEther := formatEther;
      suspended := [];
    }

    /** `loadNetworkInfo`: await the network, then show its name and whether it is
        Sepolia. If the lookup throws, nothing changes and the error propagates. */
    method LoadNetworkInfo(net: Result<Network, Error>) returns (thrown: Option<Error>)
      modifies this
      ensures suspended == old(suspended) + [old(State())]
      ensures net.Ok? ==> thrown.None? && State() == NetworkShown(old(State()), net.value)
      ensures net.Err? ==> thrown == Some(net.error) && State() == old(State())
    {
      suspended := suspended + [State()];
      match net
      case Err(e) =>
        thrown := Some(e);
      case Ok(n) =>
        networkName := DisplayName(n.name);
        isSepolia := n.chainId == SepoliaChainId;
        thrown := None;
    }

    /** `loadLotteryData`: await the joined raffle read; on success store it and clear
        the status, on failure keep the old data and set the error text. Never throws. */
    method LoadLotteryData(read: Result<LotteryRead, Error>)
      modifies this
      ensures suspended == old(suspended) + [old(State())]
      ensures State() == LotteryLoaded(old(State()), read, formatEther)
    {
      suspended := suspended + [State()];
      match read
      case Ok(r) =>
        lotteryInfo := Some(LotteryInfo(Decimal(r.price), formatEther(r.price), r.owner, r.players));
        status := None;
      case Err(_) =>
        status := Some(LotteryLoadFailedText);
    }

    /** `loadPlayerStats(addr)`: return at once for a missing or empty address; otherwise
        await the stats contract for that address. Never throws. */
    method LoadPlayerStats(addr: Option<string>, statsOf: string -> Result<StatsRead, Error>)
      modifies this
      ensures suspended == old(suspended) + (if Truthy(addr) then [old(State())] else [])
      ensures State() == StatsLoaded(old(State()), addr, statsOf)
    {
      if !Truthy(addr) {
        return;
      }
      suspended := suspended + [State()];
      match statsOf(addr.value)
      case Ok(st) =>
        playerStats := Some(PlayerStats(Decimal(st.tickets), Decimal(st.wins)));
      case Err(_) =>
        playerStats := None;
    }

    /** `initOnLoad`: without a wallet, do nothing; otherwise show the network, list the
        authorised accounts and, if there is one, adopt the first. Nothing catches an
        error here, so a failed lookup ends the handler (`rejected`). */
    method InitOnLoad(hasWallet: bool, net: Result<Network, Error>, accounts: Result<seq<string>, Error>,
                      lottery: Result<LotteryRead, Error>, statsOf: string -> Result<StatsRead, Error>)
      returns (rejected: Option<Error>)
      modifies this
      ensures old(suspended) <= suspended
      ensures !hasWallet ==> rejected.None? && State() == old(State()) && suspended == old(suspended)
      ensures hasWallet && net.Err? ==> rejected == Some(net.error) && State() == old(State())
      ensures hasWallet && net.Ok? && accounts.Err? ==>
        rejected == Some(accounts.error) && State() == NetworkShown(old(State()), net.value)
      ensures hasWallet && net.Ok? && accounts.Ok? && |accounts.value| == 0 ==>
        rejected.None? && State() == NetworkShown(old(State()), net.value)
      ensures hasWallet && net.Ok? && accounts.Ok? && |accounts.value| > 0 ==>
        rejected.None?
        && State() == Synced(NetworkShown(old(State()), net.value), Some(accounts.value[0]), lottery, statsOf, formatEther)
    {
      rejected := None;
      if !hasWallet {
        return;
      }
      rejected := LoadNetworkInfo(net);
      if rejected.Some? {
        return;
      }
      suspended := suspended + [State()];
      match accounts
      case Err(e) =>
        rejected := Some(e);
      case Ok(accs) =>
        if |accs| > 0 {
          account := Some(accs[0]);
          LoadLotteryData(lottery);
          LoadPlayerStats(Some(accs[0]), statsOf);
        }
    }

    /** `connectWallet`: ask the wallet for accounts, store the first as given (none when
        the list is empty), show the network, then read the raffle and that account's
        stats. Errors are caught and only logged (`logged`). */
    method ConnectWallet(hasWallet: bool, accounts: Result<seq<string>, Error>, net: Result<Network, Error>,
                         lottery: Result<LotteryRead, Error>, statsOf: string -> Result<StatsRead, Error>)
      returns (logged: Option<Error>)
      modifies this
      ensures old(suspended) <= suspended
      ensures !hasWallet ==>
        logged == Some(MissingWallet) && State() == old(State()) && suspended == old(suspended)
      ensures hasWallet && accounts.Err? ==> logged == Some(accounts.error) && State() == old(State())
      ensures hasWallet && accounts.Ok? && net.Err? ==>
        logged == Some(net.error) && State() == old(State()).(account := FirstAccount(accounts.value))
      ensures hasWallet && accounts.Ok? && net.Ok? ==>
        logged.None?
        && State() == Synced(NetworkShown(old(State()), net.value), FirstAccount(accounts.value), lottery, statsOf, formatEther)
    {
      if !hasWallet {
        logged := Some(MissingWallet);
        return;
      }
      suspended := suspended + [State()];
      match accounts
      case Err(e) =>
        logged := Some(e);
      case Ok(accs) =>
        var acc := if |accs| > 0 then Some(accs[0]) else None;
        account := acc;
        logged := LoadNetworkInfo(net);
        if logged.None? {
          LoadLotteryData(lottery);
          LoadPlayerStats(acc, statsOf);
        }
    }

    /** The part of a transaction handler after confirmation: re-read the raffle, await
        the signer's address, read its stats. A failed address lookup is returned for
        the handler's catch. */
    method Refresh(refresh: Result<LotteryRead, Error>, signer: Result<string, Error>,
                   statsOf: string -> Result<StatsRead, Error>, ghost n: nat)
      returns (failure: Option<Error>)
      modifies this
      ensures old(suspended) <= suspended
      ensures old(loading) && old(LoadingShownSince(n)) ==> LoadingShownSince(n)
      ensures failure == (if signer.Err? then Some(signer.error) else None)
      ensures signer.Ok? ==> State() == Resynced(old(State()), refresh, signer, statsOf, formatEther)
      ensures signer.Err? ==> State() == LotteryLoaded(old(State()), refresh, formatEther)
    {
      LoadLotteryData(refresh);
      suspended := suspended + [State()];
      match signer
      case Err(e) =>
        failure := Some(e);
      case Ok(addr) =>
        failure := None;
        LoadPlayerStats(Some(addr), statsOf);
    }

    /** `joinLottery`: with no lottery data, return; otherwise set loading, submit
        `enter` with the displayed wei price, await confirmation, then refresh. Any
        error clears the status and is alerted; loading is reset on every path and is
        set on every screen shown while the handler waits. */
    method JoinLottery(hasWallet: bool, submit: Outcome, confirm: Outcome, refresh: Result<LotteryRead, Error>,
                       signer: Result<string, Error>, statsOf: string -> Result<StatsRead, Error>)
      returns (submitted: Option<string>, alert: Option<string>)
      modifies this
      ensures old(suspended) <= suspended
      ensures old(lotteryInfo).None? ==>
        State() == old(State()) && suspended == old(suspended) && submitted.None? && alert.None?
      ensures old(lotteryInfo).Some? ==>
        && !loading
        && LoadingShownSince(|old(suspended)|)
        && submitted == (if hasWallet then Some(old(lotteryInfo).value.ticketPriceWei) else None)
      ensures old(lotteryInfo).Some? && TxFailure(hasWallet, submit, confirm).Some? ==>
        && State() == old(State()).(status := None, loading := false)
        && alert == Some(AlertText(TxFailure(hasWallet, submit, confirm).value, JoinFailedText))
      ensures old(lotteryInfo).Some? && TxFailure(hasWallet, submit, confirm).None? ==>
        && State() == Resynced(old(State()).(loading := true, status := Some(JoinedText)),
                               refresh, signer, statsOf, formatEther).(loading := false)
        && alert == (if signer.Err? then Some(AlertText(signer.error, JoinFailedText)) else None)
    {
      submitted, alert := None, None;
      if lotteryInfo.None? {
        return;
      }
      ghost var n := |suspended|;
      var info := lotteryInfo.value;
      loading := true;
      status := Some(SendingText);
      var failure: Option<Error> := None;
      if !hasWallet {
        failure := Some(MissingWallet);
      } else {
        suspended := suspended + [State()];
        submitted := Some(info.ticketPriceWei);
        if submit.Threw? {
          failure := Some(submit.error);
        } else {
          status := Some(AwaitingConfirmationText);
          suspended := suspended + [State()];
          if confirm.Threw? {
            failure := Some(confirm.error);
          } else {
            status := Some(JoinedText);
            failure := Refresh(refresh, signer, statsOf, n);
          }
        }
      }
      if failure.Some? {
        status := None;
        alert := Some(AlertText(failure.value, JoinFailedText));
      }
      loading := false;
    }

    /** `pickWinner`: like joinLottery, but submits `pickWinner` with no value, shows no
        confirmation text, and raises the winner banner once confirmed. */
    method PickWinner(hasWallet: bool, submit: Outcome, confirm: Outcome, refresh: Result<LotteryRead, Error>,
                      signer: Result<string, Error>, statsOf: string -> Result<StatsRead, Error>)
      returns (submitted: bool, alert: Option<string>)
      modifies this
      ensures old(suspended) <= suspended
      ensures old(lotteryInfo).None? ==>
        State() == old(State()) && suspended == old(suspended) && !submitted && alert.None?
      ensures old(lotteryInfo).Some? ==>
        && !loading
        && LoadingShownSince(|old(suspended)|)
        && submitted == hasWallet
      ensures old(lotteryInfo).Some? && TxFailure(hasWallet, submit, confirm).Some? ==>
        && State() == old(State()).(status := None, loading := false)
        && alert == Some(AlertText(TxFailure(hasWallet, submit, confirm).value, PickWinnerFailedText))
      ensures old(lotteryInfo).Some? && TxFailure(hasWallet, submit, confirm).None? ==>
        && State() == Resynced(old(State()).(loading := true, status := Some(WinnerPaidText), winnerFlash := true),
                               refresh, signer, statsOf, formatEther).(loading := false)
        && alert == (if signer.Err? then Some(AlertText(signer.error, PickWinnerFailedText)) else None)
    {
      submitted, alert := false, None;
      if lotteryInfo.None? {
        return;
      }
      ghost var n := |suspended|;
      loading := true;
      status := Some(DrawingText);
      var failure: Option<Error> := None;
      if !hasWallet {
        failure := Some(MissingWallet);
      } else {
        suspended := suspended + [State()];
        submitted := true;
        if submit.Threw? {
          failure := Some(submit.error);
        } else {
          suspended := suspended + [State()];
          if confirm.Threw? {
            failure := Some(confirm.error);
          } else {
            status := Some(WinnerPaidText);
            winnerFlash := true;
            failure := Refresh(refresh, signer, statsOf, n);
          }
        }
      }
      if failure.Some? {
        status := None;
        alert := Some(AlertText(failure.value, PickWinnerFailedText));
      }
      loading := false;
    }

    /** The timer callback scheduled after a winner is picked: hide the banner. */
    method ClearWinnerFlash()
      modifies this
      ensures State() == old(State()).(winnerFlash := false)
      ensures suspended == old(suspended)
    {
      winnerFlash := false;
    }
  }
}
