/** What each awaited read does to the view state once it settles, as pure functions:
    the network lookup, the all-or-nothing raffle read, the stats read for one address,
    and the chains of them that the handlers run. The handlers in module App are
    specified by these functions. */
module Sync {
  import opened Wrappers
  import opened Text
  import opened View

  /** What the provider reports about the connected chain. */
  datatype Network = Network(name: string, chainId: int)

  const SepoliaChainId := 11155111

  /** The three raffle reads (ticket price, owner, entrants), joined: they succeed or
      fail together. */
  datatype LotteryRead = LotteryRead(price: nat, owner: string, players: seq<string>)

  /** The stats contract's answer for one address. */
  datatype StatsRead = StatsRead(tickets: nat, wins: nat)

  const LotteryLoadFailedText := "Fehler beim Laden der Lottery-Daten (Adresse & Netzwerk prüfen)."
  const SendingText := "Sende Transaktion…"
  const AwaitingConfirmationText := "Warte auf Bestätigung…"
  const JoinedText := "Du bist in der Lottery! 🎉"
  const JoinFailedText := "Fehler beim Beitritt"
  const DrawingText := "Ziehe Gewinner…"
  const WinnerPaidText := "Gewinner gezogen & ausgezahlt 🎊"
  const PickWinnerFailedText := "Fehler beim Ziehen des Gewinners (Owner? Spieler vorhanden?)"

  /** The name shown for a network: the provider's name, except that "homestead" is
      shown as "Mainnet". */
  function DisplayName(name: string): (shown: string)
    ensures name == "homestead" ==> shown == "Mainnet"
    ensures name != "homestead" ==> shown == name
  {
    if name == "homestead" then "Mainnet" else name
  }

  /** `loadNetworkInfo` once `getNetwork` has resolved. */
  function NetworkShown(v: ViewState, net: Network): ViewState {
    v.(networkName := DisplayName(net.name), isSepolia := net.chainId == SepoliaChainId)
  }

  /** `loadLotteryData` once the joined read has settled. */
  function LotteryLoaded(v: ViewState, read: Result<LotteryRead, Error>, formatEther: nat -> string): ViewState {
    match read
    case Ok(r) =>
      v.(lotteryInfo := Some(LotteryInfo(Decimal(r.price), formatEther(r.price), r.owner, r.players)),
         status := None)
    case Err(_) => v.(status := Some(LotteryLoadFailedText))
  }

  /** `loadPlayerStats(addr)`: nothing for a missing or empty address, otherwise the
      stats contract's answer for that address, or no stats when the read fails. */
  function StatsLoaded(v: ViewState, addr: Option<string>, statsOf: string -> Result<StatsRead, Error>): ViewState {
    if !Truthy(addr) then v
    else match statsOf(addr.value)
      case Ok(st) => v.(playerStats := Some(PlayerStats(Decimal(st.tickets), Decimal(st.wins))))
      case Err(_) => v.(playerStats := None)
  }

  /** The account the wallet lists first, or none when the list is empty
      (`accounts[0]` is then undefined). */
  function FirstAccount(accounts: seq<string>): (acc: Option<string>)
    ensures acc.Some? <==> |accounts| > 0
    ensures acc.Some? ==> acc.value == accounts[0]
  {
    if |accounts| > 0 then Some(accounts[0]) else None
  }

  /** Adopting an account: store it as given, read the raffle, then read the stats of
      that account. */
  function Synced(v: ViewState, acc: Option<string>, lottery: Result<LotteryRead, Error>,
                  statsOf: string -> Result<StatsRead, Error>, formatEther: nat -> string): ViewState {
    StatsLoaded(LotteryLoaded(v.(account := acc), lottery, formatEther), acc, statsOf)
  }

  /** The first error a transaction handler meets before its refresh: no wallet
      (thrown by `getProvider`), the submission, or the confirmation wait. */
  function TxFailure(hasWallet: bool, submit: Outcome, confirm: Outcome): (e: Option<Error>)
    ensures e.None? <==> hasWallet && submit.Done? && confirm.Done?
    ensures !hasWallet ==> e == Some(MissingWallet)
    ensures hasWallet && submit.Threw? ==> e == Some(submit.error)
    ensures hasWallet && submit.Done? && confirm.Threw? ==> e == Some(confirm.error)
  {
    if !hasWallet then Some(MissingWallet)
    else if submit.Threw? then Some(submit.error)
    else if confirm.Threw? then Some(confirm.error)
    else None
  }

  /** The tail of a confirmed transaction: re-read the raffle, ask the signer for its
      address, then read that address's stats; if the address lookup throws, the
      handler's catch clears the status. */
  function Resynced(v: ViewState, refresh: Result<LotteryRead, Error>, signer: Result<string, Error>,
                    statsOf: string -> Result<StatsRead, Error>, formatEther: nat -> string): ViewState {
    var w := LotteryLoaded(v, refresh, formatEther);
    match signer
    case Ok(addr) => StatsLoaded(w, Some(addr), statsOf)
    case Err(_) => w.(status := None)
  }

  // ---- Properties ----------------------------------------------------------------

  /** The network lookup touches only the network name and the Sepolia flag, and the
      flag holds exactly for chain id 11155111. */
  lemma NetworkShownEffect(v: ViewState, net: Network)
    ensures NetworkShown(v, net).isSepolia <==> net.chainId == 11155111
    ensures NetworkShown(v, net).networkName == (if net.name == "homestead" then "Mainnet" else net.name)
    ensures NetworkShown(v, net).(networkName := v.networkName, isSepolia := v.isSepolia) == v
  {
  }

  /** A successful raffle read replaces the lottery data with what was read, entrants
      in the contract's order, the price in wei rendered so that it reads back as the
      same amount, and clears the status; nothing else changes. */
  lemma LotteryReadSucceeded(v: ViewState, r: LotteryRead, formatEther: nat -> string)
    ensures var w := LotteryLoaded(v, Ok(r), formatEther);
      && w.lotteryInfo.Some?
      && w.lotteryInfo.value.owner == r.owner
      && w.lotteryInfo.value.players == r.players
      && w.lotteryInfo.value.ticketPriceEth == formatEther(r.price)
      && AllDigits(w.lotteryInfo.value.ticketPriceWei)
      && ParseDecimal(w.lotteryInfo.value.ticketPriceWei) == r.price
      && w.status.None?
      && w.(lotteryInfo := v.lotteryInfo, status := v.status) == v
  {
    ParseDecimalOfDecimal(r.price);
  }

  /** A failed raffle read leaves the previous lottery data exactly as it was (stale
      but visible) and sets the fixed error text; nothing else changes. */
  lemma LotteryReadFailed(v: ViewState, e: Error, formatEther: nat -> string)
    ensures LotteryLoaded(v, Err(e), formatEther) == v.(status := Some(LotteryLoadFailedText))
    ensures LotteryLoaded(v, Err(e), formatEther).lotteryInfo == v.lotteryInfo
  {
  }

  /** The error text of a failed raffle read is on screen only when older lottery data
      is: a failure before any data was loaded shows the "no data yet" card instead. */
  lemma LotteryFailureVisibleOnlyWithStaleData(v: ViewState, e: Error, formatEther: nat -> string)
    ensures StatusVisible(LotteryLoaded(v, Err(e), formatEther)) <==> v.lotteryInfo.Some?
  {
  }

  /** The stats read: a missing or empty address changes nothing at all (stats are not
      cleared); a failed read clears the stats; a successful one holds the two counts,
      rendered so they read back as the counts. Only playerStats ever changes. */
  lemma StatsLoadedEffect(v: ViewState, addr: Option<string>, statsOf: string -> Result<StatsRead, Error>)
    ensures !Truthy(addr) ==> StatsLoaded(v, addr, statsOf) == v
    ensures Truthy(addr) && statsOf(addr.value).Err? ==> StatsLoaded(v, addr, statsOf).playerStats.None?
    ensures Truthy(addr) && statsOf(addr.value).Ok? ==>
      var st := statsOf(addr.value).value;
      var ps := StatsLoaded(v, addr, statsOf).playerStats;
      && ps.Some?
      && AllDigits(ps.value.tickets) && ParseDecimal(ps.value.tickets) == st.tickets
      && AllDigits(ps.value.wins) && ParseDecimal(ps.value.wins) == st.wins
    ensures StatsLoaded(v, addr, statsOf).(playerStats := v.playerStats) == v
  {
    if Truthy(addr) && statsOf(addr.value).Ok? {
      var st := statsOf(addr.value).value;
      ParseDecimalOfDecimal(st.tickets);
      ParseDecimalOfDecimal(st.wins);
    }
  }

  /** Adopting an account stores it exactly as the wallet gave it (case included) and
      leaves loading, the winner banner and the network untouched. */
  lemma SyncedKeepsAccount(v: ViewState, acc: Option<string>, lottery: Result<LotteryRead, Error>,
                           statsOf: string -> Result<StatsRead, Error>, formatEther: nat -> string)
    ensures var w := Synced(v, acc, lottery, statsOf, formatEther);
      && w.account == acc
      && w.loading == v.loading && w.winnerFlash == v.winnerFlash
      && w.networkName == v.networkName && w.isSepolia == v.isSepolia
  {
  }

  /** An empty account list disconnects: no account, the connect button is back, and
      neither action button can be clicked. */
  lemma EmptyAccountListDisconnects(v: ViewState, lottery: Result<LotteryRead, Error>,
                                    statsOf: string -> Result<StatsRead, Error>, formatEther: nat -> string)
    ensures var w := Synced(v, FirstAccount([]), lottery, statsOf, formatEther);
      && w.account.None? && w.playerStats == v.playerStats
      && ConnectShown(w) && !JoinClickable(w) && !PickWinnerClickable(w)
  {
  }

  /** After a confirmed transaction whose refresh succeeds and whose signer is known,
      the status ends up empty whatever it was before; in particular the success text
      the handler has just set is already overwritten. */
  lemma RefreshOverwritesSuccessStatus(v: ViewState, r: LotteryRead, addr: string,
                                       statsOf: string -> Result<StatsRead, Error>, formatEther: nat -> string)
    ensures Resynced(v, Ok(r), Ok(addr), statsOf, formatEther).status.None?
  {
  }

  /** A transaction whose submission is rejected with a non-empty revert reason alerts
      exactly that reason, whatever the confirmation would have done; a rejection
      without reason or message falls back to the handler's fixed text. */
  lemma RejectionReasonIsAlerted(submitError: Error, confirm: Outcome, fallback: string)
    ensures Truthy(submitError.reason) ==>
      AlertText(TxFailure(true, Threw(submitError), confirm).value, fallback) == submitError.reason.value
    ensures !Truthy(submitError.reason) && !Truthy(submitError.message) ==>
      AlertText(TxFailure(true, Threw(submitError), confirm).value, fallback) == fallback
  {
  }

  /** What the tail of a confirmed transaction leaves: the lottery data of the refresh,
      or the old data when it fails; the status of the refresh, cleared when the address
      lookup fails; and the stats of the signer's address, not of the stored account. */
  lemma ResyncedEffect(v: ViewState, refresh: Result<LotteryRead, Error>, signer: Result<string, Error>,
                       statsOf: string -> Result<StatsRead, Error>, formatEther: nat -> string)
    ensures var w := Resynced(v, refresh, signer, statsOf, formatEther);
      && w.lotteryInfo == LotteryLoaded(v, refresh, formatEther).lotteryInfo
      && (refresh.Err? ==> w.lotteryInfo == v.lotteryInfo)
      && (signer.Err? ==> w.status.None? && w.playerStats == v.playerStats)
      && (signer.Ok? ==> w.status == LotteryLoaded(v, refresh, formatEther).status)
      && (signer.Ok? ==> w.playerStats == StatsLoaded(v, Some(signer.value), statsOf).playerStats)
      && w.account == v.account && w.loading == v.loading && w.winnerFlash == v.winnerFlash
  {
  }
}
