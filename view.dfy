/** The raffle client's view state (one record holding every value the page renders)
    and the values the page derives from it: ownership, participation, the two action
    buttons, the join label and the alert text of a failed transaction. */
module View {
  import opened Wrappers
  import opened Text

  /** What the raffle contract reported, as the page keeps it. */
  datatype LotteryInfo = LotteryInfo(
    ticketPriceWei: string,
    ticketPriceEth: string,
    owner: string,
    players: seq<string>)

  /** The stats contract's two counters for one address, as decimal strings. */
  datatype PlayerStats = PlayerStats(tickets: string, wins: string)

  /** The component's state: one field per React state hook. */
  datatype ViewState = ViewState(
    account: Option<string>,
    networkName: string,
    isSepolia: bool,
    lotteryInfo: Option<LotteryInfo>,
    playerStats: Option<PlayerStats>,
    loading: bool,
    status: Option<string>,
    winnerFlash: bool)

  /** The state on first render. */
  const Initial := ViewState(None, "", false, None, None, false, None, false)

  /** What an awaited call threw: an error object whose `reason` and `message` may be
      missing. */
  datatype Error = Error(reason: Option<string>, message: Option<string>)

  /** The outcome of an awaited call that yields no value of interest. */
  datatype Outcome = Done | Threw(error: Error)

  /** The error `getProvider` throws when no wallet is injected. */
  const MissingWallet := Error(None, Some("MetaMask not found"))

  const AlreadyJoinedLabel := "You already joined"

  /** JavaScript truthiness of an optional string: absent and empty are both false. */
  predicate Truthy(s: Option<string>) { s.Some? && s.value != "" }

  /** Whether the connected account is the raffle's owner, ignoring letter case. */
  predicate IsOwner(account: Option<string>, info: Option<LotteryInfo>) {
    Truthy(account) && info.Some? && SameAddress(account.value, info.value.owner)
  }

  /** `players.some(p => p.toLowerCase() === acc.toLowerCase())`. */
  function AnyMatches(players: seq<string>, acc: string): (r: bool)
    ensures r <==> exists i :: 0 <= i < |players| && SameAddress(players[i], acc)
  {
    if players == [] then false
    else SameAddress(players[0], acc) || AnyMatches(players[1..], acc)
  }

  /** Whether the connected account is among the entrants, ignoring letter case. */
  predicate AccountIsPlayer(account: Option<string>, info: Option<LotteryInfo>) {
    Truthy(account) && info.Some? && AnyMatches(info.value.players, account.value)
  }

  /** The join button's `disabled` expression. */
  predicate JoinDisabled(v: ViewState) {
    !Truthy(v.account) || v.loading || !v.isSepolia
  }

  /** The pick-winner button's `disabled` expression. */
  predicate PickWinnerDisabled(v: ViewState) {
    !Truthy(v.account) || !IsOwner(v.account, v.lotteryInfo) || v.loading || !v.isSepolia
  }

  /** A button can be clicked when it is on the page (only once lottery data is
      loaded) and not disabled. */
  predicate JoinClickable(v: ViewState) { v.lotteryInfo.Some? && !JoinDisabled(v) }

  predicate PickWinnerClickable(v: ViewState) { v.lotteryInfo.Some? && !PickWinnerDisabled(v) }

  /** The connect button is shown instead of the wallet box while no account is known. */
  predicate ConnectShown(v: ViewState) { !Truthy(v.account) }

  /** The status line is rendered only inside the lottery-data card, and only when the
      status is a non-empty string. */
  predicate StatusVisible(v: ViewState) { v.lotteryInfo.Some? && Truthy(v.status) }

  /** The join button's label. */
  function JoinLabel(account: Option<string>, info: LotteryInfo): (caption: string)
    ensures caption == AlreadyJoinedLabel <==> AccountIsPlayer(account, Some(info))
    ensures !AccountIsPlayer(account, Some(info)) ==>
      caption == "Join Lottery (" + info.ticketPriceEth + " ETH)"
  {
    if AccountIsPlayer(account, Some(info)) then AlreadyJoinedLabel
    else
      var l := "Join Lottery (" + info.ticketPriceEth + " ETH)";
      assert l[0] != AlreadyJoinedLabel[0];
      l
  }

  /** `err?.reason || err?.message || fallback`: the first non-empty of the revert
      reason, the error message and the fixed fallback. */
  function AlertText(err: Error, fallback: string): (t: string)
    ensures Truthy(err.reason) ==> Some(t) == err.reason
    ensures !Truthy(err.reason) && Truthy(err.message) ==> Some(t) == err.message
    ensures !Truthy(err.reason) && !Truthy(err.message) ==> t == fallback
    ensures fallback != "" ==> t != ""
  {
    if Truthy(err.reason) then err.reason.value
    else if Truthy(err.message) then err.message.value
    else fallback
  }

  // ---- Properties of the derived values -------------------------------------------

  /** isOwner holds exactly when a (non-empty) account and lottery data are present and
      the two addresses agree up to letter case. */
  lemma IsOwnerIff(account: Option<string>, info: Option<LotteryInfo>)
    ensures IsOwner(account, info) <==>
      account.Some? && account.value != "" && info.Some?
      && EqualIgnoringCase(account.value, info.value.owner)
  {
    if account.Some? && info.Some? {
      SameAddressIff(account.value, info.value.owner);
    }
  }

  /** Changing the letter case of the account or of the owner never changes isOwner. */
  lemma IsOwnerIgnoresCase(acc: string, acc': string, info: LotteryInfo, owner': string)
    requires EqualIgnoringCase(acc, acc')
    requires EqualIgnoringCase(info.owner, owner')
    ensures IsOwner(Some(acc), Some(info)) <==> IsOwner(Some(acc'), Some(info.(owner := owner')))
  {
    SameAddressIgnoresCase(acc, acc', info.owner);
    SameAddressIgnoresCase(info.owner, owner', acc');
  }

  /** accountIsPlayer holds exactly when a (non-empty) account and lottery data are
      present and some entrant equals the account up to letter case. */
  lemma AccountIsPlayerIff(account: Option<string>, info: Option<LotteryInfo>)
    ensures AccountIsPlayer(account, info) <==>
      account.Some? && account.value != "" && info.Some?
      && exists i :: 0 <= i < |info.value.players|
           && EqualIgnoringCase(info.value.players[i], account.value)
  {
    if account.Some? && info.Some? {
      var ps, a := info.value.players, account.value;
      forall i | 0 <= i < |ps| ensures SameAddress(ps[i], a) <==> EqualIgnoringCase(ps[i], a) {
        SameAddressIff(ps[i], a);
      }
    }
  }

  /** The order and the repetitions of the entrant list do not matter: two lists with
      the same members give the same answer. */
  lemma AccountIsPlayerIgnoresOrder(account: Option<string>, info: LotteryInfo, players': seq<string>)
    requires forall p :: p in info.players <==> p in players'
    ensures AccountIsPlayer(account, Some(info)) <==> AccountIsPlayer(account, Some(info.(players := players')))
  {
    if account.Some? {
      var a := account.value;
      if AnyMatches(info.players, a) {
        var i :| 0 <= i < |info.players| && SameAddress(info.players[i], a);
        assert info.players[i] in players';
        var j :| 0 <= j < |players'| && players'[j] == info.players[i];
        assert SameAddress(players'[j], a);
      }
      if AnyMatches(players', a) {
        var j :| 0 <= j < |players'| && SameAddress(players'[j], a);
        assert players'[j] in info.players;
        var i :| 0 <= i < |info.players| && info.players[i] == players'[j];
        assert SameAddress(info.players[i], a);
      }
    }
  }

  /** Changing the letter case of the account never changes accountIsPlayer. */
  lemma AccountIsPlayerIgnoresCase(acc: string, acc': string, info: LotteryInfo)
    requires EqualIgnoringCase(acc, acc')
    ensures AccountIsPlayer(Some(acc), Some(info)) <==> AccountIsPlayer(Some(acc'), Some(info))
  {
    SameAddressIff(acc, acc');
  }

  /** With no account or no lottery data, neither derived boolean holds. */
  lemma DerivedNeedAccountAndInfo(account: Option<string>, info: Option<LotteryInfo>)
    requires !Truthy(account) || info.None?
    ensures !IsOwner(account, info) && !AccountIsPlayer(account, info)
  {
  }

  /** Join is enabled exactly when an account is known, nothing is loading and the
      wallet is on Sepolia. */
  lemma JoinEnabledIff(v: ViewState)
    ensures !JoinDisabled(v) <==> Truthy(v.account) && !v.loading && v.isSepolia
  {
  }

  /** Pick-winner asks for everything join asks for, plus ownership; so whenever it is
      enabled an account and lottery data are both present. */
  lemma PickWinnerEnabledImplies(v: ViewState)
    ensures !PickWinnerDisabled(v) <==> !JoinDisabled(v) && IsOwner(v.account, v.lotteryInfo)
    ensures !PickWinnerDisabled(v) ==> Truthy(v.account) && v.lotteryInfo.Some?
  {
  }

  /** While a transaction is in flight (loading) neither button can be clicked; this is
      the page's only guard against a second submission. */
  lemma LoadingDisablesButtons(v: ViewState)
    requires v.loading
    ensures JoinDisabled(v) && PickWinnerDisabled(v)
    ensures !JoinClickable(v) && !PickWinnerClickable(v)
  {
  }

  /** A clickable action button and the connect button are never on the page together. */
  lemma ClickableExcludesConnect(v: ViewState)
    ensures JoinClickable(v) || PickWinnerClickable(v) ==> !ConnectShown(v)
  {
  }

  /** On first render nothing can be clicked but the connect button, and nothing is
      derived. */
  lemma InitialView()
    ensures ConnectShown(Initial) && !JoinClickable(Initial) && !PickWinnerClickable(Initial)
    ensures !IsOwner(Initial.account, Initial.lotteryInfo)
    ensures !StatusVisible(Initial)
  {
  }

  /** An owner whose address differs from the stored owner only in letter case, with no
      entrants yet: isOwner, not an entrant, and both buttons clickable on Sepolia when
      nothing is loading. */
  lemma OwnerWithoutEntrantsScenario(v: ViewState)
    requires v.account == Some("0xAbC")
    requires v.lotteryInfo == Some(LotteryInfo("10000000000000000", "0.01", "0xabc", []))
    requires v.isSepolia && !v.loading
    ensures IsOwner(v.account, v.lotteryInfo)
    ensures !AccountIsPlayer(v.account, v.lotteryInfo)
    ensures JoinClickable(v) && PickWinnerClickable(v)
    ensures JoinLabel(v.account, v.lotteryInfo.value) == "Join Lottery (0.01 ETH)"
  {
    assert EqualIgnoringCase("0xAbC", "0xabc");
    SameAddressIff("0xAbC", "0xabc");
    assert !AnyMatches([], "0xAbC");
  }
}
