/** The wallet page (app/wallet/page.tsx): it loads the benefit catalogue and
    the demo user's wallet (with a fixed demo data set when loading throws),
    and redeems a benefit through a confirmation modal, debiting the balance
    on both the success and the failure path of the request. */
module Wallet {
  import opened Common

  datatype Benefit = Benefit(
    id: string,
    name: string,
    coinsRequired: int,
    description: string,
    validityDays: int)

  datatype WalletData = WalletData(
    id: string,
    userId: string,
    balance: int,
    createdAt: string,
    updatedAt: string,
    totalEarned: int,
    totalSpent: int)

  /** The fixed user the page acts for. */
  const DemoUserId: string := "user_123"

  const LoadError: string := "Failed to load data. Please try again later."
  const NotEnoughCoinsError: string := "You don't have enough coins to redeem this benefit"
  const RedeemFailedError: string := "Failed to redeem benefit. Please try again."

  // ---------------------------------------------------------------------------
  // The balance rules

  /** `walletData?.balance ?? 0`: the balance the buttons compare against. */
  function ShownBalance(w: Option<WalletData>): int
  {
    if w.Some? then w.value.balance else 0
  }

  /** A benefit's "Redeem Now" button is enabled unless the shown balance is
      below its cost. */
  predicate RedeemEnabled(w: Option<WalletData>, b: Benefit)
  {
    !(ShownBalance(w) < b.coinsRequired)
  }

  /** The modal's confirm button is also disabled while a redemption runs. */
  predicate ConfirmEnabled(redeeming: bool, w: Option<WalletData>, b: Benefit)
  {
    !redeeming && RedeemEnabled(w, b)
  }

  /** The button is enabled exactly when the balance covers the cost, so at
      equality too; with no wallet loaded only free benefits are enabled. */
  lemma RedeemEnabledExactly(w: WalletData, b: Benefit)
    ensures RedeemEnabled(Some(w), b) <==> w.balance >= b.coinsRequired
    ensures w.balance == b.coinsRequired ==> RedeemEnabled(Some(w), b)
    ensures RedeemEnabled(None, b) <==> b.coinsRequired <= 0
  {
  }

  /** What `confirmRedemption` does before any request. */
  datatype Gate =
    | Ignored   // no benefit selected or no wallet loaded: nothing happens
    | Refused   // the balance is below the cost: the not-enough-coins error
    | Allowed   // the request is sent and the wallet is debited

  function ConfirmGate(selected: Option<Benefit>, wallet: Option<WalletData>): (g: Gate)
    ensures g == Ignored <==> selected.None? || wallet.None?
    ensures g == Refused <==> selected.Some? && wallet.Some? && wallet.value.balance < selected.value.coinsRequired
    ensures g == Allowed <==> selected.Some? && wallet.Some? && wallet.value.balance >= selected.value.coinsRequired
  {
    if selected.None? || wallet.None? then Ignored
    else if wallet.value.balance < selected.value.coinsRequired then Refused
    else Allowed
  }

  /** The handler's guard and the button agree: a loaded wallet lets a
      selected benefit through exactly when its button is enabled. */
  lemma GateAgreesWithButton(w: WalletData, b: Benefit)
    ensures ConfirmGate(Some(b), Some(w)) == Allowed <==> RedeemEnabled(Some(w), b)
    ensures ConfirmGate(Some(b), Some(w)) == Refused <==> !RedeemEnabled(Some(w), b)
  {
  }

  /** The wallet after a redemption of `cost` at time `now`: the balance goes
      down and `total_spent` up by the same cost; identity, creation time and
      `total_earned` stay. Their sum is conserved, and a balance that covered
      the cost stays non-negative. */
  function Debit(w: WalletData, cost: int, now: string): (d: WalletData)
    ensures d.balance == w.balance - cost && d.totalSpent == w.totalSpent + cost
    ensures d.id == w.id && d.userId == w.userId && d.createdAt == w.createdAt
    ensures d.totalEarned == w.totalEarned && d.updatedAt == now
    ensures d.balance + d.totalSpent == w.balance + w.totalSpent
    ensures w.balance >= cost ==> d.balance >= 0
  {
    w.(balance := w.balance - cost, totalSpent := w.totalSpent + cost, updatedAt := now)
  }

  /** Every coin earned is either still in the balance or spent. */
  predicate Balanced(w: WalletData)
  {
    w.balance + w.totalSpent == w.totalEarned
  }

  /** A run of confirmations for benefits costing `costs`, each passing the
      balance guard or being refused. Whatever the costs, the sum of balance
      and spending is conserved, a non-negative balance stays non-negative,
      identity and earnings stay, and a balanced ledger stays balanced. */
  function RedeemAll(w: WalletData, costs: seq<int>, now: string): (r: WalletData)
    ensures r.balance + r.totalSpent == w.balance + w.totalSpent
    ensures w.balance >= 0 ==> r.balance >= 0
    ensures r.id == w.id && r.userId == w.userId && r.createdAt == w.createdAt
    ensures r.totalEarned == w.totalEarned
    ensures Balanced(w) ==> Balanced(r)
    decreases |costs|
  {
    if costs == [] then w
    else
      var next := if w.balance < costs[0] then w else Debit(w, costs[0], now);
      RedeemAll(next, costs[1..], now)
  }

  // ---------------------------------------------------------------------------
  // The demo data installed when loading throws

  const DemoDiscount: Benefit := Benefit("benefit_1", "10% Discount on Eco-Friendly Products", 500,
    "Get 10% off on all eco-friendly products at partner stores", 30)
  const DemoCollection: Benefit := Benefit("benefit_2", "Free Waste Collection", 1000,
    "One-time free waste collection service at your doorstep", 60)
  const DemoTree: Benefit := Benefit("benefit_3", "Plant a Tree in Your Name", 2000,
    "We'll plant a tree in the city park with your name on a plaque", 90)
  const DemoWorkshop: Benefit := Benefit("benefit_4", "Recycling Workshop Pass", 750,
    "Free pass to attend a recycling workshop and learn new skills", 45)

  function FallbackBenefits(): (bs: seq<Benefit>)
    ensures |bs| == 4
    ensures bs[0].id == "benefit_1" && bs[0].coinsRequired == 500 && bs[0].validityDays == 30
    ensures bs[1].id == "benefit_2" && bs[1].coinsRequired == 1000 && bs[1].validityDays == 60
    ensures bs[2].id == "benefit_3" && bs[2].coinsRequired == 2000 && bs[2].validityDays == 90
    ensures bs[3].id == "benefit_4" && bs[3].coinsRequired == 750 && bs[3].validityDays == 45
  {
    [DemoDiscount, DemoCollection, DemoTree, DemoWorkshop]
  }

  /** The demo wallet. Its two time stamps come from two separate clock
      readings, so they may differ. */
  function FallbackWallet(createdAt: string, updatedAt: string): (w: WalletData)
    ensures w.id == "wallet_123" && w.userId == DemoUserId
    ensures w.balance == 1500 && w.totalEarned == 2500 && w.totalSpent == 1000
    ensures w.createdAt == createdAt && w.updatedAt == updatedAt
    ensures Balanced(w)
  {
    WalletData("wallet_123", DemoUserId, 1500, createdAt, updatedAt, 2500, 1000)
  }

  /** On the demo data exactly the 2000-coin benefit is out of reach. */
  lemma FallbackRedeemable(createdAt: string, updatedAt: string)
    ensures forall i :: 0 <= i < |FallbackBenefits()| ==>
      (RedeemEnabled(Some(FallbackWallet(createdAt, updatedAt)), FallbackBenefits()[i]) <==> i != 2)
  {
  }

  // ---------------------------------------------------------------------------
  // The page

  /** How one of the page's requests ends: it throws (network failure or a
      body that is not JSON), the response is not ok, or data arrives. */
  datatype Fetch<T> = Threw | NotOk | Ok(data: T)

  /** A redemption request as it leaves the page. */
  datatype RedeemRequest = RedeemRequest(userId: string, benefitId: string)

  /** Loading succeeds when the benefits arrive and the wallet request does
      not throw; a wallet response that is merely not ok is ignored. */
  predicate LoadSucceeded(benefitsReply: Fetch<seq<Benefit>>, walletReply: Fetch<WalletData>)
  {
    benefitsReply.Ok? && !walletReply.Threw?
  }

  class WalletPage {
    var benefits: seq<Benefit>
    var walletData: Option<WalletData>
    var loading: bool
    var error: Option<string>
    var showRedeemModal: bool
    var selectedBenefit: Option<Benefit>
    var redeeming: bool
    var redeemSuccess: bool
    var redeemError: Option<string>
    /** The redemption requests sent so far, oldest first. */
    var redeemRequests: seq<RedeemRequest>

    constructor ()
      ensures benefits == [] && walletData == None && loading && error == None
      ensures !showRedeemModal && selectedBenefit == None
      ensures !redeeming && !redeemSuccess && redeemError == None
      ensures redeemRequests == []
    {
      benefits := [];
      walletData := None;
      loading := true;
      error := None;
      showRedeemModal := false;
      selectedBenefit := None;
      redeeming := false;
      redeemSuccess := false;
      redeemError := None;
      redeemRequests := [];
    }

    /** `fetchData`: the benefits first, then (only if they arrived) the
        wallet. A throw anywhere shows the error and installs the demo data,
        replacing benefits that had already arrived. Loading ends false. */
    method FetchData(benefitsReply: Fetch<seq<Benefit>>, walletReply: Fetch<WalletData>, createdAt: string, updatedAt: string)
      modifies this`benefits, this`walletData, this`loading, this`error
      ensures !loading
      ensures LoadSucceeded(benefitsReply, walletReply) ==>
                && benefits == benefitsReply.data && error == None
                && walletData == (if walletReply.Ok? then Some(walletReply.data) else old(walletData))
      ensures !LoadSucceeded(benefitsReply, walletReply) ==>
                && benefits == FallbackBenefits() && walletData == Some(FallbackWallet(createdAt, updatedAt))
                && error == Some(LoadError)
    {
      loading := true;
      error := None;
      if benefitsReply.Ok? {
        benefits := benefitsReply.data;
        match walletReply {
          case Ok(w) =>
            walletData := Some(w);
          case NotOk =>
          case Threw =>
            InstallFallback(createdAt, updatedAt);
        }
      } else {
        InstallFallback(createdAt, updatedAt);
      }
      loading := false;
    }

    /** The `catch` block of `fetchData`. */
    method InstallFallback(createdAt: string, updatedAt: string)
      modifies this`benefits, this`walletData, this`error
      ensures error == Some(LoadError)
      ensures benefits == FallbackBenefits() && walletData == Some(FallbackWallet(createdAt, updatedAt))
    {
      error := Some(LoadError);
      benefits := FallbackBenefits();
      walletData := Some(FallbackWallet(createdAt, updatedAt));
    }

    /** `handleRedeem`: the modal opens on `b` with no success and no error. */
    method HandleRedeem(b: Benefit)
      modifies this`selectedBenefit, this`showRedeemModal, this`redeemSuccess, this`redeemError
      ensures selectedBenefit == Some(b) && showRedeemModal
      ensures !redeemSuccess && redeemError == None
    {
      selectedBenefit := Some(b);
      showRedeemModal := true;
      redeemSuccess := false;
      redeemError := None;
    }

    /** `confirmRedemption`, with `succeeded` saying whether the redemption
        request came back ok and `now` the time of the update. Without a
        selection or a wallet nothing changes; with too small a balance only
        the error is set; otherwise one request is sent and, whatever it
        returns, the wallet is debited and success is shown (the failure path
        also shows its error). */
    method ConfirmRedemption(succeeded: bool, now: string)
      modifies this`walletData, this`redeeming, this`redeemSuccess, this`redeemError, this`redeemRequests
      ensures ConfirmGate(selectedBenefit, old(walletData)) == Ignored ==>
                && walletData == old(walletData) && redeeming == old(redeeming)
                && redeemSuccess == old(redeemSuccess) && redeemError == old(redeemError)
                && redeemRequests == old(redeemRequests)
      ensures ConfirmGate(selectedBenefit, old(walletData)) == Refused ==>
                && redeemError == Some(NotEnoughCoinsError)
                && walletData == old(walletData) && redeeming == old(redeeming)
                && redeemSuccess == old(redeemSuccess) && redeemRequests == old(redeemRequests)
      ensures ConfirmGate(selectedBenefit, old(walletData)) == Allowed ==>
                && walletData == Some(Debit(old(walletData).value, selectedBenefit.value.coinsRequired, now))
                && redeemRequests == old(redeemRequests) + [RedeemRequest(DemoUserId, selectedBenefit.value.id)]
                && redeemSuccess && !redeeming
                && redeemError == (if succeeded then None else Some(RedeemFailedError))
      ensures old(walletData).Some? ==> walletData.Some?
      ensures old(walletData).Some? ==>
                walletData.value.balance + walletData.value.totalSpent
                  == old(walletData).value.balance + old(walletData).value.totalSpent
      ensures old(walletData).Some? && old(walletData).value.balance >= 0 ==> walletData.value.balance >= 0
    {
      if selectedBenefit.None? || walletData.None? {
        return;
      }
      var benefit, wallet := selectedBenefit.value, walletData.value;
      if wallet.balance < benefit.coinsRequired {
        redeemError := Some(NotEnoughCoinsError);
        return;
      }

      redeeming := true;
      redeemError := None;
      redeemRequests := redeemRequests + [RedeemRequest(DemoUserId, benefit.id)];
      if succeeded {
        walletData := Some(Debit(wallet, benefit.coinsRequired, now));
        redeemSuccess := true;
      } else {
        redeemError := Some(RedeemFailedError);
        walletData := Some(Debit(wallet, benefit.coinsRequired, now));
        redeemSuccess := true;
      }
      redeeming := false;
    }

    /** `closeModal`: the modal hides, and selection and error are cleared.
        The success flag is left for the delayed reset. */
    method CloseModal()
      modifies this`showRedeemModal, this`selectedBenefit, this`redeemError
      ensures !showRedeemModal && selectedBenefit == None && redeemError == None
    {
      showRedeemModal := false;
      selectedBenefit := None;
      redeemError := None;
    }

    /** The modal's confirm button for the selected benefit. */
    predicate ConfirmButtonEnabled()
      reads this
    {
      selectedBenefit.Some? && ConfirmEnabled(redeeming, walletData, selectedBenefit.value)
    }
  }

  /** Pressing an enabled confirm button never meets the not-enough-coins
      guard: with a wallet loaded the request is always sent. */
  lemma EnabledConfirmIsAllowed(p: WalletPage)
    requires p.ConfirmButtonEnabled() && p.walletData.Some?
    ensures ConfirmGate(p.selectedBenefit, p.walletData) == Allowed
  {
  }
}
