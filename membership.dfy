/** The membership page (frontend/src/pages/Membership.js): wallet top-up
    and plan purchase. */
module Membership {
  import opened Common
  import Session

  const PLANS_FAILED := "Failed to load plans"
  const INVALID_AMOUNT := "Enter a valid amount"
  const TOPUP_FAILED := "Top-up failed"
  const PLAN_UNAFFORDABLE := "Insufficient wallet balance for this plan"
  const PURCHASE_FAILED := "Purchase failed"
  const PURCHASED := "Membership purchased successfully"

  /** The remote calls and callbacks of the two handlers, in order. */
  datatype Step = AddFundsCall(userId: int, amount: real) | PurchaseCall(userId: int, planId: int)
                | GetProfile(userId: int) | UserUpdate(user: User) | NavigateTo(path: Session.Path)

  class MembershipPage {
    const user: User
    var plans: seq<Plan>
    var loading: bool
    var error: string
    var success: Notice
    var topupAmount: NumberInput
    var purchasing: bool

    constructor (u: User)
      ensures user == u && plans == [] && loading
      ensures error == "" && success == NoNotice && topupAmount == Blank && !purchasing
    {
      user := u;
      plans := [];
      loading := true;
      error := "";
      success := NoNotice;
      topupAmount := Blank;
      purchasing := false;
    }

    /** The plan list fetched on mount: a failure shows its banner and
        leaves the list empty. Loading ends either way. */
    method PlansLoaded(fetched: Remote<seq<Plan>>)
      modifies this`plans, this`error, this`loading
      ensures fetched.Done? ==> plans == fetched.value && error == old(error)
      ensures fetched.Failed? ==> plans == old(plans) && error == PLANS_FAILED
      ensures !loading
    {
      if fetched.Done? {
        plans := fetched.value;
      } else {
        error := PLANS_FAILED;
      }
      loading := false;
    }

    method EditTopup(input: NumberInput)
      modifies this`topupAmount
      ensures topupAmount == input
    {
      topupAmount := input;
    }

    /** handleTopup. An amount that is not a positive number sets an error
        and makes no call. Otherwise addToWallet, then getUserProfile, then
        the user update callback; the first failure stops the chain and
        shows its message. Only full success clears the field and shows
        the banner. */
    method Topup(funded: Remote<()>, refreshed: Remote<User>) returns (steps: seq<Step>)
      modifies this`error, this`success, this`topupAmount
      ensures !PositiveAmount(old(topupAmount)) ==>
                steps == [] && error == INVALID_AMOUNT &&
                success == old(success) && topupAmount == old(topupAmount)
      ensures PositiveAmount(old(topupAmount)) && funded.Failed? ==>
                steps == [AddFundsCall(user.userId, old(topupAmount).value)] &&
                error == ErrorText(funded.message, TOPUP_FAILED) &&
                success == old(success) && topupAmount == old(topupAmount)
      ensures PositiveAmount(old(topupAmount)) && funded.Done? && refreshed.Failed? ==>
                steps == [AddFundsCall(user.userId, old(topupAmount).value), GetProfile(user.userId)] &&
                error == ErrorText(refreshed.message, TOPUP_FAILED) &&
                success == old(success) && topupAmount == old(topupAmount)
      ensures PositiveAmount(old(topupAmount)) && funded.Done? && refreshed.Done? ==>
                steps == [AddFundsCall(user.userId, old(topupAmount).value), GetProfile(user.userId),
                          UserUpdate(refreshed.value)] &&
                error == old(error) && success == FundsAdded(old(topupAmount).value) && topupAmount == Blank
    {
      if !PositiveAmount(topupAmount) {
        error := INVALID_AMOUNT;
        return [];
      }
      var amount := topupAmount.value;
      steps := [AddFundsCall(user.userId, amount)];
      if funded.Failed? {
        error := ErrorText(funded.message, TOPUP_FAILED);
        return;
      }
      steps := steps + [GetProfile(user.userId)];
      if refreshed.Failed? {
        error := ErrorText(refreshed.message, TOPUP_FAILED);
        return;
      }
      steps := steps + [UserUpdate(refreshed.value)];
      topupAmount := Blank;
      success := FundsAdded(amount);
    }

    /** handlePurchase. A wallet short of the plan's cost sets an error and
        makes no call. Otherwise purchaseMembership, then getUserProfile,
        then the user update callback with the fresh profile, then the
        move to /dashboard. `purchasing` is false afterwards either way. */
    method Purchase(planId: int, planCost: real, purchased: Remote<()>, refreshed: Remote<User>)
      returns (steps: seq<Step>)
      modifies this`error, this`success, this`purchasing
      ensures Short(user.walletBalance, planCost) ==>
                steps == [] && error == PLAN_UNAFFORDABLE &&
                success == old(success) && purchasing == old(purchasing)
      ensures !Short(user.walletBalance, planCost) ==> !purchasing
      ensures !Short(user.walletBalance, planCost) && purchased.Failed? ==>
                steps == [PurchaseCall(user.userId, planId)] &&
                error == ErrorText(purchased.message, PURCHASE_FAILED) && success == old(success)
      ensures !Short(user.walletBalance, planCost) && purchased.Done? && refreshed.Failed? ==>
                steps == [PurchaseCall(user.userId, planId), GetProfile(user.userId)] &&
                error == ErrorText(refreshed.message, PURCHASE_FAILED) && success == old(success)
      ensures !Short(user.walletBalance, planCost) && purchased.Done? && refreshed.Done? ==>
                steps == [PurchaseCall(user.userId, planId), GetProfile(user.userId),
                          UserUpdate(refreshed.value), NavigateTo(Session.DashboardPath)] &&
                error == old(error) && success == Says(PURCHASED)
    {
      if Short(user.walletBalance, planCost) {
        error := PLAN_UNAFFORDABLE;
        return [];
      }
      purchasing := true;
      steps := [PurchaseCall(user.userId, planId)];
      if purchased.Failed? {
        error := ErrorText(purchased.message, PURCHASE_FAILED);
        purchasing := false;
        return;
      }
      steps := steps + [GetProfile(user.userId)];
      if refreshed.Failed? {
        error := ErrorText(refreshed.message, PURCHASE_FAILED);
        purchasing := false;
        return;
      }
      steps := steps + [UserUpdate(refreshed.value)];
      success := Says(PURCHASED);
      steps := steps + [NavigateTo(Session.DashboardPath)];
      purchasing := false;
    }
  }
}
