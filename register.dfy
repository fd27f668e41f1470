/** The two-step registration page (frontend/src/pages/Register.js):
    account details, then plan and top-up, validated in a fixed order
    before four remote calls made one after the other. */
module Register {
  import opened Common

  /** The page's error banner. `TopupBelowCost` is the message that quotes
      the selected plan's cost. */
  datatype RegisterError = NoError | InvalidTopup | NoPlanSelected | InvalidPlan
                         | TopupBelowCost(cost: real) | ServerError(text: string)

  const REGISTRATION_FAILED := "Registration failed. Please try again."

  /** The remote calls of handleCompleteRegistration, in order. */
  datatype Step = RegisterCall(name: string, email: string, password: string)
                | LoginCall(email: string, password: string)
                | AddFundsCall(userId: int, amount: Option<real>)
                | PurchaseCall(userId: int, planId: int)

  function PlanIs(id: int): (matches: Plan -> bool)
  {
    (p: Plan) => p.planId == id
  }

  /** `!topupAmount || topup <= 0`: an empty field or a number that is not
      positive. A field that is not a number passes, because NaN <= 0 is
      false. */
  predicate BadTopup(topup: NumberInput)
  {
    topup.Blank? || (topup.Number? && topup.value <= 0.0)
  }

  /** The checks of handleCompleteRegistration, in the order the code runs
      them: the top-up, that a plan is selected, that the plan id is among
      the loaded plans, that the top-up covers the plan's cost. */
  function Validate(topup: NumberInput, planId: Option<int>, plans: seq<Plan>): (e: RegisterError)
    ensures !e.ServerError?
    ensures e == InvalidTopup <==> BadTopup(topup)
    ensures e == NoPlanSelected <==> !BadTopup(topup) && planId.None?
    ensures e == InvalidPlan <==>
              !BadTopup(topup) && planId.Some? && FirstWhere(plans, PlanIs(planId.value)).None?
    ensures e.TopupBelowCost? <==>
              && !BadTopup(topup) && planId.Some? && FirstWhere(plans, PlanIs(planId.value)).Some?
              && topup.Number? && topup.value < FirstWhere(plans, PlanIs(planId.value)).value.cost
    ensures e.TopupBelowCost? ==> e.cost == FirstWhere(plans, PlanIs(planId.value)).value.cost
    ensures e == NoError ==>
              && planId.Some? && FirstWhere(plans, PlanIs(planId.value)).Some?
              && (topup.NotANumber? ||
                  (topup.Number? && topup.value > 0.0 &&
                   topup.value >= FirstWhere(plans, PlanIs(planId.value)).value.cost))
  {
    if BadTopup(topup) then InvalidTopup
    else if planId.None? then NoPlanSelected
    else
      var plan := FirstWhere(plans, PlanIs(planId.value));
      if plan.None? then InvalidPlan
      else if topup.Number? && topup.value < plan.value.cost then TopupBelowCost(plan.value.cost)
      else NoError
  }

  class RegisterPage {
    var name: string
    var email: string
    var password: string
    var selectedPlanId: Option<int>
    var topupAmount: NumberInput
    var plans: seq<Plan>
    var error: RegisterError
    var success: bool
    var loading: bool
    var step: int

    constructor (loaded: seq<Plan>)
      ensures name == "" && email == "" && password == "" && selectedPlanId == None
      ensures topupAmount == Blank && plans == loaded && error == NoError
      ensures !success && !loading && step == 1
    {
      name, email, password := "", "", "";
      selectedPlanId := None;
      topupAmount := Blank;
      plans := loaded;
      error := NoError;
      success := false;
      loading := false;
      step := 1;
    }

    method EditAccount(n: string, e: string, p: string)
      modifies this`name, this`email, this`password
      ensures name == n && email == e && password == p
    {
      name, email, password := n, e, p;
    }

    method EditPlanAndTopup(planId: Option<int>, topup: NumberInput)
      modifies this`selectedPlanId, this`topupAmount
      ensures selectedPlanId == planId && topupAmount == topup
    {
      selectedPlanId, topupAmount := planId, topup;
    }

    /** handleAccountSubmit: nothing is checked; the page moves to step 2. */
    method AccountSubmit()
      modifies this`error, this`step
      ensures step == 2 && error == NoError
    {
      error := NoError;
      step := 2;
    }

    /** The Back button of step 2. */
    method BackToAccount()
      modifies this`step
      ensures step == 1
    {
      step := 1;
    }

    /** handleCompleteRegistration. A failed check sets its error and makes
        no call. Otherwise register, login, addToWallet (with the top-up)
        and purchaseMembership (with the new user's id) are called in that
        order; the first failure stops the chain and shows its message,
        and `success` is set only after all four. */
    method CompleteRegistration(registered: Remote<()>, loggedIn: Remote<User>,
                                funded: Remote<()>, purchased: Remote<()>)
      returns (steps: seq<Step>)
      modifies this`error, this`success, this`loading
      ensures !loading
      ensures Validate(topupAmount, selectedPlanId, plans) != NoError ==>
                steps == [] && error == Validate(topupAmount, selectedPlanId, plans) && success == old(success)
      ensures Validate(topupAmount, selectedPlanId, plans) == NoError ==>
                && 1 <= |steps| <= 4
                && steps[0] == RegisterCall(name, email, password)
                && (|steps| >= 2 ==> registered.Done? && steps[1] == LoginCall(email, password))
                && (|steps| >= 3 ==>
                      loggedIn.Done? && steps[2] == AddFundsCall(loggedIn.value.userId, Parsed(topupAmount)))
                && (|steps| == 4 ==>
                      funded.Done? && steps[3] == PurchaseCall(loggedIn.value.userId, selectedPlanId.value))
      ensures Validate(topupAmount, selectedPlanId, plans) == NoError ==>
                (registered.Failed? ==> |steps| == 1 && error == ServerError(ErrorText(registered.message, REGISTRATION_FAILED))) &&
                (registered.Done? && loggedIn.Failed? ==> |steps| == 2 && error == ServerError(ErrorText(loggedIn.message, REGISTRATION_FAILED))) &&
                (registered.Done? && loggedIn.Done? && funded.Failed? ==> |steps| == 3 && error == ServerError(ErrorText(funded.message, REGISTRATION_FAILED))) &&
                (registered.Done? && loggedIn.Done? && funded.Done? ==> |steps| == 4)
      ensures success <==>
                || old(success)
                || (Validate(topupAmount, selectedPlanId, plans) == NoError &&
                    registered.Done? && loggedIn.Done? && funded.Done? && purchased.Done?)
      ensures Validate(topupAmount, selectedPlanId, plans) == NoError && purchased.Failed? && |steps| == 4 ==>
                error == ServerError(ErrorText(purchased.message, REGISTRATION_FAILED))
      ensures Validate(topupAmount, selectedPlanId, plans) == NoError ==>
                (registered.Done? && loggedIn.Done? && funded.Done? && purchased.Done? ==> error == NoError)
    {
      error := NoError;
      loading := true;
      var problem := Validate(topupAmount, selectedPlanId, plans);
      if problem != NoError {
        error := problem;
        loading := false;
        return [];
      }
      steps := [RegisterCall(name, email, password)];
      if registered.Failed? {
        error := ServerError(ErrorText(registered.message, REGISTRATION_FAILED));
        loading := false;
        return;
      }
      steps := steps + [LoginCall(email, password)];
      if loggedIn.Failed? {
        error := ServerError(ErrorText(loggedIn.message, REGISTRATION_FAILED));
        loading := false;
        return;
      }
      var newUser := loggedIn.value;
      steps := steps + [AddFundsCall(newUser.userId, Parsed(topupAmount))];
      if funded.Failed? {
        error := ServerError(ErrorText(funded.message, REGISTRATION_FAILED));
        loading := false;
        return;
      }
      steps := steps + [PurchaseCall(newUser.userId, selectedPlanId.value)];
      if purchased.Failed? {
        error := ServerError(ErrorText(purchased.message, REGISTRATION_FAILED));
        loading := false;
        return;
      }
      success := true;
      loading := false;
    }
  }
}
