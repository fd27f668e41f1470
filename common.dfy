/** Values shared by the client pages: the records the API returns, the
    outcome of one awaited API call, and `Array.prototype.find`. */
module Common {

  datatype Option<+T> = None | Some(value: T)

  /** The outcome of one awaited API call: the value it resolved with, or
      the error it threw. `message` is the `error` field of the server's
      JSON body when the failed response carried one. */
  datatype Remote<+T> = Done(value: T) | Failed(message: Option<string>)

  /** What `parseFloat` makes of a text field: the field was empty, it does
      not start with a number (NaN), or it reads as a finite number. */
  datatype NumberInput = Blank | NotANumber | Number(value: real)

  /** The number `parseFloat` yields, or None for NaN. */
  function Parsed(input: NumberInput): (r: Option<real>)
    ensures r.Some? <==> input.Number?
    ensures r.Some? ==> r.value == input.value
  {
    if input.Number? then Some(input.value) else None
  }

  /** `!amount || amount <= 0` is false: the field reads as a positive
      number (NaN and 0 are both falsy). */
  predicate PositiveAmount(input: NumberInput)
  {
    input.Number? && input.value > 0.0
  }

  /** `parseFloat(balance) < cost`: a balance that does not parse compares
      false, so it never counts as short. */
  predicate Short(wallet: Option<real>, cost: real)
  {
    wallet.Some? && wallet.value < cost
  }

  /** The signed-in user as the client holds it (the `user` object of the
      login and profile responses). Wallet balance and discount are what
      `parseFloat` makes of the JSON fields: None when not finite. */
  datatype User = User(userId: int, name: string, walletBalance: Option<real>,
                       role: string, planDiscount: Option<real>)

  /** A row of the user's trip history. */
  datatype Trip = Trip(tripId: int, status: string)

  datatype Station = Station(stationId: int, name: string)

  datatype Vehicle = Vehicle(vehicleId: int, ratePerHour: real)

  datatype Plan = Plan(planId: int, cost: real)

  /** A green banner: none, a fixed text, or one of the two top-up texts,
      whose two-decimal formatting is not modelled: the membership page's
      "Added ₹<amount> to wallet" (`FundsAdded`) and the profile page's
      "Successfully added $<amount> to wallet" (`WalletFunded`). */
  datatype Notice = NoNotice | Says(text: string) | FundsAdded(amount: real) | WalletFunded(amount: real)

  /** `err.response?.data?.error || fallback`: the server's message when it
      sent a non-empty one, the page's fallback text otherwise. */
  function ErrorText(message: Option<string>, fallback: string): (text: string)
    ensures text == fallback || message == Some(text)
    ensures message.Some? && message.value != "" ==> text == message.value
    ensures fallback != "" ==> text != ""
  {
    if message.Some? && message.value != "" then message.value else fallback
  }

  /** `s.find(p)`: the first element satisfying `p`, or None. */
  function FirstWhere<T>(s: seq<T>, p: T -> bool): (r: Option<T>)
    ensures r.None? <==> forall i :: 0 <= i < |s| ==> !p(s[i])
    ensures r.Some? ==> exists i :: 0 <= i < |s| && s[i] == r.value && p(s[i]) &&
                                    forall j :: 0 <= j < i ==> !p(s[j])
  {
    if |s| == 0 then None
    else if p(s[0]) then Some(s[0])
    else
      var r := FirstWhere(s[1..], p);
      assert forall i :: 1 <= i < |s| ==> s[i] == s[1..][i - 1];
      r
  }

  /** The first element satisfying `p` is the element of `s` at the first
      index where `p` holds. */
  lemma {:induction false} FirstWhereAt<T>(s: seq<T>, p: T -> bool, k: nat)
    requires k < |s| && p(s[k])
    requires forall j :: 0 <= j < k ==> !p(s[j])
    ensures FirstWhere(s, p) == Some(s[k])
  {
    if k > 0 {
      assert forall j :: 0 <= j < k - 1 ==> s[1..][j] == s[j + 1];
      FirstWhereAt(s[1..], p, k - 1);
    }
  }
}
