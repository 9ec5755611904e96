/**
 The user list behind `POST /api/login` and `GET /verify-payment`. Login looks
 up the first user with the given username and checks the password against the
 stored hash; a verified payment marks the first user with the paying email as
 subscribed.
 */
module Users {
  import opened JsValue
  import opened Options
  import opened Lists
  import opened Http

  /** A stored user. The script that seeds the list writes only a username and a
      password hash. The server never writes `email`, so a user has one only when
      the store file was edited by hand; `subscribed` is absent until a verified
      payment sets it. */
  datatype User = User(username: Value, password: Value, email: Value, subscribed: Value)

  /** `bcrypt.compare(plain, hash)`: an uninterpreted check of a plain password
      against a stored hash. */
  type PasswordCheck = (Value, Value) -> bool

  const InvalidMessage := "Invalid credentials"
  const LoginMessage := "Login successful"
  const MissingReferenceText := "Missing payment reference."
  const GrantedText := "Payment verified successfully. Access granted."
  const NotSuccessfulPrefix := "Payment not successful: "
  const VerifyErrorPrefix := "Error verifying payment: "

  /** Position i holds the first user whose username is `name`. */
  ghost predicate FirstWithUsername(users: seq<User>, name: Value, i: int) {
    && 0 <= i < |users|
    && StrictEquals(users[i].username, name)
    && forall j :: 0 <= j < i ==> !StrictEquals(users[j].username, name)
  }

  /** Position i holds the first user whose email is `email`. */
  ghost predicate FirstWithEmail(users: seq<User>, email: Value, i: int) {
    && 0 <= i < |users|
    && StrictEquals(users[i].email, email)
    && forall j :: 0 <= j < i ==> !StrictEquals(users[j].email, email)
  }

  /** `POST /api/login`: 401 unless some user has the username and the password
      matches the first such user's hash; on success the reply carries that
      user's `subscribed || false`. The user list is only read. */
  function Login(username: Value, password: Value, users: seq<User>, matches: PasswordCheck): (r: Reply<User>)
    ensures r.store == users
    ensures r.response.status == 200 || r.response == Response(401, Json(InvalidMessage))
    ensures (forall j :: 0 <= j < |users| ==> !StrictEquals(users[j].username, username)) ==>
      r.response.status == 401
    ensures forall i :: FirstWithUsername(users, username, i) ==>
      if matches(password, users[i].password) then
        r.response == Response(200, LoginJson(LoginMessage, Or(users[i].subscribed, Bool(false))))
      else
        r.response.status == 401
  {
    match FindIndex(users, (u: User) => StrictEquals(u.username, username))
    case None => Reply(Response(401, Json(InvalidMessage)), users)
    case Some(i) =>
      if !matches(password, users[i].password) then
        Reply(Response(401, Json(InvalidMessage)), users)
      else
        Reply(Response(200, LoginJson(LoginMessage, Or(users[i].subscribed, Bool(false)))), users)
  }

  /** Set `subscribed` to true on the first user whose email is strictly equal to
      `email`, when there is one. */
  function MarkSubscribed(users: seq<User>, email: Value): (r: seq<User>)
    ensures |r| == |users|
    ensures (forall j :: 0 <= j < |users| ==> !StrictEquals(users[j].email, email)) ==> r == users
    ensures forall i :: FirstWithEmail(users, email, i) ==>
      && r[i] == users[i].(subscribed := Bool(true))
      && forall j :: 0 <= j < |users| && j != i ==> r[j] == users[j]
  {
    match FindIndex(users, (u: User) => StrictEquals(u.email, email))
    case None => users
    case Some(i) => users[i := users[i].(subscribed := Bool(true))]
  }

  /** The customer part of the provider's verification result. */
  datatype Customer = Customer(email: Value)

  /** `result.data`, when it is an object. */
  datatype PaymentData = PaymentData(status: Value, customer: Option<Customer>)

  /** The provider's answer to a transaction verification. */
  datatype VerifyResult = VerifyResult(data: Option<PaymentData>, status: Value)

  /** The verification call either answers or throws with a message. */
  datatype VerifyOutcome = Verified(result: VerifyResult) | VerifyFailed(message: string)

  /** The status inside the result's data, undefined when there is no data. */
  function DataStatus(result: VerifyResult): Value {
    match result.data
    case None => Undefined
    case Some(d) => d.status
  }

  /** The data's status when it is truthy, otherwise the top-level status. */
  function PaymentStatus(result: VerifyResult): (status: Value)
    ensures result.data.Some? && Truthy(result.data.value.status) ==>
      status == result.data.value.status
    ensures !(result.data.Some? && Truthy(result.data.value.status)) ==>
      status == result.status
    ensures StrictEquals(status, Str("success")) <==>
      || DataStatus(result) == Str("success")
      || (!Truthy(DataStatus(result)) && result.status == Str("success"))
  {
    Or(DataStatus(result), result.status)
  }

  /** The customer's email inside the result's data, undefined when either the
      data or the customer is missing. */
  function PaymentEmail(result: VerifyResult): (email: Value)
    ensures result.data.Some? && result.data.value.customer.Some? ==>
      email == result.data.value.customer.value.email
    ensures result.data.None? || result.data.value.customer.None? ==> email == Undefined
  {
    match result.data
    case None => Undefined
    case Some(d) =>
      match d.customer
      case None => Undefined
      case Some(c) => c.email
  }

  /** A verification that grants access: status `'success'` and an email present. */
  function Accepted(result: VerifyResult): (ok: bool)
    ensures ok <==>
      && result.data.Some?
      && result.data.value.customer.Some?
      && Truthy(result.data.value.customer.value.email)
      && (|| result.data.value.status == Str("success")
          || (!Truthy(result.data.value.status) && result.status == Str("success")))
  {
    StrictEquals(PaymentStatus(result), Str("success")) && Truthy(PaymentEmail(result))
  }

  /** `GET /verify-payment?reference=…`, given what the provider's verification
      call produced for that reference. */
  function VerifyPayment(reference: Value, outcome: VerifyOutcome, users: seq<User>): (r: Reply<User>)
    ensures !Truthy(reference) ==>
      r == Reply(Response(400, Text(MissingReferenceText)), users)
    ensures Truthy(reference) && outcome.VerifyFailed? ==>
      r == Reply(Response(500, Text(VerifyErrorPrefix + outcome.message)), users)
    ensures Truthy(reference) && outcome.Verified? ==> r.response.status == 200
    ensures r.store != users ==>
      Truthy(reference) && outcome.Verified? && Accepted(outcome.result)
    ensures Truthy(reference) && outcome.Verified? && Accepted(outcome.result) ==>
      && r.response.body == Text(GrantedText)
      && r.store == MarkSubscribed(users, PaymentEmail(outcome.result))
    ensures Truthy(reference) && outcome.Verified? && !Accepted(outcome.result) ==>
      r == Reply(Response(200, Text(NotSuccessfulPrefix + ToString(PaymentStatus(outcome.result)))), users)
  {
    if !Truthy(reference) then
      Reply(Response(400, Text(MissingReferenceText)), users)
    else match outcome
      case VerifyFailed(message) =>
        Reply(Response(500, Text(VerifyErrorPrefix + message)), users)
      case Verified(result) =>
        var status := PaymentStatus(result);
        var email := PaymentEmail(result);
        if StrictEquals(status, Str("success")) && Truthy(email) then
          Reply(Response(200, Text(GrantedText)), MarkSubscribed(users, email))
        else
          Reply(Response(200, Text(NotSuccessfulPrefix + ToString(status))), users)
  }

  /** Marking changes only the `subscribed` field, so every search by username
      or email finds the same position afterwards. */
  lemma MarkKeepsKeys(users: seq<User>, email: Value)
    ensures forall j :: 0 <= j < |users| ==>
      && MarkSubscribed(users, email)[j].username == users[j].username
      && MarkSubscribed(users, email)[j].password == users[j].password
      && MarkSubscribed(users, email)[j].email == users[j].email
  {
  }

  /** Marking the same email twice leaves the list as marking it once. */
  lemma MarkSubscribedIdempotent(users: seq<User>, email: Value)
    ensures MarkSubscribed(MarkSubscribed(users, email), email) == MarkSubscribed(users, email)
  {
  }

  /** Repeating a verification callback changes nothing more than the first one. */
  lemma VerifyPaymentIdempotent(reference: Value, outcome: VerifyOutcome, users: seq<User>)
    ensures var once := VerifyPayment(reference, outcome, users);
      VerifyPayment(reference, outcome, once.store) == once
  {
  }

  /** A user who paid and then logs in with the right password is told they are
      subscribed, provided the paying email and the username both lead to that
      user first. */
  lemma LoginAfterPayment(
    users: seq<User>, i: int, reference: Value, result: VerifyResult,
    username: Value, password: Value, matches: PasswordCheck)
    requires Truthy(reference) && Accepted(result)
    requires FirstWithEmail(users, PaymentEmail(result), i)
    requires FirstWithUsername(users, username, i)
    requires matches(password, users[i].password)
    ensures var after := VerifyPayment(reference, Verified(result), users).store;
      Login(username, password, after, matches).response
        == Response(200, LoginJson(LoginMessage, Bool(true)))
  {
  }
}
