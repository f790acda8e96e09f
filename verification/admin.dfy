/** The admin session gate: login stores the shop id in the `admin_auth`
    cookie when the PIN matches, logout clears it, and `requireAdmin` admits
    a request to a shop's route only when the cookie names that shop. The
    session is the browser's cookie jar. */
module Admin {
  import opened Common
  import opened Store

  /** The `admin_auth` cookie the browser holds, if any. */
  datatype Session = Session(adminAuth: Option<string>)

  /** Verdict of `requireAdmin`: call the route, or answer 401. */
  datatype Admission = Admit | Reject(reason: HttpError)

  /** The `pin` field of the login body: a JSON string or a JSON integer. */
  datatype PinInput = PinText(text: string) | PinNumber(number: int)

  /** The shop table as far as login reads it: shop id to `adminPin`. */
  type Directory = map<ShopId, string>

  /** `requireAdmin`: a falsy cookie is rejected first, then a cookie for a
      different shop. */
  function RequireAdmin(adminAuth: Option<string>, shop: ShopId): (a: Admission)
    ensures a.Admit? <==> Present(adminAuth) && adminAuth.value == shop
    ensures !Present(adminAuth) ==> a == Reject(NoAuthCookie)
    ensures Present(adminAuth) && adminAuth.value != shop ==> a == Reject(ShopMismatch)
  {
    if !Present(adminAuth) then Reject(NoAuthCookie)
    else if adminAuth.value != shop then Reject(ShopMismatch)
    else Admit
  }

  /** JavaScript truthiness of the pin field: missing, `""` and `0` are
      falsy. */
  predicate PinPresent(pin: Option<PinInput>)
  {
    pin.Some? && pin.value != PinText("") && pin.value != PinNumber(0)
  }

  /** JavaScript's string conversion of the pin: a string is kept as it is,
      an integer is written in decimal with a leading minus sign when
      negative. */
  function PinString(pin: PinInput): (s: string)
    ensures pin.PinText? ==> s == pin.text
    ensures pin.PinNumber? ==> |s| >= 1 && (s[0] == '-' <==> pin.number < 0)
    ensures pin.PinNumber? && pin.number >= 0 ==> s == Decimal(pin.number)
    ensures pin.PinNumber? && pin.number < 0 ==> s[1..] == Decimal(-pin.number)
  {
    match pin
    case PinText(t) => t
    case PinNumber(n) => if n < 0 then "-" + Decimal(-n) else Decimal(n)
  }

  /** The decimal digits of a natural number, without leading zeros. */
  function Decimal(n: nat): (s: string)
    ensures |s| >= 1
    ensures forall i :: 0 <= i < |s| ==> '0' <= s[i] <= '9'
    ensures s[0] == '0' <==> n == 0
    ensures n == 0 ==> s == "0"
  {
    var d := ['0' + (n % 10) as char];
    if n < 10 then d else Decimal(n / 10) + d
  }

  /** The number a string of decimal digits denotes, most significant digit
      first. */
  function DigitsValue(s: string): (v: nat)
    requires forall i :: 0 <= i < |s| ==> '0' <= s[i] <= '9'
    ensures s == [] ==> v == 0
    decreases |s|
  {
    if s == [] then 0
    else DigitsValue(s[..|s| - 1]) * 10 + (s[|s| - 1] - '0') as nat
  }

  /** Reading the decimal digits back gives the number: `Decimal` loses
      nothing. */
  lemma {:induction false} DecimalRoundTrip(n: nat)
    ensures DigitsValue(Decimal(n)) == n
  {
    var s := Decimal(n);
    var d := ['0' + (n % 10) as char];
    if n >= 10 {
      DecimalRoundTrip(n / 10);
      assert s == Decimal(n / 10) + d;
      assert s[..|s| - 1] == Decimal(n / 10);
    }
  }

  /** Distinct numbers have distinct decimal forms. */
  lemma DecimalInjective(a: nat, b: nat)
    ensures Decimal(a) == Decimal(b) <==> a == b
  {
    DecimalRoundTrip(a);
    DecimalRoundTrip(b);
  }

  /** Two integer pins compare equal as strings exactly when they are the
      same number. */
  lemma NumericPinsCompareByValue(a: int, b: int)
    ensures PinString(PinNumber(a)) == PinString(PinNumber(b)) <==> a == b
  {
    var sa, sb := PinString(PinNumber(a)), PinString(PinNumber(b));
    if sa == sb {
      if a < 0 {
        assert b < 0 && sa[1..] == sb[1..];
        DecimalInjective(-a, -b);
      } else {
        DecimalInjective(a, b);
      }
    }
  }

  /** `POST /login`: validates the body, looks the shop up and compares the
      stored PIN with the pin's string form. Only success touches the
      cookie. */
  function Login(session: Session, directory: Directory, shopId: Option<string>, pin: Option<PinInput>)
    : (r: (Session, Result<bool, HttpError>))
    ensures !Present(shopId) || !PinPresent(pin) ==> r == (session, Failure(MissingShopIdOrPin))
    ensures Present(shopId) && PinPresent(pin) && shopId.value !in directory ==> r == (session, Failure(InvalidPin))
    ensures Present(shopId) && PinPresent(pin) && shopId.value in directory ==>
      (directory[shopId.value] != PinString(pin.value) ==> r == (session, Failure(InvalidPin)))
    ensures r.1.Success? <==>
      Present(shopId) && PinPresent(pin) && shopId.value in directory
      && directory[shopId.value] == PinString(pin.value)
    ensures r.1.Success? ==> r.0 == Session(shopId) && r.1.value
    ensures r.1.Failure? ==> r.0 == session
    ensures r.1.Failure? ==> r.1.error in {MissingShopIdOrPin, InvalidPin}
  {
    if !Present(shopId) || !PinPresent(pin) then (session, Failure(MissingShopIdOrPin))
    else
      var shop := shopId.value;
      if shop !in directory || directory[shop] != PinString(pin.value) then (session, Failure(InvalidPin))
      else (Session(Some(shop)), Success(true))
  }

  /** `POST /logout`: clears the cookie and always reports success. */
  function Logout(session: Session): (r: (Session, Result<bool, HttpError>))
    ensures r.0.adminAuth.None?
    ensures r.1 == Success(true)
  {
    (Session(None), Success(true))
  }

  /** After a successful login for `shop`, the gate admits `shop` and
      rejects every other shop as a mismatch. */
  lemma LoginGrantsOnlyThatShop(session: Session, directory: Directory, shopId: Option<string>,
                                pin: Option<PinInput>, other: ShopId)
    requires Login(session, directory, shopId, pin).1.Success?
    ensures RequireAdmin(Login(session, directory, shopId, pin).0.adminAuth, shopId.value) == Admit
    ensures other != shopId.value ==>
      RequireAdmin(Login(session, directory, shopId, pin).0.adminAuth, other) == Reject(ShopMismatch)
  {
  }

  /** A failed login leaves the gate's verdict for every shop as it was. */
  lemma FailedLoginKeepsGate(session: Session, directory: Directory, shopId: Option<string>,
                             pin: Option<PinInput>, shop: ShopId)
    requires Login(session, directory, shopId, pin).1.Failure?
    ensures RequireAdmin(Login(session, directory, shopId, pin).0.adminAuth, shop)
         == RequireAdmin(session.adminAuth, shop)
  {
  }

  /** After logout every admin route answers "No auth cookie", and logging
      out twice is the same as once. */
  lemma LogoutRevokes(session: Session, shop: ShopId)
    ensures RequireAdmin(Logout(session).0.adminAuth, shop) == Reject(NoAuthCookie)
    ensures Logout(Logout(session).0) == Logout(session)
  {
  }
}
