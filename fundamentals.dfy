/**
 * typescript/src/fundamentals.ts: narrowing by `typeof`, truthiness,
 * `instanceof`, custom type guards and discriminated unions, and the
 * practical uses of each (API responses, user input, optional database
 * fields, permissions, untrusted data).
 */
module Fundamentals {
  import opened JsValue
  import JsString
  import Decimal

  const HelloPrefix := "hello "

  /** greet(person): `hello ${person}`; the name can be read back from the greeting. */
  function Greet(person: string): (r: string)
    ensures |r| == |HelloPrefix| + |person|
    ensures r[..|HelloPrefix|] == HelloPrefix && r[|HelloPrefix|..] == person
  {
    HelloPrefix + person
  }

  const OrderPrefix := "Order will be delivered in "
  const OrderSuffix := " minutes"

  /**
   * getOrder(time: string | number). Both narrowed branches build the same
   * template, so a string is inserted as it is and a number as its decimal text.
   */
  function GetOrder(time: Value): (r: string)
    requires time.Str? || time.Num?
    ensures time.Str? ==> r == OrderPrefix + time.s + OrderSuffix
    ensures time.Num? ==> r == OrderPrefix + Decimal.IntToDecimal(time.n) + OrderSuffix
  {
    if TypeOf(time) == "string" then
      OrderPrefix + ToJsString(time) + OrderSuffix
    else
      OrderPrefix + ToJsString(time) + OrderSuffix
  }

  /** Narrowing is not observable: a number and its decimal text give the same message. */
  lemma GetOrderSameForNumberAndItsText(n: int)
    ensures GetOrder(Num(n)) == GetOrder(Str(Decimal.IntToDecimal(n)))
  {
  }

  /** Different numbers of minutes give different messages. */
  lemma {:induction false} GetOrderDistinguishesNumbers(a: int, b: int)
    requires GetOrder(Num(a)) == GetOrder(Num(b))
    ensures a == b
  {
    var sa, sb := Decimal.IntToDecimal(a), Decimal.IntToDecimal(b);
    assert GetOrder(Num(a))[|OrderPrefix|..|OrderPrefix| + |sa|] == sa;
    assert GetOrder(Num(b))[|OrderPrefix|..|OrderPrefix| + |sb|] == sb;
    Decimal.IntToDecimalInjective(a, b);
  }

  const ServingPrefix := "Serving "
  const ServingDefault := "Serving default message"

  /** serveOrder(msg?): truthiness, so undefined and "" both give the default. */
  function ServeOrder(msg: Option<string>): (r: string)
    ensures msg.Some? && msg.value != "" ==> r == ServingPrefix + msg.value
    ensures msg == None || msg == Some("") ==> r == ServingDefault
  {
    var v := OptionalString(msg);
    if Truthy(v) then ServingPrefix + ToJsString(v) else ServingDefault
  }

  /** The default is indistinguishable from an explicit "default message". */
  lemma ServeOrderDefaultIsAmbiguous()
    ensures ServeOrder(None) == ServeOrder(Some("default message"))
  {
  }

  /** The two outlet classes; each has its own serve(). */
  datatype Outlet = Restaurant | Dhaba {
    function Serve(): (r: string)
      ensures r == "Serving from " + (if Restaurant? then "Restaurant" else "Dhaba")
    {
      match this
      case Restaurant => "Serving from Restaurant"
      case Dhaba => "Serving from Dhaba"
    }
  }

  /** serve(outlet): both `instanceof` branches call the outlet's own serve(). */
  function Serve(outlet: Outlet): (r: string)
    ensures r == outlet.Serve()
    ensures outlet.Restaurant? <==> r == "Serving from Restaurant"
  {
    if outlet.Restaurant? then outlet.Serve() else outlet.Serve()
  }

  /** isResponse(obj): a non-null object whose `data` is a string and `status` a number. */
  function IsResponse(v: Value): (r: bool)
    ensures r <==> v.Obj? && "data" in v.props && v.props["data"].Str?
                          && "status" in v.props && v.props["status"].Num?
  {
    TypeOf(v) == "object" && v != Null
    && TypeOf(Get(v, "data")) == "string"
    && TypeOf(Get(v, "status")) == "number"
  }

  const RespondedPrefix := "Responded with data: "
  const CustomPrefix := "Custom response: "

  /** handleResponse(resp: Response | string). */
  function HandleResponse(resp: Value): (r: string)
    requires IsResponse(resp) || resp.Str?
    ensures IsResponse(resp) ==> r == RespondedPrefix + resp.props["data"].s
    ensures !IsResponse(resp) ==> r == CustomPrefix + resp.s
    ensures IsResponse(resp) <==> |r| >= |RespondedPrefix| && r[..|RespondedPrefix|] == RespondedPrefix
  {
    if IsResponse(resp) then
      RespondedPrefix + ToJsString(Get(resp, "data"))
    else
      var r := CustomPrefix + ToJsString(resp);
      assert r[0] != RespondedPrefix[0];
      r
  }

  /** The three novel shapes, discriminated by their `type` field. */
  datatype Novel =
    | Thriller(amount: int)
    | Action(amount: int)
    | Classic(amount: int, date: int)
  {
    function Type(): string {
      match this
      case Thriller(_) => "Thriller"
      case Action(_) => "Action"
      case Classic(_, _) => "Classic"
    }
  }

  /** deliverNovel: every tag is handled and named in the result. */
  function DeliverNovel(novel: Novel): (r: string)
    ensures r == novel.Type() + " Novel"
  {
    match novel
    case Thriller(_) => "Thriller Novel"
    case Action(_) => "Action Novel"
    case Classic(_, _) => "Classic Novel"
  }

  /** Two novels are delivered alike exactly when their tags agree. */
  lemma DeliverNovelSeparatesTags(a: Novel, b: Novel)
    ensures DeliverNovel(a) == DeliverNovel(b) <==> a.Type() == b.Type()
  {
  }

  datatype ApiResponse = ApiSuccess(data: string) | ApiError(message: string)

  /** handleApiResponse: upper-cased data on success, the message as it is on error. */
  function HandleApiResponse(res: ApiResponse): (r: string)
    ensures res.ApiSuccess? ==> |r| == |res.data|
    ensures res.ApiSuccess? ==> forall i :: 0 <= i < |r| ==> r[i] == JsString.UpperChar(res.data[i])
    ensures res.ApiSuccess? ==> forall i :: 0 <= i < |r| ==> !JsString.IsLowerAscii(r[i])
    ensures res.ApiError? ==> r == res.message
  {
    if res.ApiSuccess? then JsString.ToUpper(res.data) else res.message
  }

  const InvalidInput := "Invalid input"

  /** handleUserInput(input: unknown): a string is trimmed, anything else rejected. */
  function HandleUserInput(input: Value): (r: string)
    ensures !input.Str? ==> r == InvalidInput
    ensures input.Str? ==> JsString.IsTrimmed(r)
    ensures input.Str? ==> exists i :: JsString.Surrounds(input.s, i, r)
  {
    if TypeOf(input) == "string" then JsString.Trim(input.s) else InvalidInput
  }

  /** A string input is answered with the one white-space-free core it contains. */
  lemma HandleUserInputReturnsCore(s: string, i: nat, m: string)
    requires JsString.Surrounds(s, i, m) && JsString.IsTrimmed(m)
    ensures HandleUserInput(Str(s)) == m
  {
    JsString.TrimCharacterization(s, i, m);
  }

  /** A user record whose email field is optional. */
  datatype DbUser = DbUser(id: string, email: Option<string>)

  const NoEmail := "No email provided"
  const EmailSentPrefix := "Email sent to "

  /** sendEmail(user): a missing or empty email is reported, otherwise named. */
  function SendEmail(user: DbUser): (r: string)
    ensures user.email == None || user.email == Some("") ==> r == NoEmail
    ensures user.email.Some? && user.email.value != "" ==> r == EmailSentPrefix + user.email.value
  {
    var email := OptionalString(user.email);
    if !Truthy(email) then NoEmail else EmailSentPrefix + ToJsString(email)
  }

  /** The account union, discriminated by `role`. */
  datatype Account = Admin(permissions: seq<string>) | User

  /** canDelete(account): only an admin holding the "delete" permission. */
  function CanDelete(account: Account): (r: bool)
    ensures r <==> account.Admin? && "delete" in account.permissions
    ensures account.User? ==> !r
  {
    if account.Admin? then Includes(account.permissions, "delete") else false
  }

  /** isResponseData(value): a non-null object that HAS keys `data` and `status`. */
  function IsResponseData(v: Value): (r: bool)
    ensures r <==> v.Obj? && "data" in v.props && "status" in v.props
  {
    TypeOf(v) == "object" && v != Null && HasProperty(v, "data") && HasProperty(v, "status")
  }

  const InvalidFormat := "Invalid response format"

  /** processResponse(value): whatever `data` holds, or the rejection text. */
  function ProcessResponse(v: Value): (r: Value)
    ensures IsResponseData(v) ==> r == v.props["data"]
    ensures !IsResponseData(v) ==> r == Str(InvalidFormat)
  {
    if IsResponseData(v) then Get(v, "data") else Str(InvalidFormat)
  }

  /** Every value isResponse accepts, isResponseData accepts too. */
  lemma IsResponseImpliesIsResponseData(v: Value)
    requires IsResponse(v)
    ensures IsResponseData(v)
  {
  }

  /**
   * The converse fails: isResponseData checks only that the keys are present,
   * so processResponse can hand back a `data` that is not a string.
   */
  lemma ProcessResponseCanReturnNonString()
    ensures var v := Obj(map["data" := Num(42), "status" := Str("ok")]);
      IsResponseData(v) && !IsResponse(v) && ProcessResponse(v) == Num(42)
  {
  }

  /** On a value isResponse accepts, processResponse returns its string data. */
  lemma ProcessResponseOnResponse(v: Value)
    requires IsResponse(v)
    ensures ProcessResponse(v) == Str(v.props["data"].s)
    ensures HandleResponse(v) == RespondedPrefix + ProcessResponse(v).s
  {
  }

  /**
   * processResponse with the guard its type predicate promises: `data` must
   * be a string, so the result always is one.
   */
  function ProcessResponseChecked(v: Value): (r: Value)
    ensures r.Str?
    ensures IsResponse(v) ==> r == ProcessResponse(v)
    ensures !IsResponse(v) ==> r == Str(InvalidFormat)
  {
    if IsResponse(v) then Get(v, "data") else Str(InvalidFormat)
  }
}
