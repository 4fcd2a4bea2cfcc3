# Narrowing, parameters and classes of the TypeScript fundamentals notes

This project models the runtime behaviour of three files of TypeScript study
notes:

- `typescript/src/fundamentals.ts` narrows values and dispatches on them. It
  uses `typeof`, truthiness, `instanceof`, custom type guards (`isResponse`,
  `isResponseData`) and discriminated unions (`Novel`, `ApiResponse`,
  `Account`). It applies them to API responses, user input, optional database
  fields and permissions.
- `typescript/src/fundamentals3.ts` has an optional parameter (`greet`), a
  default parameter (`makeTea`) and a function typed `never` (`crash`).
- `typescript/src/fundamentals4.ts` has small classes: `Coffee`, `MorningCoffee`
  and `StrongCoffee`, `Wallet`, `Cup`, `EkChai`, and `ModernChai` with its
  guarded `sugar` setter.

Modules:

- `JsValue` (js_value.dfy) holds the JavaScript values the examples observe:
  `Str | Num | Bool | Null | Undefined | Obj(map)`. It also defines `typeof`,
  truthiness, property reads, the `in` operator, template interpolation and
  `Array.prototype.includes`. Optional parameters are `Option<string>`, with
  `None` standing for `undefined`. A call that throws is `Completion.Threw`.
- `Decimal` (decimal.dfy) gives the decimal text of an integer, as a template
  literal prints a number. `ParseDecimal` reads a numeral back and inverts the
  natural-number printer. The digits `IntToDecimal` prints read back as the
  number's absolute value.
- `JsString` (js_string.dfy) defines `trim()`, over the full ECMAScript
  white-space and line-terminator set, and `toUpperCase()` on ASCII letters.
- `Fundamentals`, `Fundamentals3` and `Fundamentals4` model one source file
  each. The first two are pure functions. The third uses classes whose
  methods change their fields.

Two choices in the classes:

- The fields no code can write after construction are Dafny `const` fields:
  the non-public fields their class never writes (`usedCoffeeMaker`, private;
  `howStrong`, protected; `#balance`) and the public but readonly `capacity`.
  The other public fields (`isBlack`, `price`, `variant`, `flavour`) stay
  `var`, since code outside the class may assign them, as the
  `bulletCoffee.price = 15` line does. The private `_sugar` is written by the
  setter, so it is the variable `storedSugar`.
- `ModernChai` keeps the invariant `Valid()`: the stored sugar is at most 5.
  The constructor sets it up and the setter keeps it.

## Model

| member | source | states |
|---|---|---|
| Fundamentals.Greet | typescript/src/fundamentals.ts:3-5 | the greeting is "hello " followed by the name, and the name can be read back from it |
| Fundamentals.GetOrder | typescript/src/fundamentals.ts:74-88 | a string is inserted as it is and a number as its decimal text, between the same prefix and suffix |
| Fundamentals.GetOrderSameForNumberAndItsText | typescript/src/fundamentals.ts:77-87 | the two narrowed branches cannot be told apart: a number and its decimal text give the same message |
| Fundamentals.GetOrderDistinguishesNumbers | typescript/src/fundamentals.ts:74-88 | different numbers of minutes give different messages |
| Fundamentals.ServeOrder | typescript/src/fundamentals.ts:93-103 | a non-empty msg is served as "Serving " + msg; undefined and "" both give "Serving default message" |
| Fundamentals.ServeOrderDefaultIsAmbiguous | typescript/src/fundamentals.ts:96-102 | the default reply equals the reply to an explicit "default message" |
| Fundamentals.Outlet.Serve | typescript/src/fundamentals.ts:109-119 | each outlet's serve() names its own class: "Serving from Restaurant" or "Serving from Dhaba" |
| Fundamentals.Serve | typescript/src/fundamentals.ts:108-131 | both instanceof branches return the outlet's own serve(); the reply names the restaurant exactly for a Restaurant |
| Fundamentals.IsResponse | typescript/src/fundamentals.ts:140-157 | holds iff the value is a non-null object whose data is a string and whose status is a number |
| Fundamentals.HandleResponse | typescript/src/fundamentals.ts:159-167 | a Response gives "Responded with data: " + data and a string s gives "Custom response: " + s; the reply starts with "Responded with data: " exactly when isResponse holds |
| Fundamentals.DeliverNovel | typescript/src/fundamentals.ts:187-202 | total over the three tags; the reply is the tag followed by " Novel" |
| Fundamentals.DeliverNovelSeparatesTags | typescript/src/fundamentals.ts:187-202 | two novels get the same reply iff their tags agree, whatever their amount and date |
| Fundamentals.HandleApiResponse | typescript/src/fundamentals.ts:235-244 | on success, the data upper-cased character by character, same length, no lower-case letter left; on error, the message unchanged |
| Fundamentals.HandleUserInput | typescript/src/fundamentals.ts:256-265 | a non-string gives "Invalid input"; a string gives its core: no white space at either end, only white space cut away |
| Fundamentals.HandleUserInputReturnsCore | typescript/src/fundamentals.ts:259-262 | for any split of a string into white space, a core without white space at its ends, and white space, the reply is that core |
| Fundamentals.SendEmail | typescript/src/fundamentals.ts:282-290 | an absent or empty email gives "No email provided", otherwise "Email sent to " + email |
| Fundamentals.CanDelete | typescript/src/fundamentals.ts:313-321 | true iff the account is an admin whose permissions contain "delete"; a user account always gets false |
| Fundamentals.IsResponseData | typescript/src/fundamentals.ts:338-345 | holds iff the value is a non-null object that has the keys data and status, whatever they hold |
| Fundamentals.ProcessResponse | typescript/src/fundamentals.ts:347-354 | returns whatever data holds when both keys are present, otherwise the text "Invalid response format" |
| Fundamentals.IsResponseImpliesIsResponseData | typescript/src/fundamentals.ts:338-345 | every value isResponse accepts is accepted by isResponseData too |
| Fundamentals.ProcessResponseCanReturnNonString | typescript/src/fundamentals.ts:347-351 | the converse fails: an object with a numeric data passes isResponseData, fails isResponse, and processResponse returns that number |
| Fundamentals.ProcessResponseOnResponse | typescript/src/fundamentals.ts:347-351 | on a value isResponse accepts, processResponse returns its string data, and handleResponse reports that same data |
| Fundamentals.ProcessResponseChecked | typescript/src/fundamentals.ts:338-354 | with the type check the guard promises, the result is always a string and agrees with processResponse on well-typed responses |
| JsValue.TypeOf | typescript/src/fundamentals.ts:152-155 | typeof gives "object" exactly for null and objects, "string" exactly for strings, "number" exactly for numbers |
| JsValue.Truthy | typescript/src/fundamentals.ts:96 | a value is falsy exactly when it is "", 0, false, null or undefined |
| JsValue.Get | typescript/src/fundamentals.ts:154-155 | reading a key an object has gives its value; reading a missing key gives undefined |
| JsValue.HasProperty | typescript/src/fundamentals.ts:342-343 | `key in obj` holds iff the key is present, whatever it holds: a key set to undefined is present, and a read that gives a defined value implies presence |
| JsValue.ToJsString | typescript/src/fundamentals.ts:83-87 | a template literal inserts a string as it is and a number as its decimal text |
| JsValue.Includes | typescript/src/fundamentals.ts:316 | includes(x) holds iff some element equals x |
| Decimal.NatToDecimal | typescript/src/fundamentals.ts:87 | the decimal text of a natural number is non-empty, all digits, has no leading zero, and is "0" only for 0 |
| Decimal.ParseNatToDecimal | typescript/src/fundamentals.ts:87 | reading the decimal text back gives the number |
| Decimal.NatToDecimalInjective | typescript/src/fundamentals.ts:87 | different natural numbers have different decimal texts |
| Decimal.IntToDecimal | typescript/src/fundamentals.ts:87 | the text starts with a minus sign exactly for negative numbers; the digits after it read back as the number's absolute value and have no leading zero |
| Decimal.IntToDecimalInjective | typescript/src/fundamentals.ts:87 | different integers are printed differently |
| JsString.IsWhitespace | typescript/src/fundamentals.ts:261 | the characters trim removes are exactly the ECMAScript white-space and line-terminator code points, listed one by one |
| JsString.TrimStart | typescript/src/fundamentals.ts:261 | removes a prefix made only of white space and stops at the first character that is not white space |
| JsString.TrimEnd | typescript/src/fundamentals.ts:261 | removes a suffix made only of white space and stops at the last character that is not white space |
| JsString.Trim | typescript/src/fundamentals.ts:261 | the result has no white space at either end and sits in the input with only white space around it |
| JsString.SurroundsUnique | typescript/src/fundamentals.ts:261 | a string has at most one core, with white space around it and none at its own ends |
| JsString.TrimCharacterization | typescript/src/fundamentals.ts:261 | trim returns exactly that core, a definition independent of how it scans |
| JsString.TrimIdempotent | typescript/src/fundamentals.ts:261 | trimming twice is trimming once |
| JsString.UpperChar | typescript/src/fundamentals.ts:239 | a lower-case ASCII letter becomes its capital, every other character is kept |
| JsString.ToUpper | typescript/src/fundamentals.ts:239 | same length, each character upper-cased in place, no lower-case ASCII letter left |
| JsString.ToUpperIdempotent | typescript/src/fundamentals.ts:239 | upper-casing twice is upper-casing once |
| Fundamentals3.Greet | typescript/src/fundamentals3.ts:111-116 | a non-empty name gives "Hello, " + name; undefined and "" both give "Hello, Guest" |
| Fundamentals3.GreetEmptyIsAbsent | typescript/src/fundamentals3.ts:112-115 | the check is truthiness, not presence: greet("") equals greet() |
| Fundamentals3.GreetInjective | typescript/src/fundamentals3.ts:111-114 | distinct non-empty names get distinct greetings |
| Fundamentals3.MakeTea | typescript/src/fundamentals3.ts:128-130 | a supplied type t, including "", gives "Making " + t + " tea"; an omitted one gives "Making Masala tea" |
| Fundamentals3.MakeTeaDefault | typescript/src/fundamentals3.ts:128-130 | makeTea() equals makeTea("Masala"), which is "Making Masala tea" |
| Fundamentals3.MakeTeaEmptyIsNotDefault | typescript/src/fundamentals3.ts:128-129 | the default applies only when the argument is omitted: makeTea("") is "Making  tea", not the default |
| Fundamentals3.MakeTeaInjective | typescript/src/fundamentals3.ts:128-130 | the supplied type can be read back from the result |
| Fundamentals3.Crash | typescript/src/fundamentals3.ts:168-170 | never completes normally; it always throws an Error carrying msg |
| Fundamentals4.Coffee.constructor | typescript/src/fundamentals4.ts:15-18 | stores exactly the given isBlack and price |
| Fundamentals4.BulletCoffee | typescript/src/fundamentals4.ts:21-22 | after the later price assignment, the price is 15 and isBlack is still true |
| Fundamentals4.MorningCoffee.constructor | typescript/src/fundamentals4.ts:35-38 | a new cup has variant "Espresso" |
| Fundamentals4.MorningCoffee.Reveal | typescript/src/fundamentals4.ts:40-42 | returns false for every instance |
| Fundamentals4.StrongCoffee.constructor | typescript/src/fundamentals4.ts:53 | the inherited part is a fresh MorningCoffee with variant "Espresso" |
| Fundamentals4.StrongCoffee.Strength | typescript/src/fundamentals4.ts:54-56 | returns "very" for every instance |
| Fundamentals4.StrongCoffee.Reveal | typescript/src/fundamentals4.ts:40-42 | the inherited reveal() returns false for every instance |
| Fundamentals4.Wallet.constructor | typescript/src/fundamentals4.ts:72 | the balance starts at 100 |
| Fundamentals4.Wallet.GetBalance | typescript/src/fundamentals4.ts:74-76 | returns 100 for every instance, since nothing writes the balance |
| Fundamentals4.Cup.constructor | typescript/src/fundamentals4.ts:93-97 | capacity equals the constructor argument; it is readonly, so it never changes |
| Fundamentals4.EkChai.constructor | typescript/src/fundamentals4.ts:143 | stores the given flavour |
| Fundamentals4.SetterOutcome | typescript/src/fundamentals4.ts:121 | the setter throws exactly for a value above 5, and then with "Too Sweet" |
| Fundamentals4.ModernChai.constructor | typescript/src/fundamentals4.ts:114 | a fresh chai reports sugar 2 and satisfies the invariant |
| Fundamentals4.ModernChai.Sugar | typescript/src/fundamentals4.ts:116-118 | under the invariant, the getter's value is at most 5 |
| Fundamentals4.ModernChai.SetSugar | typescript/src/fundamentals4.ts:120-123 | a value up to 5 is stored and read back; above 5 the setter throws "Too Sweet" and the stored sugar is unchanged; the invariant is kept |
| Fundamentals4.ModernChaiScript | typescript/src/fundamentals4.ts:126-127 | setting sugar 3 on a new chai succeeds and the getter then reads 3 |
| Fundamentals4.SugarAfterSet | typescript/src/fundamentals4.ts:120-123 | a value up to 5 replaces the stored sugar and a larger one leaves it; a stored sugar within the limit stays within it |
| Fundamentals4.SugarAfterSets | typescript/src/fundamentals4.ts:113-124 | replaying no set keeps the stored sugar; from a stored sugar of at most 5, after any sequence of sets it is still at most 5 |
| Fundamentals4.SetsKeepAcceptedValue | typescript/src/fundamentals4.ts:120-123 | after any sequence of sets, the stored sugar is the initial value or one of the accepted values |
| Fundamentals4.RefusedSetIsNoOp | typescript/src/fundamentals4.ts:121 | a set above 5 leaves the stored sugar as it was, whatever came before |
| Fundamentals4.AcceptedSetIsRead | typescript/src/fundamentals4.ts:116-123 | after a set of a value up to 5, the getter reads that value, whatever came before |

## Left out

- JavaScript numbers are modelled as integers. NaN, fractions and `-0` are not modelled. NaN would pass the `value > 5` guard of the sugar setter.
- Decimal.IntToDecimal: gives plain digits for every integer. JavaScript switches to exponent notation from 1e21 up, and that is not modelled.
- JsString.ToUpper: upper-cases ASCII letters only. The full Unicode case mapping of `toUpperCase` is not modelled.
- Fundamentals.HandleApiResponse: upper-cases ASCII letters only, for the same reason.
- `instanceof` is modelled as a tag test, and `in` and property reads as lookups of an object's own keys. Prototype chains are not modelled, nor keys inherited from `Object.prototype`.
- Objects are maps from keys to values. Arrays, functions (for which `typeof` gives "function") and object identity are not modelled.
- `deliver` (typescript/src/fundamentals.ts:204-208) has an empty body and computes nothing.
- The top-level script of typescript/src/fundamentals.ts (lines 7-53) only declares constants and runs a loop whose result is overwritten.
- `add` (typescript/src/fundamentals3.ts:97-99) is floating-point addition.
- `logMessage`, `logError`, `MyChai.make`, `Heater.heat` and `HeatingSystem.make` only write to the console.
- The utility types and interfaces (typescript/src/fundamentals3.ts:10-87) are compile-time only.
- Access modifiers are checked at compile time and are not modelled as such. Only the non-public fields their class never writes (`usedCoffeeMaker`, `howStrong`, `#balance`) and the readonly `capacity` are `const`; the other public fields stay `var`.
- Strings are sequences of Unicode code points. A JavaScript string is a sequence of UTF-16 code units and can hold a lone surrogate, which this model cannot represent.
- `StrongCoffee extends MorningCoffee` is modelled by composition: a `StrongCoffee` holds its inherited part as a `base` object. Dafny has no class inheritance.
- `EkChai.shopName` is a `static const`. Dafny has no static mutable fields, so a reassignment of the static member is not modelled.
- An exception is a `Completion.Threw` result and does not unwind the caller. Fundamentals4.SugarAfterSets replays a sequence of sets as if the caller caught each throw.
- typescript/src/fundamentals2.ts, typescript/src/fundamentals5.ts and typescript/src/index.ts are not part of this model. They hold DOM access, JSON parsing, network calls and console-only code.

## Findings

| source | as written | input that shows it | evidently intended | confidence | as-written member | corrected member |
|---|---|---|---|---|---|---|
| typescript/src/fundamentals.ts:338-354 | `isResponseData` declares `value is ResponseData` (data a string) but checks only that the keys exist, so `processResponse` returns `data` unchecked | `{ data: 42, status: "ok" }` makes `processResponse` return the number 42 | check the types of data and status, as `isResponse` does, so the result is always a string | not executed; high (the guard's declared type and its checks disagree) | Fundamentals.ProcessResponseCanReturnNonString | Fundamentals.ProcessResponseChecked |
