/**
 * typescript/src/fundamentals3.ts: an optional parameter checked by
 * truthiness, a default parameter, and a function typed `never` that only
 * throws.
 */
module Fundamentals3 {
  import opened JsValue

  const HelloPrefix := "Hello, "
  const HelloGuest := "Hello, Guest"

  /** greet(name?): a non-empty name is greeted, undefined and "" both get the guest greeting. */
  function Greet(name: Option<string>): (r: string)
    ensures name.Some? && name.value != "" ==> r == HelloPrefix + name.value
    ensures name == None || name == Some("") ==> r == HelloGuest
  {
    var v := OptionalString(name);
    if Truthy(v) then HelloPrefix + ToJsString(v) else HelloGuest
  }

  /** Truthiness, not presence: an empty name is treated as no name. */
  lemma GreetEmptyIsAbsent()
    ensures Greet(Some("")) == Greet(None) == HelloGuest
  {
  }

  /** Distinct non-empty names get distinct greetings. */
  lemma {:induction false} GreetInjective(a: string, b: string)
    requires a != "" && b != "" && Greet(Some(a)) == Greet(Some(b))
    ensures a == b
  {
    assert a == Greet(Some(a))[|HelloPrefix|..];
    assert b == Greet(Some(b))[|HelloPrefix|..];
  }

  const DefaultTea := "Masala"

  /** makeTea(type = "Masala"): the default applies only when the argument is undefined. */
  function MakeTea(tea: Option<string>): (r: string)
    ensures tea.Some? ==> r == "Making " + tea.value + " tea"
    ensures tea.None? ==> r == "Making " + DefaultTea + " tea"
  {
    var t := match tea case Some(s) => s case None => DefaultTea;
    "Making " + t + " tea"
  }

  /** Omitting the argument is passing "Masala". */
  lemma MakeTeaDefault()
    ensures MakeTea(None) == MakeTea(Some(DefaultTea)) == "Making Masala tea"
  {
  }

  /** Unlike greet, an empty string is used as given and does not trigger the default. */
  lemma MakeTeaEmptyIsNotDefault()
    ensures MakeTea(Some("")) == "Making  tea"
    ensures MakeTea(Some("")) != MakeTea(None)
  {
  }

  /** The argument can be read back from the result whenever one is passed. */
  lemma {:induction false} MakeTeaInjective(a: string, b: string)
    requires MakeTea(Some(a)) == MakeTea(Some(b))
    ensures a == b
  {
    var ra, rb := MakeTea(Some(a)), MakeTea(Some(b));
    assert a == ra[|"Making "|..|ra| - |" tea"|];
    assert b == rb[|"Making "|..|rb| - |" tea"|];
  }

  /** crash(msg): never completes normally; it always throws an Error carrying msg. */
  function Crash(msg: string): (r: Completion<()>)
    ensures !r.Normal?
    ensures r.error.message == msg
  {
    Threw(Error(msg))
  }
}
