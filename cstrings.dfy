/** Exact name comparison as the instance set-up performs it: C's `strcmp`
    over NUL-terminated names, and the `none_of` scan over an enumerated
    property list. A name is a `string`; the end of the sequence plays the
    part of the terminating NUL (enumerated names never contain one). */
module CStrings {

  /** `strcmp(a, b)`: zero when the names are equal, otherwise the sign of
      the first differing character, where the end of a name compares below
      every character. Only the sign is modelled, as a value in -1..1. */
  function StrCmp(a: string, b: string): (r: int)
    ensures r == 0 <==> a == b
    ensures -1 <= r <= 1
    decreases |a|
  {
    if a == [] && b == [] then 0
    else if a == [] then -1
    else if b == [] then 1
    else if a[0] < b[0] then -1
    else if a[0] > b[0] then 1
    else
      assert a == [a[0]] + a[1..] && b == [b[0]] + b[1..];
      StrCmp(a[1..], b[1..])
  }

  /** `std::ranges::none_of(properties, p -> strcmp(p.name, name) == 0)`:
      no enumerated property carries exactly this name. */
  function NoneOf(properties: seq<string>, name: string): (r: bool)
    ensures r <==> name !in properties
  {
    if properties == [] then true
    else
      assert properties == [properties[0]] + properties[1..];
      StrCmp(properties[0], name) != 0 && NoneOf(properties[1..], name)
  }

  /** Comparison is exact: an enumerated name that is the required name
      followed by more characters does not match it; `strcmp` orders the
      longer name after the required one (the sign, which the program itself
      never reads). */
  lemma {:induction false} NoPrefixMatch(required: string, suffix: string)
    requires suffix != []
    ensures NoneOf([required + suffix], required)
    ensures StrCmp(required + suffix, required) > 0
    decreases |required|
  {
    if required != [] {
      assert (required + suffix)[1..] == required[1..] + suffix;
      NoPrefixMatch(required[1..], suffix);
    }
  }
}
