/** The allow-list check behind every enum's YAML decoding (pkg/models/util.go). */
module Decode {
  import opened Wrappers

  /** The loop over the allow-list with its early return: a linear search. */
  function FindItem(items: seq<string>, value: string): (found: bool)
    ensures found <==> value in items
  {
    if items == [] then false
    else if items[0] == value then true
    else FindItem(items[1..], value)
  }

  /** unmarshalYaml: `decoded` is what the YAML decoder callback produced for the
      plain string. A decoder failure is passed on; a decoded value is accepted
      exactly when it is one of the allowed items, and then unchanged. */
  function UnmarshalYaml(decoded: Result<string>, allowList: seq<string>): (r: Result<string>)
    ensures decoded.Failure? ==> r == Failure(decoded.error)
    ensures r.Success? <==> decoded.Success? && decoded.value in allowList
    ensures r.Success? ==> r.value == decoded.value && r.value in allowList
    ensures decoded.Success? && decoded.value !in allowList ==>
              r == Failure("could not unmarshal " + decoded.value)
  {
    match decoded
    case Failure(e) => Failure(e)
    case Success(value) =>
      if FindItem(allowList, value) then Success(value)
      else Failure("could not unmarshal " + value)
  }
}
