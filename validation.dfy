/**
 * The argument guards of `src/utils/validation.js`. Each returns `true` or throws an
 * `Error`; a thrown error is `Failure(message)`. Whether `new URL(s)` accepts a
 * string is the parameter `urlOk`.
 */
module Validation {
  import opened Wrappers
  import opened Js

  /** `isValidUrl`: a string that `new URL` accepts. */
  predicate IsValidUrl(url: Value, urlOk: string -> bool) {
    url.Str? && urlOk(url.s)
  }

  /** `validateUrl(url, fieldName = 'url')`. */
  function ValidateUrl(url: Value, fieldName: Value, urlOk: string -> bool): (r: Result<bool>)
    ensures r.Success? <==> !Truthy(url) || IsValidUrl(url, urlOk)
    ensures r.Success? ==> r.value
    ensures r.Failure? ==> (r.error ==
      "Invalid " + (if fieldName.Undefined? then "url" else ToJsString(fieldName))
      + ": \"" + ToJsString(url) + "\". Must be a valid URL.")
  {
    var name := if fieldName.Undefined? then Str("url") else fieldName;
    if Truthy(url) && !IsValidUrl(url, urlOk) then
      Failure("Invalid " + ToJsString(name) + ": \"" + ToJsString(url) + "\". Must be a valid URL.")
    else
      Success(true)
  }

  /** `validateRequired(value, fieldName)`. */
  function ValidateRequired(value: Value, fieldName: Value): (r: Result<bool>)
    ensures r.Success? <==> Truthy(value)
    ensures r.Success? ==> r.value
    ensures r.Failure? ==> r.error == "Required field \"" + ToJsString(fieldName) + "\" is missing."
  {
    if !Truthy(value) then Failure("Required field \"" + ToJsString(fieldName) + "\" is missing.")
    else Success(true)
  }

  /** `validateArray(value, fieldName)`. */
  function ValidateArray(value: Value, fieldName: Value): (r: Result<bool>)
    ensures r.Success? <==> !Truthy(value) || value.Arr?
    ensures r.Success? ==> r.value
    ensures r.Failure? ==> r.error == "\"" + ToJsString(fieldName) + "\" must be an array."
  {
    if Truthy(value) && !value.Arr? then Failure("\"" + ToJsString(fieldName) + "\" must be an array.")
    else Success(true)
  }

  /** Only strings can be valid URLs, whatever `new URL` accepts. */
  lemma NonStringIsInvalidUrl(url: Value, urlOk: string -> bool)
    requires !url.Str?
    ensures !IsValidUrl(url, urlOk)
  {
  }

  /** A falsy url is accepted without consulting the URL parser. */
  lemma FalsyUrlNotParsed(url: Value, fieldName: Value, urlOk1: string -> bool, urlOk2: string -> bool)
    requires !Truthy(url)
    ensures ValidateUrl(url, fieldName, urlOk1) == ValidateUrl(url, fieldName, urlOk2) == Success(true)
  {
  }

  /** Omitting the field name is the same as naming it "url". */
  lemma DefaultFieldName(url: Value, urlOk: string -> bool)
    ensures ValidateUrl(url, Undefined, urlOk) == ValidateUrl(url, Str("url"), urlOk)
  {
  }
}
