/**
 * src/validations/objectId.validation.js: `Joi.string().hex().length(24).required()` with
 * its three custom messages, and the cast Mongoose applies to an `_id` filter value.
 */
module ObjectId {
  import opened Wrappers

  /** A document id, spelled as the 24 lower-case hex digits of a MongoDB ObjectId. */
  type Id = string

  const IdLength: nat := 24

  const HexMessage: string := "Invalid ObjectId format. It should be a hexadecimal string."
  const LengthMessage: string := "ObjectId must be exactly 24 characters long."
  const RequiredMessage: string := "ObjectId is required."
  /** Joi's own `string.empty` message, which the schema does not override. */
  const EmptyMessage: string := "\"id\" is not allowed to be empty"

  /** Joi's `hex()` accepts either case: /^[a-f0-9]+$/i. */
  predicate IsHexDigit(c: char)
  {
    '0' <= c <= '9' || 'a' <= c <= 'f' || 'A' <= c <= 'F'
  }

  predicate IsHex(s: string)
  {
    forall i :: 0 <= i < |s| ==> IsHexDigit(s[i])
  }

  /**
   * The validator. Joi runs `required`, then its built-in rejection of "", then the rules
   * in the order they were chained: `hex` before `length`.
   */
  function Check(v: Option<string>): (r: Result<string, string>)
    ensures r.Ok? <==> v.Some? && |v.value| == IdLength && IsHex(v.value)
    ensures r.Ok? ==> r.value == v.value
    ensures v.None? ==> r == Err(RequiredMessage)
    ensures v == Some("") ==> r == Err(EmptyMessage)
  {
    match v
    case None => Err(RequiredMessage)
    case Some(s) =>
      if s == "" then Err(EmptyMessage)
      else if !IsHex(s) then Err(HexMessage)
      else if |s| != IdLength then Err(LengthMessage)
      else Ok(s)
  }

  /** Any non-empty string with a non-hex character fails on the format, whatever its length. */
  lemma NonHexReportsFormat(s: string)
    requires s != "" && !IsHex(s)
    ensures Check(Some(s)) == Err(HexMessage)
  {
  }

  /** A hex string of the wrong length (23 digits, say) fails on the length. */
  lemma WrongLengthReportsLength(s: string)
    requires s != "" && IsHex(s) && |s| != IdLength
    ensures Check(Some(s)) == Err(LengthMessage)
  {
  }

  /** The route's sample id "invalid-id" fails on the format. */
  lemma SampleInvalidId()
    ensures Check(Some("invalid-id")) == Err(HexMessage)
  {
    assert !IsHexDigit("invalid-id"[1]);
  }

  predicate IsCanonical(id: Id)
  {
    |id| == IdLength && forall i :: 0 <= i < |id| ==> '0' <= id[i] <= '9' || 'a' <= id[i] <= 'f'
  }

  function Lower(c: char): char
  {
    if 'A' <= c <= 'F' then (c as int - 'A' as int + 'a' as int) as char else c
  }

  /** Mongoose casting a filter value to an ObjectId: 24 hex digits in either case name one id. */
  function Cast(s: string): (r: Option<Id>)
    ensures r.Some? <==> |s| == IdLength && IsHex(s)
    ensures r.Some? ==> IsCanonical(r.value)
  {
    if |s| == IdLength && IsHex(s) then Some(seq(|s|, i requires 0 <= i < |s| => Lower(s[i])))
    else None
  }

  /** A canonical id casts to itself. */
  lemma CastCanonical(id: Id)
    requires IsCanonical(id)
    ensures Cast(id) == Some(id)
  {
    assert forall i :: 0 <= i < |id| ==> IsHexDigit(id[i]);
    assert Cast(id).value == id;
  }

  /** The validator lets through exactly the strings Mongoose can cast, so a validated id never raises a cast error. */
  lemma CheckMatchesCast(s: string)
    ensures Check(Some(s)).Ok? <==> Cast(s).Some?
  {
  }
}
