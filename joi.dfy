/**
 * The Joi rules the schemas of src/validations/ use, with Joi's default messages.
 * A key's label is its name in double quotes. Joi stops at the first failure
 * (`abortEarly`): an object schema checks its declared keys in declaration order,
 * then rejects the first key it does not declare.
 */
module Joi {
  import opened Wrappers
  import opened Http
  import Strings

  /** A present string whose length lies in [min, max]. */
  predicate Within(v: Option<Value>, min: nat, max: nat)
  {
    v.Some? && v.value.Str? && min <= |v.value.text| <= max
  }

  function Label(key: string): string
  {
    "\"" + key + "\""
  }

  /** Decimal digits of `n`, as Joi prints a limit in a message. */
  function Decimal(n: nat): (s: string)
    ensures |s| >= 1
  {
    if n < 10 then ["0123456789"[n]] else Decimal(n / 10) + ["0123456789"[n % 10]]
  }

  /**
   * `Joi.string().min(min).max(max)` on the value under `key` (`.required()` when
   * `required`; no `max` rule when `max` is None). The empty string is refused before
   * any rule runs.
   */
  function CheckString(key: string, v: Option<Value>, min: nat, max: Option<nat>, required: bool): (r: Result<Option<string>, string>)
    ensures r.Ok? <==>
      || (v.None? && !required)
      || (v.Some? && v.value.Str? && v.value.text != "" && min <= |v.value.text|
          && (max.Some? ==> |v.value.text| <= max.value))
    ensures r.Ok? && v.Some? ==> r.value == Some(v.value.text)
    ensures r.Ok? && v.None? ==> r.value == None
  {
    match v
    case None => if required then Err(Label(key) + " is required") else Ok(None)
    case Some(NonString) => Err(Label(key) + " must be a string")
    case Some(Str(s)) =>
      if s == "" then Err(Label(key) + " is not allowed to be empty")
      else if |s| < min then Err(Label(key) + " length must be at least " + Decimal(min) + " characters long")
      else if max.Some? && |s| > max.value then
        Err(Label(key) + " length must be less than or equal to " + Decimal(max.value) + " characters long")
      else Ok(Some(s))
  }

  /**
   * `Joi.string().valid(...allowed)`: the allow-list is consulted before the type, so a
   * value outside it fails with the list, whatever its type.
   */
  function CheckOneOf(key: string, v: Option<Value>, allowed: seq<string>): (r: Result<Option<string>, string>)
    ensures r.Ok? <==> v.None? || (v.value.Str? && v.value.text in allowed)
    ensures r.Ok? && v.Some? ==> r.value == Some(v.value.text)
    ensures r.Ok? && v.None? ==> r.value == None
  {
    match v
    case None => Ok(None)
    case Some(Str(s)) =>
      if s in allowed then Ok(Some(s)) else Err(Label(key) + " must be one of [" + Listing(allowed) + "]")
    case Some(NonString) => Err(Label(key) + " must be one of [" + Listing(allowed) + "]")
  }

  function Listing(items: seq<string>): string
  {
    if |items| == 0 then ""
    else if |items| == 1 then items[0]
    else items[0] + ", " + Listing(items[1..])
  }

  /** `Joi.number()` on a query value, optional. */
  function CheckNumber(key: string, v: Option<QueryValue>): (r: Result<Option<int>, string>)
    ensures r.Ok? <==> v.None? || v.value.Numeric?
    ensures r.Ok? && v.Some? ==> r.value == Some(v.value.n)
    ensures r.Ok? && v.None? ==> r.value == None
  {
    match v
    case None => Ok(None)
    case Some(Numeric(n)) => Ok(Some(n))
    case Some(NonNumeric) => Err(Label(key) + " must be a number")
  }

  /** An email address, as Joi's `email()` rule stands here: see IsEmail. */
  function CheckEmail(key: string, v: Option<Value>): (r: Result<string, string>)
    ensures r.Ok? <==> v.Some? && v.value.Str? && v.value.text != "" && IsEmail(v.value.text)
    ensures r.Ok? ==> r.value == v.value.text
  {
    match v
    case None => Err(Label(key) + " is required")
    case Some(NonString) => Err(Label(key) + " must be a string")
    case Some(Str(s)) =>
      if s == "" then Err(Label(key) + " is not allowed to be empty")
      else if !IsEmail(s) then Err(Label(key) + " must be a valid email")
      else Ok(s)
  }

  /**
   * The shape of an address Joi accepts: one '@' after a non-empty local part, a domain
   * of at least two non-empty dot-separated labels, and no spaces. Joi's full grammar and
   * its list of top-level domains are coarser or finer than this in places.
   */
  predicate IsEmail(s: string)
  {
    var parts := Strings.Split(s, '@');
    && ' ' !in s
    && |parts| == 2
    && parts[0] != ""
    && var labels := Strings.Split(parts[1], '.');
       |labels| >= 2 && forall i :: 0 <= i < |labels| ==> labels[i] != ""
  }

  /** The first member whose key the schema does not declare. */
  function FirstUnknown<V>(fields: seq<Field<V>>, known: seq<string>): (r: Option<string>)
    ensures r.None? <==> forall i :: 0 <= i < |fields| ==> fields[i].key in known
    ensures r.Some? ==> r.value !in known && exists i :: 0 <= i < |fields| && fields[i].key == r.value
  {
    if fields == [] then None
    else if fields[0].key !in known then Some(fields[0].key)
    else
      var r := FirstUnknown(fields[1..], known);
      assert forall i :: 1 <= i < |fields| ==> fields[i] == fields[1..][i - 1];
      r
  }

  /** Joi's object check after its declared keys pass: reject the first undeclared key. */
  function CheckNoUnknown<V>(fields: seq<Field<V>>, known: seq<string>): (r: Result<(), string>)
    ensures r.Ok? <==> forall i :: 0 <= i < |fields| ==> fields[i].key in known
  {
    match FirstUnknown(fields, known)
    case None => Ok(())
    case Some(k) => Err(Label(k) + " is not allowed")
  }

  /** Every `local@name.tld` with plain non-empty parts (as "test@example.com") has the accepted shape. */
  lemma PlainAddressAccepted(local: string, name: string, tld: string)
    requires local != "" && name != "" && tld != ""
    requires '@' !in local && '@' !in name && '@' !in tld
    requires '.' !in name && '.' !in tld
    requires ' ' !in local && ' ' !in name && ' ' !in tld
    ensures IsEmail(local + ['@'] + name + ['.'] + tld)
  {
    var domain := name + ['.'] + tld;
    assert '@' !in domain;
    Strings.SplitWhole(domain, '@');
    Strings.SplitAfter(local, '@', domain);
    assert local + ['@'] + name + ['.'] + tld == local + ['@'] + domain;
    Strings.SplitWhole(tld, '.');
    Strings.SplitAfter(name, '.', tld);
    var labels := Strings.Split(domain, '.');
    assert labels == [name, tld];
  }
}
