/** Credential extraction, `extract_api_key` (alert_bot/app.py:87-94). */
module Auth {
  import opened Wrappers
  import opened Text

  /** `extract_api_key(x_api_key, authorization)`: the stripped `x-api-key`
      header when it is not blank; otherwise the stripped remainder of an
      `Authorization: Bearer <key>` header; otherwise the empty string. */
  function ExtractApiKey(xApiKey: Option<string>, authorization: Option<string>): (key: string)
    ensures Strip(key) == key
  {
    if xApiKey.Some? && xApiKey.value != [] && Strip(xApiKey.value) != [] then
      StripIdempotent(xApiKey.value);
      Strip(xApiKey.value)
    else if authorization.Some? && authorization.value != [] then
      match SplitAtSpace(authorization.value)
      case Some((scheme, rest)) =>
        if Lower(scheme) == "bearer" then StripIdempotent(rest); Strip(rest) else ""
      case None => ""
    else ""
  }

  /** A non-blank `x-api-key` header wins, whatever `Authorization` says. */
  lemma HeaderKeyWins(x: string, authorization: Option<string>)
    requires Strip(x) != []
    ensures ExtractApiKey(Some(x), authorization) == Strip(x)
  {
  }

  /** With no usable `x-api-key`, an `Authorization` value `scheme + " " + rest`
      (cut at its first space) yields the stripped `rest` when `scheme`
      lower-cases to `bearer`, and the empty key otherwise. */
  lemma BearerKey(x: Option<string>, scheme: string, rest: string)
    requires x.None? || Strip(x.value) == []
    requires ' ' !in scheme
    ensures ExtractApiKey(x, Some(scheme + " " + rest)) ==
      if Lower(scheme) == "bearer" then Strip(rest) else ""
  {
    SplitAtSpaceOfJoin(scheme, rest);
  }

  /** The `Authorization` header carries no bearer token: it is absent, has
      no space, names a scheme other than `bearer`, or leaves nothing but
      whitespace after the scheme. */
  predicate CarriesNoBearerToken(authorization: Option<string>) {
    || authorization.None?
    || SplitAtSpace(authorization.value).None?
    || Lower(SplitAtSpace(authorization.value).value.0) != "bearer"
    || Strip(SplitAtSpace(authorization.value).value.1) == []
  }

  /** With no usable `x-api-key`, an absent or empty `Authorization` header,
      or one without a space, yields the empty key. */
  lemma NoBearerNoKey(x: Option<string>, authorization: Option<string>)
    requires x.None? || Strip(x.value) == []
    requires authorization.None? || ' ' !in authorization.value
    ensures ExtractApiKey(x, authorization) == ""
  {
  }

  /** A bearer token in the usual spelling. */
  lemma BearerExample()
    ensures ExtractApiKey(None, Some("Bearer s3cret")) == "s3cret"
  {
    assert "Bearer s3cret" == "Bearer" + " " + "s3cret";
    var l := Lower("Bearer");
    assert l[0] == 'b' && l[1] == 'e' && l[2] == 'a' && l[3] == 'r' && l[4] == 'e' && l[5] == 'r';
    assert l == "bearer";
    assert !IsSpace('s') && !IsSpace('t');
    BearerKey(None, "Bearer", "s3cret");
    StripOfTrimmed("s3cret");
  }

  /** A scheme other than `bearer` gives no key. */
  lemma BasicSchemeExample()
    ensures ExtractApiKey(None, Some("Basic s3cret")) == ""
  {
    assert "Basic s3cret" == "Basic" + " " + "s3cret";
    assert Lower("Basic")[0] == 'b' && Lower("Basic")[1] == 'a';
    BearerKey(None, "Basic", "s3cret");
  }
}
