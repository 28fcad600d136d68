/** Header names, header values and the header map of sdk/core/src/headers.rs. */
module Headers {
  import opened Wrappers
  import opened Primitives
  import opened Errors
  import Utf8

  /** `HeaderName`. The type does not enforce the lower-case rule: only the
      constructors `FromStatic`, `FromStr`, `FromCow` and `FromString` check
      or establish it, and the well-known constants below are lower-case as
      written. */
  datatype HeaderName = HeaderName(name: string)

  /** `HeaderValue`: any string; every `From` conversion stores it unchanged. */
  datatype HeaderValue = HeaderValue(value: string)

  type HeaderPair = (HeaderName, HeaderValue)

  // ---------------------------------------------------------------------------
  // The lower-case rule for header names

  const NoUppercaseMessage := "header names must not contain uppercase letters"

  predicate IsUppercaseByte(b: uint8) {
    65 <= b <= 90
  }

  predicate NoUppercaseBytes(bytes: Bytes) {
    forall i | 0 <= i < |bytes| :: !IsUppercaseByte(bytes[i])
  }

  predicate IsAsciiUppercase(c: char) {
    'A' <= c <= 'Z'
  }

  /** No character of `s` is an upper-case letter. Letters are classified
      as ASCII letters only. */
  predicate IsLowercaseName(s: string) {
    forall i | 0 <= i < |s| :: !IsAsciiUppercase(s[i])
  }

  /** The byte test of `ensure_no_uppercase` accepts exactly the strings the
      character test accepts: in UTF-8 a byte in 65..=90 can only be an ASCII
      character of the string. */
  lemma UppercaseByteIffChar(s: string)
    ensures NoUppercaseBytes(Utf8.Encode(s)) <==> IsLowercaseName(s)
  {
    var bytes := Utf8.Encode(s);
    if !NoUppercaseBytes(bytes) {
      var i :| 0 <= i < |bytes| && IsUppercaseByte(bytes[i]);
      Utf8.AsciiByteIsAsciiChar(s, bytes[i]);
    }
    if !IsLowercaseName(s) {
      var j :| 0 <= j < |s| && IsAsciiUppercase(s[j]);
      Utf8.AsciiByteIsAsciiChar(s, s[j] as int);
    }
  }

  /** `ensure_no_uppercase`: walks the UTF-8 bytes of `s` and panics at the
      first byte in 65..=90 (ASCII `A`-`Z`). */
  method EnsureNoUppercase(s: string) returns (r: Checked<()>)
    ensures r.Completed? <==> IsLowercaseName(s)
    ensures r.Panicked? ==> r.message == NoUppercaseMessage
  {
    var bytes := Utf8.Encode(s);
    UppercaseByteIffChar(s);
    var i := 0;
    while i < |bytes|
      invariant 0 <= i <= |bytes|
      invariant NoUppercaseBytes(bytes[..i])
    {
      var byte := bytes[i];
      if IsUppercaseByte(byte) {
        return Panicked(NoUppercaseMessage);
      }
      i := i + 1;
    }
    assert bytes[..i] == bytes;
    return Completed(());
  }

  /** `HeaderName::from_static`: accepts a string with no upper-case ASCII
      letter unchanged, and panics on any other. */
  function FromStatic(s: string): (r: Checked<HeaderName>)
    ensures r.Completed? <==> IsLowercaseName(s)
    ensures r.Completed? ==> r.value.name == s
    ensures r.Panicked? ==> r.message == NoUppercaseMessage
  {
    UppercaseByteIffChar(s);
    if NoUppercaseBytes(Utf8.Encode(s)) then Completed(HeaderName(s))
    else Panicked(NoUppercaseMessage)
  }

  /** `HeaderName::from_cow`: asserts that every alphabetic character is
      lower case. */
  function FromCow(s: string): (r: Checked<HeaderName>)
    ensures r.Completed? <==> IsLowercaseName(s)
    ensures r.Completed? ==> r.value.name == s
    ensures r.Panicked? ==> r.message == "header names must be lowercase: " + s
  {
    if forall i | 0 <= i < |s| :: s[i] == ToLowercaseChar(s[i]) then Completed(HeaderName(s))
    else Panicked("header names must be lowercase: " + s)
  }

  /** `From<&'static str> for HeaderName`: no lower-casing, so an upper-case
      letter panics. Letters are classified as ASCII only here; the source
      also panics on a non-ASCII letter that is not lower-case. */
  function FromStr(s: string): (r: Checked<HeaderName>)
    ensures r.Completed? <==> IsLowercaseName(s)
    ensures r.Completed? ==> r.value.name == s
  {
    FromCow(s)
  }

  function ToLowercaseChar(c: char): (l: char)
    ensures !IsAsciiUppercase(l)
    ensures IsAsciiUppercase(c) ==> (l as int) == (c as int) + 32
    ensures !IsAsciiUppercase(c) ==> l == c
  {
    if IsAsciiUppercase(c) then (c as int + 32) as char else c
  }

  /** `str::to_lowercase`, on ASCII letters. */
  function ToLowercase(s: string): (r: string)
    ensures |r| == |s|
    ensures forall i | 0 <= i < |s| :: r[i] == ToLowercaseChar(s[i])
  {
    seq(|s|, i requires 0 <= i < |s| => ToLowercaseChar(s[i]))
  }

  /** `From<String> for HeaderName`: lower-cases first, then builds the name
      through `from_cow`. Under the ASCII case rule of this model no letter
      is left upper-case, so the assertion of `from_cow` holds. */
  function FromString(s: string): (h: HeaderName)
    ensures IsLowercaseName(h.name)
    ensures h.name == ToLowercase(s)
  {
    var lower := ToLowercase(s);
    var r := FromCow(lower);
    assert r.Completed?;
    r.value
  }

  /** Lower-casing is idempotent and leaves a lower-case name unchanged, so
      `From<String>` agrees with `from_static` wherever the latter succeeds. */
  lemma FromStringAgreesWithFromStatic(s: string)
    ensures FromString(FromString(s).name) == FromString(s)
    ensures FromStatic(s).Completed? <==> FromString(s).name == s
    ensures FromStatic(s).Completed? ==> FromStatic(s).value == FromString(s)
  {
    var l := ToLowercase(s);
    assert ToLowercase(l) == l;
    if FromString(s).name == s {
      assert IsLowercaseName(s);
    }
    if IsLowercaseName(s) {
      assert l == s;
    }
  }

  // ---------------------------------------------------------------------------
  // AsHeaders

  /** A value implementing `AsHeaders`: a `Header` (its `name()` and
      `value()`), or an `Option` of something implementing `AsHeaders`. */
  datatype HeaderSource =
    | Single(name: HeaderName, value: HeaderValue)
    | Optional(inner: Option<HeaderSource>)

  /** `AsHeaders::as_headers`: a header yields its one pair, `None` yields
      nothing, `Some(h)` yields what `h` yields. */
  function AsHeaders(h: HeaderSource): (pairs: seq<HeaderPair>)
    ensures |pairs| <= 1
    ensures h.Single? ==> pairs == [(h.name, h.value)]
    ensures h == Optional(None) ==> pairs == []
    ensures h.Optional? && h.inner.Some? ==> pairs == AsHeaders(h.inner.value)
  {
    match h
    case Single(name, value) => [(name, value)]
    case Optional(None) => []
    case Optional(Some(inner)) => AsHeaders(inner)
  }

  /** The map after inserting `pairs` one by one, in order. */
  function InsertAll(m: map<HeaderName, HeaderValue>, pairs: seq<HeaderPair>): map<HeaderName, HeaderValue>
  {
    if pairs == [] then m
    else
      var last := pairs[|pairs| - 1];
      InsertAll(m, pairs[..|pairs| - 1])[last.0 := last.1]
  }

  /** Inserting pairs in order: a name that occurs in `pairs` ends up with the
      value of its LAST occurrence. */
  lemma {:induction false} InsertAllLastWins(m: map<HeaderName, HeaderValue>, pairs: seq<HeaderPair>, j: nat)
    requires j < |pairs|
    requires forall i | j < i < |pairs| :: pairs[i].0 != pairs[j].0
    ensures pairs[j].0 in InsertAll(m, pairs) && InsertAll(m, pairs)[pairs[j].0] == pairs[j].1
  {
    if j < |pairs| - 1 {
      InsertAllLastWins(m, pairs[..|pairs| - 1], j);
    }
  }

  /** Inserting pairs in order leaves every name that does not occur in
      `pairs` as it was, and adds no other name. */
  lemma {:induction false} InsertAllKeepsOthers(m: map<HeaderName, HeaderValue>, pairs: seq<HeaderPair>, key: HeaderName)
    requires forall i | 0 <= i < |pairs| :: pairs[i].0 != key
    ensures key in InsertAll(m, pairs) <==> key in m
    ensures key in m ==> InsertAll(m, pairs)[key] == m[key]
  {
    if pairs != [] {
      InsertAllKeepsOthers(m, pairs[..|pairs| - 1], key);
    }
  }

  // ---------------------------------------------------------------------------
  // The header map

  /** `Headers`: a map with at most one value per name. */
  class Headers {
    var entries: map<HeaderName, HeaderValue>

    /** `Headers::new` and `Default`. */
    constructor ()
      ensures entries == map[]
    {
      entries := map[];
    }

    /** `From<HashMap<HeaderName, HeaderValue>> for Headers`. */
    constructor FromMap(m: map<HeaderName, HeaderValue>)
      ensures entries == m
    {
      entries := m;
    }

    /** `Clone for Headers`: a new map object with the same entries. */
    method Clone() returns (c: Headers)
      ensures fresh(c) && c.entries == entries
    {
      c := new Headers.FromMap(entries);
    }

    /** `Headers::insert`: adds the pair, replacing any value already stored
        under `key`; every other entry is unchanged. */
    method Insert(key: HeaderName, value: HeaderValue)
      modifies this
      ensures entries == old(entries)[key := value]
    {
      entries := entries[key := value];
    }

    /** `Headers::add`: inserts every pair `as_headers` yields, in order. */
    method Add(header: HeaderSource)
      modifies this
      ensures entries == InsertAll(old(entries), AsHeaders(header))
      ensures header.Single? ==> entries == old(entries)[header.name := header.value]
      ensures header == Optional(None) ==> entries == old(entries)
    {
      var pairs := AsHeaders(header);
      for i := 0 to |pairs|
        invariant entries == InsertAll(old(entries), pairs[..i])
      {
        assert pairs[..i + 1][..i] == pairs[..i];
        Insert(pairs[i].0, pairs[i].1);
      }
      assert pairs[..|pairs|] == pairs;
    }

    /** `Headers::get_optional_with`: `Ok(None)` for an absent name, the
        parsed value for a present one, and a `DataConversion` error that
        keeps the parser's error as its source when parsing fails. */
    function GetOptionalWith<V>(key: HeaderName, parser: HeaderValue -> Result<V, Cause>, typeName: string): (r: Result<Option<V>, Error>)
      reads this
      ensures key !in entries ==> r == Ok(None)
      ensures key in entries && parser(entries[key]).Ok? ==> r == Ok(Some(parser(entries[key]).value))
      ensures key in entries && parser(entries[key]).Err? ==>
        r.Err? && Kind(r.error) == DataConversion && Source(r.error) == Some(parser(entries[key]).error)
        && Display(r.error) == ParseFailureMessage(key, entries[key], typeName)
    {
      if key in entries then
        var v := entries[key];
        match WithContext(parser(v), DataConversion, () => ParseFailureMessage(key, v, typeName))
        case Ok(x) => Ok(Some(x))
        case Err(e) => Err(e)
      else Ok(None)
    }

    /** `Headers::get_with`: like `get_optional_with`, but an absent name is a
        `DataConversion` error "header not found <name>". */
    function GetWith<V>(key: HeaderName, parser: HeaderValue -> Result<V, Cause>, typeName: string): (r: Result<V, Error>)
      reads this
      ensures key !in entries ==>
        r.Err? && Kind(r.error) == DataConversion && Display(r.error) == "header not found " + key.name
        && Source(r.error) == None
      ensures key in entries && parser(entries[key]).Ok? ==> r == Ok(parser(entries[key]).value)
      ensures key in entries && parser(entries[key]).Err? ==>
        r.Err? && Kind(r.error) == DataConversion && Source(r.error) == Some(parser(entries[key]).error)
        && Display(r.error) == ParseFailureMessage(key, entries[key], typeName)
    {
      match GetOptionalWith(key, parser, typeName)
      case Err(e) => Err(e)
      case Ok(None) => Err(WithMessage(DataConversion, () => "header not found " + key.name))
      case Ok(Some(v)) => Ok(v)
    }

    /** `Headers::get_str`: the stored string, or the not-found error. */
    function GetStr(key: HeaderName): (r: Result<string, Error>)
      reads this
      ensures key in entries ==> r == Ok(entries[key].value)
      ensures key !in entries ==>
        r.Err? && Kind(r.error) == DataConversion && Display(r.error) == "header not found " + key.name
    {
      GetWith(key, (v: HeaderValue) => Ok(v.value), "&str")
    }

    /** `Headers::get_optional_str`: `Some` of the stored string exactly when
        the name is present. */
    function GetOptionalStr(key: HeaderName): (r: Option<string>)
      reads this
      ensures r.Some? <==> key in entries
      ensures r.Some? ==> r.value == entries[key].value
    {
      GetStr(key).ToOption()
    }
  }

  /** The message of a failed header parse: "unable to parse header
      '<name>: <value>' into <type>", with name and value in their `Debug`
      form. */
  function ParseFailureMessage(key: HeaderName, v: HeaderValue, typeName: string): string {
    "unable to parse header 'HeaderName(\"" + key.name + "\"): HeaderValue(\"" + v.value + "\")' into " + typeName
  }

  // ---------------------------------------------------------------------------
  // Well-known header names (all built with `from_static`)

  const ACCEPT := HeaderName("accept")
  const AUTHORIZATION := HeaderName("authorization")
  const CLIENT_REQUEST_ID := HeaderName("x-ms-client-request-id")
  const CONTENT_ENCODING := HeaderName("content-encoding")
  const CONTENT_LENGTH := HeaderName("content-length")
  const ETAG := HeaderName("etag")
  const IF_MATCH := HeaderName("if-match")
  const IF_MODIFIED_SINCE := HeaderName("if-modified-since")
  const IF_NONE_MATCH := HeaderName("if-none-match")
  const IF_UNMODIFIED_SINCE := HeaderName("if-unmodified-since")
  const TAGS := HeaderName("x-ms-tags")
  const USER_AGENT := HeaderName("user-agent")
  const WWW_AUTHENTICATE := HeaderName("www-authenticate")
}
