/** `Etag` of sdk/core/src/etag.rs: an opaque validator string, weak when it
    starts with `W/`. */
module Etags {
  import opened Wrappers
  import opened Errors

  /** Two etags are equal exactly when their strings are. */
  datatype Etag = Etag(tag: string)

  /** `Etag::is_weak`: the string starts with `W/`. */
  predicate IsWeak(e: Etag) {
    |e.tag| >= 2 && e.tag[..2] == "W/"
  }

  /** `From<T: Into<String>>`: stores the string. */
  function From(s: string): (e: Etag)
    ensures AsRef(e) == s
  {
    Etag(s)
  }

  /** `FromStr`: never fails, stores its input. */
  function FromStr(s: string): (r: Result<Etag, Error>)
    ensures r.Ok? && AsRef(r.value) == s
  {
    Ok(Etag(s))
  }

  /** `AsRef<str>`. */
  function AsRef(e: Etag): string {
    e.tag
  }

  /** `Display`: the stored string verbatim, no quotes added. */
  function Display(e: Etag): (s: string)
    ensures From(s) == e
  {
    e.tag
  }

  /** Displaying an etag built from a string gives the string back, and
      weakness is decided by the `W/` prefix of that string. */
  lemma DisplayRoundTrip(s: string)
    ensures Display(From(s)) == s
    ensures FromStr(Display(From(s))) == Ok(From(s))
    ensures IsWeak(From(s)) <==> (exists rest :: s == "W/" + rest)
  {
    if IsWeak(From(s)) {
      assert s == "W/" + s[2..];
    }
  }

  /** The two cases the source's tests check. */
  lemma WeakAndStrongExamples()
    ensures IsWeak(From("W/abcd1234"))
    ensures !IsWeak(From("abcd1234"))
    ensures Display(From("abcd1234")) == "abcd1234"
  {
    assert From("abcd1234").tag[..2] == "ab";
  }
}
