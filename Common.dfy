/** Types and helpers shared by every component of the app: optional values,
    identifiers, the signed-in user, what the hosted backend answers, and the
    handful of JavaScript string idioms the components rely on. */
module Common {

  datatype Option<+T> = None | Some(value: T)

  /** Row and user identifiers. They are never empty, so the JavaScript test
      `if (id)` on one is the same as "the id is present". */
  type Id = s: string | |s| > 0 witness "0"

  /** The signed-in user as the auth provider reports it (`user_metadata` is
      opaque to the app and not modelled). */
  datatype User = User(id: Id, email: Option<string>)

  /** A session handed out by the auth provider. */
  datatype Session = Session(user: User)

  /** An error object returned by the backend's table API. */
  datatype PgError = PgError(code: string, message: string)

  /** The code the table API returns from `.single()` when no row matched. */
  const NoRowsCode: string := "PGRST116"

  /** The awaited result of a read: the data, or the backend's error. */
  datatype Response<T> = Ok(data: T) | Err(error: PgError)

  /** The awaited result of an insert, update or delete. */
  datatype WriteOutcome = Written | WriteFailed(error: PgError)

  /** A navigation the app performs: a path and its query parameters. */
  datatype Target = Target(path: string, query: map<string, string>)

  function Path(p: string): (t: Target)
    ensures t.path == p && t.query == map[]
  {
    Target(p, map[])
  }

  /** `s || fallback` for a string `s`: the empty string is falsy. */
  function OrElse(s: string, fallback: string): (r: string)
    ensures s != "" ==> r == s
    ensures s == "" ==> r == fallback
    ensures fallback != "" ==> r != ""
  {
    if s != "" then s else fallback
  }

  /** `column || ''` for a nullable text column. */
  function OrEmpty(o: Option<string>): (r: string)
    ensures o.Some? ==> r == o.value
    ensures o.None? ==> r == ""
  {
    if o.Some? then o.value else ""
  }

  /** A nullable string as a JSX `&&` condition sees it: null or `''`
      renders nothing. */
  function Rendered(o: Option<string>): (r: Option<string>)
    ensures r.Some? <==> o.Some? && o.value != ""
    ensures r.Some? ==> r == o
  {
    if o.Some? && o.value != "" then o else None
  }

  /** The characters `String.prototype.trim` removes: the ECMAScript
      WhiteSpace and LineTerminator code points. */
  predicate IsWhitespace(c: char)
  {
    c == '\t' || c == '\n' || c == '\U{0B}' || c == '\U{0C}' || c == '\r' ||
    c == ' ' || c == '\U{A0}' || c == '\U{1680}' ||
    ('\U{2000}' <= c <= '\U{200A}') ||
    c == '\U{2028}' || c == '\U{2029}' || c == '\U{202F}' || c == '\U{205F}' ||
    c == '\U{3000}' || c == '\U{FEFF}'
  }

  function TrimStart(s: string): (r: string)
    ensures r == "" || !IsWhitespace(r[0])
  {
    if s != [] && IsWhitespace(s[0]) then TrimStart(s[1..]) else s
  }

  function TrimEnd(s: string): string
  {
    if s != [] && IsWhitespace(s[|s| - 1]) then TrimEnd(s[..|s| - 1]) else s
  }

  /** `s.trim()`. */
  function Trim(s: string): string
  {
    TrimEnd(TrimStart(s))
  }

  /** Every character of `s` is whitespace. */
  predicate AllWhitespace(s: string)
  {
    forall i :: 0 <= i < |s| ==> IsWhitespace(s[i])
  }

  lemma {:induction false} TrimStartEmpty(s: string)
    ensures TrimStart(s) == "" <==> AllWhitespace(s)
    decreases |s|
  {
    if s != [] && IsWhitespace(s[0]) {
      TrimStartEmpty(s[1..]);
      assert AllWhitespace(s) <==> AllWhitespace(s[1..]) by {
        forall i | 0 <= i < |s[1..]| ensures s[1..][i] == s[i + 1] { }
      }
    }
  }

  lemma {:induction false} TrimEndEmpty(s: string)
    ensures TrimEnd(s) == "" <==> AllWhitespace(s)
    decreases |s|
  {
    if s != [] && IsWhitespace(s[|s| - 1]) {
      var t := s[..|s| - 1];
      TrimEndEmpty(t);
      assert AllWhitespace(s) <==> AllWhitespace(t) by {
        forall i | 0 <= i < |t| ensures t[i] == s[i] { }
      }
    }
  }

  /** `!s.trim()`: trimming leaves nothing exactly when every character of the
      string is whitespace (the empty string included). */
  lemma TrimEmptyIffBlank(s: string)
    ensures Trim(s) == "" <==> AllWhitespace(s)
  {
    TrimStartEmpty(s);
    TrimEndEmpty(TrimStart(s));
    var t := TrimStart(s);
    assert AllWhitespace(t) <==> t == "" by {
      if t != "" { assert !IsWhitespace(t[0]); }
    }
  }

  /** `!s.trim()`, the test the page forms use to reject an empty reason. */
  predicate IsBlank(s: string)
  {
    Trim(s) == ""
  }
}
