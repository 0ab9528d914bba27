/**
 * The `%q` verb of Go's fmt package as used by the dispatcher's
 * method-not-found error: a double-quoted string in which `"` and `\` are
 * escaped with a backslash.
 */
module GoQuote {
  import opened GoTypes

  /** The body of a quoted string: `"` and `\` each preceded by a backslash. */
  function Escape(s: string): (r: string)
    ensures |s| <= |r| <= 2 * |s|
  {
    if s == [] then []
    else (if s[0] == '"' || s[0] == '\\' then ['\\', s[0]] else [s[0]]) + Escape(s[1..])
  }

  /** Reads back the body of a quoted string; None if it is not one that Escape produces. */
  function Unescape(r: string): (s: Option<string>)
    ensures s.Some? ==> |s.value| <= |r|
  {
    if r == [] then Some([])
    else if r[0] == '\\' then
      if |r| >= 2 && (r[1] == '"' || r[1] == '\\') then
        match Unescape(r[2..])
        case Some(t) => Some([r[1]] + t)
        case None => None
      else None
    else if r[0] == '"' then None
    else
      match Unescape(r[1..])
      case Some(t) => Some([r[0]] + t)
      case None => None
  }

  /** `fmt.Sprintf("%q", s)`. */
  function Quote(s: string): (r: string)
    ensures |r| >= 2 && r[0] == '"' && r[|r| - 1] == '"'
  {
    ['"'] + Escape(s) + ['"']
  }

  /** Escaping loses nothing: unescaping gives back the original string. */
  lemma {:induction false} UnescapeEscape(s: string)
    ensures Unescape(Escape(s)) == Some(s)
  {
    if s != [] {
      UnescapeEscape(s[1..]);
      var rest := Escape(s[1..]);
      if s[0] == '"' || s[0] == '\\' {
        assert Escape(s) == ['\\', s[0]] + rest;
        assert Escape(s)[2..] == rest;
      } else {
        assert Escape(s) == [s[0]] + rest;
        assert Escape(s)[1..] == rest;
      }
      assert [s[0]] + s[1..] == s;
    }
  }

  /** Reads back a quoted string. */
  function Unquote(q: string): (s: Option<string>)
    ensures s.Some? ==> |q| >= 2 && q[0] == '"' && q[|q| - 1] == '"'
  {
    if |q| >= 2 && q[0] == '"' && q[|q| - 1] == '"' then Unescape(q[1..|q| - 1]) else None
  }

  /** Quoting is undone by Unquote, so distinct strings quote differently. */
  lemma UnquoteQuote(s: string)
    ensures Unquote(Quote(s)) == Some(s)
  {
    assert Quote(s)[1..|Quote(s)| - 1] == Escape(s);
    UnescapeEscape(s);
  }
}
