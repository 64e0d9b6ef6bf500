/** `_quote`: a path as a string literal of a Seatbelt profile. */
module SeatbeltQuote {
  import opened Bytes
  import opened Processes

  /** `str.replace` of one character. */
  function Replace(s: string, c: char, text: string): string {
    if s == "" then "" else (if s[0] == c then text else [s[0]]) + Replace(s[1..], c, text)
  }

  /** None is the error for a NUL. */
  function Quote(value: string): Option<string> {
    if '\0' in value then None
    else Some("\"" + Replace(Replace(value, '\\', "\\\\"), '"', "\\\"") + "\"")
  }

  datatype Literal = Literal(value: string, rest: string)

  /** The characters of a literal up to its closing quote; a backslash stands for the character after it. */
  function ReadInside(s: string): Option<Literal> {
    if s == "" then None
    else if s[0] == '"' then Some(Literal("", s[1..]))
    else if s[0] == '\\' && |s| == 1 then None
    else
      var (c, later) := if s[0] == '\\' then (s[1], s[2..]) else (s[0], s[1..]);
      var read := ReadInside(later);
      if read.None? then None else Some(Literal([c] + read.value.value, read.value.rest))
  }

  function ReadLiteral(s: string): Option<Literal> {
    if s == "" || s[0] != '"' then None else ReadInside(s[1..])
  }

  function Escaped(value: string): string {
    Replace(Replace(value, '\\', "\\\\"), '"', "\\\"")
  }

  lemma {:induction false} ReplaceAppends(s: string, t: string, c: char, text: string)
    ensures Replace(s + t, c, text) == Replace(s, c, text) + Replace(t, c, text)
  {
    if s == "" {
      assert s + t == t;
    } else {
      ReplaceAppends(s[1..], t, c, text);
      assert (s + t)[1..] == s[1..] + t;
      AppendAssociates(if s[0] == c then text else [s[0]], Replace(s[1..], c, text), Replace(t, c, text));
    }
  }

  /** The two replacements escape each character by itself. */
  lemma EscapedFirst(value: string)
    requires value != ""
    ensures Escaped(value)
         == (if value[0] == '\\' || value[0] == '"' then ['\\', value[0]] else [value[0]]) + Escaped(value[1..])
  {
    var first := if value[0] == '\\' then "\\\\" else [value[0]];
    ReplaceAppends(first, Replace(value[1..], '\\', "\\\\"), '"', "\\\"");
    assert first[1..] == if value[0] == '\\' then "\\" else "";
    assert "\\"[1..] == "";
  }

  lemma {:induction false} InsideRoundTrip(value: string, rest: string)
    ensures ReadInside(Escaped(value) + "\"" + rest) == Some(Literal(value, rest))
  {
    var s := Escaped(value) + "\"" + rest;
    if value == "" {
      assert s[1..] == rest;
    } else {
      EscapedFirst(value);
      InsideRoundTrip(value[1..], rest);
      var later := Escaped(value[1..]) + "\"" + rest;
      assert value == [value[0]] + value[1..];
      if value[0] == '\\' || value[0] == '"' {
        assert s[2..] == later;
      } else {
        assert s[1..] == later;
      }
    }
  }

  /** A literal is read back as exactly the value quoted, whatever follows it in the profile. */
  lemma QuoteRoundTrip(value: string, rest: string)
    ensures Quote(value).None? <==> '\0' in value
    ensures Quote(value).Some? ==> ReadLiteral(Quote(value).value + rest) == Some(Literal(value, rest))
  {
    if Quote(value).Some? {
      InsideRoundTrip(value, rest);
      assert (Quote(value).value + rest)[1..] == Escaped(value) + "\"" + rest;
    }
  }
}
