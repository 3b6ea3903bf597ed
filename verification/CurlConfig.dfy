/** The configuration `doctor` writes to curl's standard input: a credential is
    quoted into it, and what curl reads back is that credential and nothing else. */
module CurlConfig {
  import opened Common
  import opened Text
  import opened DoctorReport

  // `str::replace` of one character.
  function Replace(s: string, c: char, to: string): string {
    if s == "" then ""
    else (if s[0] == c then to else [s[0]]) + Replace(s[1..], c, to)
  }

  // `curl_quote`: two replacements in a row, or a refusal.
  function CurlQuote(value: string): Option<string> {
    if HasControl(value) then None
    else Some(Replace(Replace(value, '\\', "\\\\"), '"', "\\\""))
  }

  // One pass: a backslash before each backslash and each quote.
  function Escape(value: string): string {
    if value == "" then ""
    else (if value[0] == '\\' || value[0] == '"' then ['\\', value[0]] else [value[0]]) + Escape(value[1..])
  }

  // What a character means after a backslash inside a quoted value.
  function Meaning(c: char): char {
    if c == 't' then '\t'
    else if c == 'n' then '\n'
    else if c == 'r' then '\r'
    else if c == 'v' then 11 as char
    else c
  }

  // Reading a quoted value, past its opening quote: the value, and what is
  // left of the line after the closing one.
  function ReadQuoted(s: string): Option<(string, string)> {
    if s == "" then None
    else if s[0] == '"' then Some(("", s[1..]))
    else
      var escaped := s[0] == '\\' && |s| > 1;
      match ReadQuoted(s[if escaped then 2 else 1..])
      case None => None
      case Some((value, left)) => Some(([if escaped then Meaning(s[1]) else s[0]] + value, left))
  }

  // The value a line sets, and what follows its closing quote.
  function ReadLine(line: string): Option<(string, string)> {
    match SplitOnce(line, '"')
    case None => None
    case Some((_, rest)) => ReadQuoted(rest)
  }

  lemma {:induction false} ReplaceJoins(a: string, b: string, c: char, to: string)
    ensures Replace(a + b, c, to) == Replace(a, c, to) + Replace(b, c, to)
  {
    if a == "" {
      assert a + b == b;
    } else {
      assert (a + b)[1..] == a[1..] + b;
      ReplaceJoins(a[1..], b, c, to);
    }
  }

  lemma ReplaceShort(a: char, b: char, c: char, to: string)
    ensures Replace([a], c, to) == if a == c then to else [a]
    ensures a != c && b != c ==> Replace([a, b], c, to) == [a, b]
  {
    assert [a][1..] == [] && [a, b][1..] == [b];
    assert Replace([b], c, to) == if b == c then to else [b];
  }

  // Backslashes first and quotes second is the one pass; the other order
  // would escape its own backslashes.
  lemma {:induction false} TwoPasses(value: string)
    ensures Replace(Replace(value, '\\', "\\\\"), '"', "\\\"") == Escape(value)
  {
    if value != "" {
      var c, once := value[0], Replace(value[1..], '\\', "\\\\");
      var first: string := if c == '\\' then "\\\\" else [c];
      TwoPasses(value[1..]);
      ReplaceJoins(first, once, '"', "\\\"");
      ReplaceShort(c, c, '"', "\\\"");
      ReplaceShort('\\', '\\', '"', "\\\"");
    }
  }

  lemma OtherOrderBreaks()
    ensures Replace(Replace("\"", '"', "\\\""), '\\', "\\\\") != Escape("\"")
  {
    ReplaceShort('"', '"', '"', "\\\"");
    assert Replace("\\\"", '\\', "\\\\")[0..2] == "\\\\" by {
      assert "\\\""[1..] == "\"";
    }
    assert Escape("\"") == "\\\"" by {
      assert "\""[1..] == "";
    }
    assert Replace("\\\"", '\\', "\\\\")[1] == '\\' && Escape("\"")[1] == '"';
  }

  lemma ReadOne(c: char, rest: string, value: string, left: string)
    requires ReadQuoted(rest) == Some((value, left))
    ensures ReadQuoted((if c == '\\' || c == '"' then ['\\', c] else [c]) + rest) == Some(([c] + value, left))
  {
    if c == '\\' || c == '"' {
      assert (['\\', c] + rest)[2..] == rest;
    } else {
      assert ([c] + rest)[1..] == rest;
    }
  }

  lemma ReadEnd(left: string)
    ensures ReadQuoted(['"'] + left) == Some(("", left))
  {
    assert (['"'] + left)[1..] == left;
  }

  lemma {:induction false} EscapeReads(value: string, tail: string)
    ensures ReadQuoted(Escape(value) + ['"'] + tail) == Some((value, tail))
  {
    hide ReadQuoted;
    if value == "" {
      ReadEnd(tail);
      assert Escape(value) + ['"'] + tail == ['"'] + tail;
    } else {
      var c, rest := value[0], Escape(value[1..]) + ['"'] + tail;
      var first: string := if c == '\\' || c == '"' then ['\\', c] else [c];
      EscapeReads(value[1..], tail);
      ReadOne(c, rest, value[1..], tail);
      assert Escape(value) + ['"'] + tail == first + rest;
      assert value == [c] + value[1..];
    }
  }

  // Any credential that is quoted at all is read back as it was, and the value
  // ends at the closing quote the writer put there and no sooner.
  lemma QuoteRoundTrip(value: string, tail: string)
    requires CurlQuote(value).Some?
    ensures ReadQuoted(CurlQuote(value).value + ['"'] + tail) == Some((value, tail))
  {
    TwoPasses(value);
    EscapeReads(value, tail);
  }

  // A credential is quoted, as one escaping pass, exactly when it has no control
  // character.
  lemma QuotedExactly(value: string, quoted: string)
    ensures CurlQuote(value) == Some(quoted) <==>
      quoted == Escape(value) && forall c :: c in value ==> 32 <= c as int < 127 || 160 <= c as int
  {
    TwoPasses(value);
    hide Replace, Escape;
  }

  lemma {:induction false} EscapeKeepsLines(value: string)
    requires !HasControl(value)
    ensures '\n' !in Escape(value)
  {
    if value != "" {
      assert forall c :: c in value[1..] ==> c in value;
      assert IsControl('\n') && value[0] in value;
      EscapeKeepsLines(value[1..]);
    }
  }

  lemma {:induction false} PlainPrefix(prefix: string, value: string)
    requires '"' !in prefix && '\\' !in prefix
    ensures Escape(prefix + value) == prefix + Escape(value)
  {
    if prefix == "" {
      assert prefix + value == value;
    } else {
      assert (prefix + value)[1..] == prefix[1..] + value;
      PlainPrefix(prefix[1..], value);
    }
  }

  function Directive(name: string, prefix: string, quoted: string): string {
    name + ['"'] + (prefix + quoted + ['"'])
  }

  // Whatever the credential, the file has the lines its writer meant and no
  // more, and the line that holds it reads back as the prefix and the credential.
  lemma OneDirectiveEach(before: seq<string>, after: seq<string>, name: string, prefix: string, value: string)
    requires CurlQuote(value).Some?
    requires forall line :: line in before + after ==> '\n' !in line
    requires '\n' !in name && '"' !in name && '\n' !in prefix && '"' !in prefix && '\\' !in prefix
    ensures var line := Directive(name, prefix, CurlQuote(value).value);
      && Split(Join(before + [line] + after, '\n'), '\n') == before + [line] + after
      && ReadLine(line) == Some((prefix + value, ""))
  {
    var quoted := CurlQuote(value).value;
    var line := Directive(name, prefix, quoted);
    TwoPasses(value);
    EscapeKeepsLines(value);
    assert '\n' !in line;
    SplitJoin(before + [line] + after, '\n');
    hide SplitOnce;
    PlainPrefix(prefix, value);
    EscapeReads(prefix + value, "");
    assert prefix + quoted + ['"'] == Escape(prefix + value) + ['"'] + "";
    QuoteSplits(name, prefix + quoted + ['"']);
  }

  lemma QuoteSplits(name: string, rest: string)
    requires '"' !in name
    ensures SplitOnce(name + ['"'] + rest, '"') == Some((name, rest))
  {
    FirstIndex(name, '"', rest);
  }
}
