// The string operations of Rust's `str` that the parsers are built from.

module Text {
  import opened Common

  predicate IsSpace(c: char) { c == ' ' || '\t' <= c <= '\r' }

  // `str::trim`, for the ASCII white space.
  function Trim(s: string): string
    decreases |s|
  {
    if s == "" then ""
    else if IsSpace(s[0]) then Trim(s[1..])
    else if IsSpace(s[|s| - 1]) then Trim(s[..|s| - 1])
    else s
  }

  // Nothing to trim and something left.
  predicate Trimmed(s: string) {
    s != "" && !IsSpace(s[0]) && !IsSpace(s[|s| - 1])
  }

  // `str::split` on one character: the pieces between its occurrences.
  function Split(s: string, sep: char): (pieces: seq<string>)
    ensures pieces != []
    decreases |s|
  {
    if sep !in s then [s]
    else
      var i := IndexOf(s, sep);
      [s[..i]] + Split(s[i + 1..], sep)
  }

  // `str::find` of a character that is there.
  function IndexOf(s: string, c: char): (i: nat)
    requires c in s
    ensures i < |s| && s[i] == c && c !in s[..i]
    decreases |s|
  {
    if s[0] == c then 0
    else
      var i := IndexOf(s[1..], c);
      assert s[..i + 1] == [s[0]] + s[1..][..i];
      i + 1
  }

  // `str::split_once` on one character.
  function SplitOnce(s: string, sep: char): Option<(string, string)> {
    if sep !in s then None
    else
      var i := IndexOf(s, sep);
      Some((s[..i], s[i + 1..]))
  }

  // The pieces joined back with a separator.
  function Join(pieces: seq<string>, sep: char): string {
    if pieces == [] then ""
    else if |pieces| == 1 then pieces[0]
    else pieces[0] + [sep] + Join(pieces[1..], sep)
  }

  lemma FirstIndex(left: string, sep: char, right: string)
    requires sep !in left
    ensures var s := left + [sep] + right;
      sep in s && IndexOf(s, sep) == |left| && s[..|left|] == left && s[|left| + 1..] == right
  {
    var s := left + [sep] + right;
    assert s[|left|] == sep;
    assert forall k :: 0 <= k < |left| ==> s[k] == left[k];
    assert forall k :: |left| < k <= |s| ==> s[|left|] in s[..k];
  }

  lemma {:induction false} SplitJoin(pieces: seq<string>, sep: char)
    requires pieces != []
    requires forall p :: p in pieces ==> sep !in p
    ensures Split(Join(pieces, sep), sep) == pieces
  {
    if |pieces| == 1 {
      assert pieces == [pieces[0]];
    } else {
      FirstIndex(pieces[0], sep, Join(pieces[1..], sep));
      SplitJoin(pieces[1..], sep);
    }
  }

  // `split(',').map(trim).filter(non-empty)`.
  function NonBlank(pieces: seq<string>): seq<string> {
    if pieces == [] then []
    else (if Trim(pieces[0]) == "" then [] else [Trim(pieces[0])]) + NonBlank(pieces[1..])
  }

  function Entries(raw: string): seq<string> {
    NonBlank(Split(raw, ','))
  }

  lemma {:induction false} NonBlankTrimmed(pieces: seq<string>)
    requires forall p :: p in pieces ==> Trimmed(p)
    ensures NonBlank(pieces) == pieces
  {
    if pieces != [] {
      assert Trimmed(pieces[0]);
      NonBlankTrimmed(pieces[1..]);
    }
  }

  lemma EntriesOfJoin(pieces: seq<string>)
    requires forall p :: p in pieces ==> Trimmed(p) && ',' !in p
    ensures Entries(Join(pieces, ',')) == pieces
  {
    if pieces == [] {
      assert Split("", ',') == [""];
      assert NonBlank([""]) == [];
    } else {
      SplitJoin(pieces, ',');
      NonBlankTrimmed(pieces);
    }
  }

  // The text splits at its first separator and nowhere else.
  lemma SplitIs(s: string, sep: char)
    ensures SplitOnce(s, sep).None? <==> sep !in s
    ensures SplitOnce(s, sep).Some? ==>
      var (left, right) := SplitOnce(s, sep).value;
      s == left + [sep] + right && sep !in left
  {
  }

  lemma SplitBack(left: string, sep: char, right: string)
    requires sep !in left
    ensures SplitOnce(left + [sep] + right, sep) == Some((left, right))
  {
    FirstIndex(left, sep, right);
  }

  // The text up to the first colon, up to the second, and all the rest.
  predicate ThreeParts(entry: string, first: string, second: string, rest: string) {
    entry == first + [':'] + (second + [':'] + rest) && ':' !in first && ':' !in second
  }

  // ------------------------------------------------------------------
  // What trimming and splitting leave
  // ------------------------------------------------------------------

  predicate Blank(s: string) {
    forall c :: c in s ==> IsSpace(c)
  }

  // Space, tab, line feed, vertical tab, form feed and carriage return.
  lemma SpaceMeans(c: char)
    ensures IsSpace(c) <==> c as int == 32 || 9 <= c as int <= 13
  {
  }

  // White space goes from both ends and nothing else goes.
  predicate TrimsTo(s: string, left: string, t: string, right: string) {
    s == left + t + right && Blank(left) && Blank(right) && (t == "" || Trimmed(t))
  }

  lemma {:induction false} TrimMeans(s: string) returns (left: string, right: string)
    ensures TrimsTo(s, left, Trim(s), right)
    decreases |s|
  {
    left, right := "", "";
    if s != "" && IsSpace(s[0]) {
      left, right := TrimMeans(s[1..]);
      assert s == [s[0]] + s[1..];
      left := [s[0]] + left;
    } else if s != "" && IsSpace(s[|s| - 1]) {
      left, right := TrimMeans(s[..|s| - 1]);
      assert s == s[..|s| - 1] + [s[|s| - 1]];
      right := right + [s[|s| - 1]];
    }
  }

  // Splitting loses nothing but the separators; with SplitJoin, the pieces are
  // the only such list.
  lemma {:induction false} SplitMeans(s: string, sep: char)
    ensures Join(Split(s, sep), sep) == s
    ensures forall p :: p in Split(s, sep) ==> sep !in p
    decreases |s|
  {
    if sep in s {
      var i := IndexOf(s, sep);
      SplitMeans(s[i + 1..], sep);
      assert s == s[..i] + [sep] + s[i + 1..];
      assert Split(s, sep)[1..] == Split(s[i + 1..], sep);
    }
  }

  // A piece is an entry exactly when something is left of it, and pieces are
  // read one by one, in order.
  lemma {:induction false} EntriesMean(before: seq<string>, piece: string, after: seq<string>)
    ensures NonBlank(before + [piece] + after)
         == NonBlank(before) + (if Blank(piece) then [] else [Trim(piece)]) + NonBlank(after)
  {
    hide Trim, Blank;
    var pieces := before + [piece] + after;
    if before == [] {
      BlankMeans(piece);
      assert pieces[0] == piece && pieces[1..] == after;
    } else {
      EntriesMean(before[1..], piece, after);
      assert pieces[0] == before[0] && pieces[1..] == before[1..] + [piece] + after;
    }
  }

  lemma BlankMeans(s: string)
    ensures Trim(s) == "" <==> Blank(s)
  {
    var left, right := TrimMeans(s);
    hide Trim;
    assert Trim(s) != "" ==> s[|left|] == Trim(s)[0];
  }

  // A printed list has nothing to trim.
  lemma {:induction false} JoinTrimmed(pieces: seq<string>, sep: char)
    requires pieces != [] && forall p :: p in pieces ==> Trimmed(p)
    ensures Trimmed(Join(pieces, sep))
  {
    assert Trimmed(pieces[0]);
    if |pieces| > 1 {
      JoinTrimmed(pieces[1..], sep);
    }
  }
}
