/** One piece of a dotted path, as main4.py, main7.py, main8.py and main11.py read
    it with `re.match(r"(\w+)(?:\[(\d+)\])?", piece)`: a leading run of word
    characters, then optionally `[digits]`. Whatever follows is ignored. */
module PathToken {
  import opened PyValues

  datatype Token = Token(name: string, index: Option<nat>)

  /** Length of the run of word characters at the start of `s`. */
  function WordRun(s: string): (k: nat)
    ensures k <= |s|
    ensures forall i :: 0 <= i < k ==> IsWordChar(s[i])
    ensures k < |s| ==> !IsWordChar(s[k])
  {
    if s != [] && IsWordChar(s[0]) then 1 + WordRun(s[1..]) else 0
  }

  /** The `[digits]` suffix right after the name, if there is one. */
  function BracketIndex(rest: string): Option<nat> {
    if rest != [] && rest[0] == '[' then
      var d := DigitRun(rest[1..]);
      if d > 0 && d + 1 < |rest| && rest[d + 1] == ']' then
        assert rest[1..d + 1] == rest[1..][..d];
        Some(DigitsValue(rest[1..d + 1]))
      else None
    else None
  }

  /** `re.match(r"(\w+)(?:\[(\d+)\])?", piece)`: `None` when the piece does not
      start with a word character (the builders then skip the piece). */
  function MatchToken(piece: string): (r: Option<Token>)
    ensures r.Some? <==> piece != [] && IsWordChar(piece[0])
    ensures r.Some? ==> r.value.name != [] && |r.value.name| <= |piece| && r.value.name == piece[..|r.value.name|]
    ensures r.Some? ==> forall i :: 0 <= i < |r.value.name| ==> IsWordChar(r.value.name[i])
    ensures r.Some? && |r.value.name| < |piece| ==> !IsWordChar(piece[|r.value.name|])
  {
    var k := WordRun(piece);
    if k == 0 then None else Some(Token(piece[..k], BracketIndex(piece[k..])))
  }

  /** The text a token is written as: `name` or `name[j]`. */
  function TokenText(t: Token): string {
    match t.index
    case None => t.name
    case Some(j) => t.name + "[" + NatToDecimal(j) + "]"
  }

  lemma WordRunOfWord(w: string, rest: string)
    requires forall i :: 0 <= i < |w| ==> IsWordChar(w[i])
    requires rest == [] || !IsWordChar(rest[0])
    ensures WordRun(w + rest) == |w|
  {
    if rest != [] {
      assert (w + rest)[|w|] == rest[0];
    }
  }

  /** The bracket suffix written for index `j` reads back as `j`. */
  lemma BracketIndexOf(j: nat)
    ensures BracketIndex("[" + NatToDecimal(j) + "]") == Some(j)
  {
    var digits := NatToDecimal(j);
    var rest := "[" + digits + "]";
    var tail := rest[1..];
    assert tail == digits + "]";
    assert forall i :: 0 <= i < |digits| ==> tail[i] == digits[i];
    assert tail[|digits|] == ']';
    var d := DigitRun(tail);
    assert d == |digits|;
    assert rest[1..d + 1] == digits;
  }

  /** Reading back a written token gives the token: the name is the longest word
      prefix and the index is the bracketed number. */
  lemma TokenRoundTrip(t: Token)
    requires t.name != [] && forall i :: 0 <= i < |t.name| ==> IsWordChar(t.name[i])
    ensures MatchToken(TokenText(t)) == Some(t)
  {
    var s := TokenText(t);
    match t.index
    case None =>
      WordRunOfWord(t.name, []);
      assert t.name + [] == t.name;
    case Some(j) =>
      var rest := "[" + NatToDecimal(j) + "]";
      assert s == t.name + rest;
      WordRunOfWord(t.name, rest);
      assert s[|t.name|..] == rest;
      assert s[..|t.name|] == t.name;
      BracketIndexOf(j);
  }

  /** Some piece of the path matches the token pattern. */
  predicate AnyMatch(parts: seq<string>) {
    parts != [] && (MatchToken(parts[0]).Some? || AnyMatch(parts[1..]))
  }

  /** The first piece that matches, which names the only key of the dict the
      walk may change. */
  function FirstToken(parts: seq<string>): (r: Option<Token>)
    ensures r.Some? <==> AnyMatch(parts)
    decreases |parts|
  {
    if parts == [] then None
    else match MatchToken(parts[0])
      case None => FirstToken(parts[1..])
      case Some(tok) => Some(tok)
  }
}
