/** Qualified tool names: `mcp__<server>__<tool>`, printed and parsed. */
module Naming {
  import opened Wrappers

  const MCP_PREFIX := "mcp"
  const DELIM := "__"
  const MAX_QUALIFIED_LEN := 64

  predicate IsAlnum(c: char) {
    'a' <= c <= 'z' || 'A' <= c <= 'Z' || '0' <= c <= '9'
  }

  predicate Allowed(c: char) {
    IsAlnum(c) || c == '_' || c == '-'
  }

  predicate AllAllowed(s: string) {
    forall i :: 0 <= i < |s| ==> Allowed(s[i])
  }

  function Sanitize(s: string): (r: string)
    ensures |r| == |s| && AllAllowed(r)
    ensures AllAllowed(s) ==> r == s
  {
    seq(|s|, i requires 0 <= i < |s| => if Allowed(s[i]) then s[i] else '_')
  }

  /** Allowed characters stay, every other one becomes an underscore. */
  lemma SanitizedAt(s: string, i: nat)
    requires i < |s|
    ensures Allowed(s[i]) ==> Sanitize(s)[i] == s[i]
    ensures !Allowed(s[i]) ==> Sanitize(s)[i] == '_'
  {
  }

  /** A hash of the raw name, written as 40 hexadecimal digits. */
  ghost predicate IsHex(hash: string -> string) {
    forall s :: |hash(s)| == 40 && forall i :: 0 <= i < 40 ==> '0' <= hash(s)[i] <= '9' || 'a' <= hash(s)[i] <= 'f'
  }

  function Raw(server: string, tool: string): string {
    MCP_PREFIX + DELIM + server + DELIM + tool
  }

  function Take(s: string, n: nat): string {
    if n < |s| then s[..n] else s
  }

  function Qualify(server: string, tool: string, hash: string -> string): string {
    var raw := Raw(server, tool);
    var sanitized := Sanitize(raw);
    if |sanitized| <= MAX_QUALIFIED_LEN then sanitized
    else Take(sanitized, SaturatingSub(MAX_QUALIFIED_LEN, |hash(raw)|)) + hash(raw)
  }

  // ----- splitting -----

  /** Position of the first delimiter, if any. */
  function FindDelim(s: string): (r: Option<nat>)
    ensures r.Some? ==> r.value + 2 <= |s| && s[r.value..r.value + 2] == DELIM
  {
    if |s| < 2 then None
    else if s[..2] == DELIM then Some(0)
    else match FindDelim(s[1..])
      case None => None
      case Some(i) => assert s[i + 1..i + 3] == s[1..][i..i + 2]; Some(i + 1)
  }

  /** The parts between delimiters, left to right, as `str::split` yields them. */
  function Split(s: string): (parts: seq<string>)
    ensures parts != []
    decreases |s|
  {
    match FindDelim(s)
    case None => [s]
    case Some(i) => [s[..i]] + Split(s[i + 2..])
  }

  function Join(parts: seq<string>): string {
    if parts == [] then "" else if |parts| == 1 then parts[0] else parts[0] + DELIM + Join(parts[1..])
  }

  function SplitQualifiedName(qualified: string): Option<(string, string)> {
    var parts := Split(qualified);
    if parts[0] != MCP_PREFIX || |parts| < 2 then None
    else
      var tool := Join(parts[2..]);
      if tool == "" then None else Some((parts[1], tool))
  }

  /** Joining the parts again gives back the whole. */
  lemma {:induction false} JoinInvertsSplit(s: string)
    ensures Join(Split(s)) == s
    decreases |s|
  {
    if FindDelim(s).Some? {
      var i := FindDelim(s).value;
      JoinInvertsSplit(s[i + 2..]);
      JoinCons(s[..i], Split(s[i + 2..]));
      CutOut(s, i);
    }
  }

  lemma JoinCons(first: string, rest: seq<string>)
    requires rest != []
    ensures Join([first] + rest) == first + DELIM + Join(rest)
  {
    assert ([first] + rest)[1..] == rest;
  }

  lemma CutOut(s: string, i: nat)
    requires i + 2 <= |s| && s[i..i + 2] == DELIM
    ensures s == s[..i] + DELIM + s[i + 2..]
  {
    assert s == s[..i] + s[i..i + 2] + s[i + 2..];
  }

  predicate DelimAt(s: string, i: int) {
    0 <= i && i + 2 <= |s| && s[i] == '_' && s[i + 1] == '_'
  }

  ghost predicate HasDelim(s: string) {
    exists i :: DelimAt(s, i)
  }

  predicate EndsInUnderscore(s: string) {
    s != "" && s[|s| - 1] == '_'
  }

  lemma {:induction false} FindDelimIsFirst(s: string)
    ensures match FindDelim(s)
            case None => !HasDelim(s)
            case Some(i) => DelimAt(s, i) && forall j :: 0 <= j < i ==> !DelimAt(s, j)
  {
    if |s| >= 2 && s[..2] != DELIM {
      assert !DelimAt(s, 0) by { assert s[..2] == [s[0], s[1]]; }
      FindDelimIsFirst(s[1..]);
      forall j | DelimAt(s, j) ensures j > 0 && DelimAt(s[1..], j - 1) {}
      forall j | DelimAt(s[1..], j) ensures DelimAt(s, j + 1) {}
    }
  }

  lemma FirstDelim(s: string, i: nat)
    requires DelimAt(s, i) && forall j :: 0 <= j < i ==> !DelimAt(s, j)
    ensures FindDelim(s) == Some(i)
  {
    FindDelimIsFirst(s);
    assert HasDelim(s);
  }

  lemma SplitHead(s: string, i: nat)
    requires DelimAt(s, i) && forall j :: 0 <= j < i ==> !DelimAt(s, j)
    ensures Split(s) == [s[..i]] + Split(s[i + 2..])
  {
    FirstDelim(s, i);
  }

  // ----- what a qualified name is -----

  /** At most 64 characters, all of them allowed. */
  lemma QualifiedIsBounded(server: string, tool: string, hash: string -> string)
    requires IsHex(hash)
    ensures var q := Qualify(server, tool, hash); |q| <= MAX_QUALIFIED_LEN && AllAllowed(q)
  {
    assert |hash(Raw(server, tool))| == 40;
  }

  predicate Fits(server: string, tool: string) {
    |Raw(server, tool)| <= MAX_QUALIFIED_LEN
  }

  lemma SanitizedRaw(server: string, tool: string)
    ensures Sanitize(Raw(server, tool)) == Raw(Sanitize(server), Sanitize(tool))
  {
    var raw, clean := Raw(server, tool), Raw(Sanitize(server), Sanitize(tool));
    assert |raw| == |clean|;
    forall i | 0 <= i < |raw| ensures Sanitize(raw)[i] == clean[i] {}
  }

  lemma PrefixSplits(rest: string)
    ensures Split(MCP_PREFIX + DELIM + rest) == [MCP_PREFIX] + Split(rest)
  {
    var s := MCP_PREFIX + DELIM + rest;
    assert s[0] == 'm' && s[1] == 'c' && s[2] == 'p' && s[3] == '_' && s[4] == '_';
    SplitHead(s, 3);
    assert s[..3] == MCP_PREFIX && s[5..] == rest;
  }

  lemma RawSplits(server: string, tool: string)
    ensures Split(Raw(server, tool)) == [MCP_PREFIX] + Split(server + DELIM + tool)
  {
    PrefixSplits(server + DELIM + tool);
    assert Raw(server, tool) == MCP_PREFIX + DELIM + (server + DELIM + tool);
  }

  /** Before the end of the server, a delimiter is the server's own or made with its last underscore. */
  lemma DelimWithinServer(server: string, tool: string, j: int)
    requires DelimAt(server + DELIM + tool, j) && j < |server|
    ensures DelimAt(server, j) || (j == |server| - 1 && EndsInUnderscore(server))
  {
    var s := server + DELIM + tool;
    assert s[j] == server[j] && (j + 1 < |server| ==> s[j + 1] == server[j + 1]);
  }

  lemma FirstPart(s: string, i: nat)
    requires DelimAt(s, i)
    ensures FindDelim(s).Some? && FindDelim(s).value <= i && Split(s)[0] == s[..FindDelim(s).value]
  {
    FindDelimIsFirst(s);
    assert HasDelim(s);
  }

  /** A delimiter in the server, or one its last underscore makes, cuts it short. */
  lemma ServerCutShort(server: string, tool: string, j: nat)
    requires j < |server| && DelimAt(server + DELIM + tool, j)
    ensures |Split(server + DELIM + tool)[0]| < |server|
  {
    FirstPart(server + DELIM + tool, j);
  }

  lemma ServerUncut(server: string, tool: string)
    requires !HasDelim(server) && !EndsInUnderscore(server)
    ensures Split(server + DELIM + tool) == [server] + Split(tool)
  {
    var s, n := server + DELIM + tool, |server|;
    forall j | 0 <= j < n ensures !DelimAt(s, j) {
      if DelimAt(s, j) { DelimWithinServer(server, tool, j); }
    }
    SplitHead(s, n);
    assert s[..n] == server && s[n + 2..] == tool;
  }

  /** The server ends where the first delimiter begins: at its own end, unless it contains one or runs into one. */
  lemma ServerIsFirstPart(server: string, tool: string)
    ensures Split(server + DELIM + tool)[0] == server <==> !HasDelim(server) && !EndsInUnderscore(server)
    ensures !HasDelim(server) && !EndsInUnderscore(server) ==> Split(server + DELIM + tool) == [server] + Split(tool)
  {
    if HasDelim(server) {
      var j :| DelimAt(server, j);
      ServerCutShort(server, tool, j);
    } else if EndsInUnderscore(server) {
      ServerCutShort(server, tool, |server| - 1);
    } else {
      ServerUncut(server, tool);
    }
  }

  /**
   The printer and the parser: an untruncated name parses back to the sanitized server and
   tool exactly when the tool is not empty and the sanitized server neither contains a
   double underscore nor ends in an underscore. The tool may contain what it likes.
   */
  lemma RoundTrip(server: string, tool: string, hash: string -> string)
    requires Fits(server, tool)
    ensures SplitQualifiedName(Qualify(server, tool, hash)) == Some((Sanitize(server), Sanitize(tool))) <==>
            tool != "" && !HasDelim(Sanitize(server)) && !EndsInUnderscore(Sanitize(server))
  {
    SanitizedRaw(server, tool);
    RawRoundTrip(Sanitize(server), Sanitize(tool));
  }

  /** The parser on a list of parts. */
  function FromParts(parts: seq<string>): Option<(string, string)>
    requires parts != []
  {
    if parts[0] != MCP_PREFIX || |parts| < 2 then None
    else if Join(parts[2..]) == "" then None else Some((parts[1], Join(parts[2..])))
  }

  lemma FromThree(rest: seq<string>, server: string, tool: string)
    requires rest != [] && (rest[0] == server ==> rest[1..] == Split(tool))
    ensures FromParts([MCP_PREFIX] + rest) == Some((server, tool)) <==> rest[0] == server && tool != ""
  {
    var parts := [MCP_PREFIX] + rest;
    assert parts[0] == MCP_PREFIX && parts[1] == rest[0] && parts[2..] == rest[1..];
    JoinInvertsSplit(tool);
  }

  lemma RawRoundTrip(server: string, tool: string)
    ensures SplitQualifiedName(Raw(server, tool)) == Some((server, tool)) <==>
            tool != "" && !HasDelim(server) && !EndsInUnderscore(server)
  {
    RawSplits(server, tool);
    ServerIsFirstPart(server, tool);
    var rest := Split(server + DELIM + tool);
    assert SplitQualifiedName(Raw(server, tool)) == FromParts([MCP_PREFIX] + rest);
    if rest[0] == server { assert ([server] + Split(tool))[1..] == Split(tool); }
    FromThree(rest, server, tool);
  }

  /**
   The parser, on any string: it yields a server and a tool exactly for the one spelling
   that joins them, with a tool, and a server that neither contains nor runs into the
   delimiter.
   */
  lemma ParsesExactly(q: string, server: string, tool: string)
    ensures SplitQualifiedName(q) == Some((server, tool)) <==>
            q == "mcp__" + server + "__" + tool && tool != "" && !HasDelim(server) && !EndsInUnderscore(server)
  {
    RawRoundTrip(server, tool);
    assert Raw(server, tool) == "mcp__" + server + "__" + tool;
    if SplitQualifiedName(q).Some? { ParsedIsRaw(q); }
  }

  lemma ParsedIsRaw(q: string)
    requires SplitQualifiedName(q).Some?
    ensures q == Raw(SplitQualifiedName(q).value.0, SplitQualifiedName(q).value.1)
  {
    var parts := Split(q);
    JoinInvertsSplit(q);
    assert parts[2..] != [];
    assert parts == [parts[0]] + ([parts[1]] + parts[2..]);
    JoinCons(parts[0], [parts[1]] + parts[2..]);
    JoinCons(parts[1], parts[2..]);
    Reassociated(parts[1], Join(parts[2..]));
  }

  lemma Reassociated(server: string, tool: string)
    ensures MCP_PREFIX + DELIM + (server + DELIM + tool) == Raw(server, tool)
  {
  }

  predicate StartsWith(s: string, prefix: string) {
    |prefix| <= |s| && s[..|prefix|] == prefix
  }

  /** What a qualified name is documented to start with. */
  function ServerPrefix(server: string): string {
    MCP_PREFIX + DELIM + Sanitize(server) + DELIM
  }

  lemma TruncatedParts(server: string, tool: string, hash: string -> string)
    requires IsHex(hash) && !Fits(server, tool)
    ensures var q := Qualify(server, tool, hash);
            |q| == MAX_QUALIFIED_LEN && q[24..] == hash(Raw(server, tool)) &&
            q[..24] == Raw(Sanitize(server), Sanitize(tool))[..24]
  {
    SanitizedRaw(server, tool);
    assert |hash(Raw(server, tool))| == 40;
  }

  lemma RawStartsWithServer(server: string, tool: string)
    ensures var raw, prefix := Raw(server, tool), MCP_PREFIX + DELIM + server + DELIM;
            |prefix| <= |raw| && raw[..|prefix|] == prefix
  {
  }

  /** Past 17 characters of server the closing underscore would have to be a digit of the hash. */
  lemma LongServerLosesPrefix(server: string, tool: string, hash: string -> string)
    requires IsHex(hash) && !Fits(server, tool) && |server| > 17
    ensures !StartsWith(Qualify(server, tool, hash), ServerPrefix(server))
  {
    TruncatedParts(server, tool, hash);
    var q, prefix := Qualify(server, tool, hash), ServerPrefix(server);
    var last := |prefix| - 1;
    assert prefix[last] == '_';
    if |prefix| <= |q| {
      assert q[24..][last - 24] == q[last];
      assert q[..|prefix|][last] == q[last] != '_';
    }
  }

  lemma ShortServerKeepsPrefix(server: string, tool: string, hash: string -> string)
    requires IsHex(hash) && !Fits(server, tool) && |server| <= 17
    ensures StartsWith(Qualify(server, tool, hash), ServerPrefix(server))
  {
    TruncatedParts(server, tool, hash);
    var q, prefix, raw := Qualify(server, tool, hash), ServerPrefix(server), Raw(Sanitize(server), Sanitize(tool));
    RawStartsWithServer(Sanitize(server), Sanitize(tool));
    assert q[..24][..|prefix|] == q[..|prefix|] && raw[..24][..|prefix|] == raw[..|prefix|];
  }

  /**
   A qualified name starts with `mcp__<server>__` exactly when it was not truncated or the
   server has at most 17 characters.
   */
  lemma NamesItsServer(server: string, tool: string, hash: string -> string)
    requires IsHex(hash)
    ensures StartsWith(Qualify(server, tool, hash), ServerPrefix(server)) <==> Fits(server, tool) || |server| <= 17
  {
    if Fits(server, tool) {
      SanitizedRaw(server, tool);
      RawStartsWithServer(Sanitize(server), Sanitize(tool));
    } else if |server| <= 17 {
      ShortServerKeepsPrefix(server, tool, hash);
    } else {
      LongServerLosesPrefix(server, tool, hash);
    }
  }

  const LONG_SERVER := "continuous_integration"
  const LONG_TOOL := "list_failed_workflow_runs_for_repository"

  /** An ordinary pair whose qualified name does not name its server. */
  lemma LostServerName(hash: string -> string)
    requires IsHex(hash)
    ensures !StartsWith(Qualify(LONG_SERVER, LONG_TOOL, hash), ServerPrefix(LONG_SERVER))
  {
    assert |LONG_SERVER| == 22 && |LONG_TOOL| == 40;
    NamesItsServer(LONG_SERVER, LONG_TOOL, hash);
  }
}
