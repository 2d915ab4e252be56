/**
 Experiments: the operator's scenario for the final observation.  Normalization trims the name, fills
 in defaults and refuses anything outside the supported symbols and ranges.
 */
module Experiments {
  import opened Base

  // `shocks` is None for an experiment that names no shock map at all.
  datatype Experiment = Experiment(name: string, shocks: Option<map<string, int>>, threshold: int)

  datatype ExperimentError = BadName | BadThreshold | BadSymbol | BadShock

  // ---------- Names ----------

  // Unicode white space.
  predicate IsSpace(c: char) {
    var u := c as int;
    || 0x9 <= u <= 0xd || u == 0x20 || u == 0x85 || u == 0xa0 || u == 0x1680
    || 0x2000 <= u <= 0x200a || u == 0x2028 || u == 0x2029 || u == 0x202f || u == 0x205f || u == 0x3000
  }

  function TrimLeft(s: string): string {
    if s != [] && IsSpace(s[0]) then TrimLeft(s[1..]) else s
  }

  function TrimRight(s: string): string {
    if s != [] && IsSpace(s[|s| - 1]) then TrimRight(s[..|s| - 1]) else s
  }

  function Trim(s: string): string {
    TrimRight(TrimLeft(s))
  }

  ghost predicate Blank(s: string) {
    forall c :: c in s ==> IsSpace(c)
  }

  ghost predicate Tight(s: string) {
    s == [] || (!IsSpace(s[0]) && !IsSpace(s[|s| - 1]))
  }

  // The length of a character in UTF-8.
  function Utf8Length(c: char): nat {
    var u := c as int;
    if u < 0x80 then 1 else if u < 0x800 then 2 else if u < 0x10000 then 3 else 4
  }

  function ByteLength(s: string): nat {
    if s == [] then 0 else Utf8Length(s[0]) + ByteLength(s[1..])
  }

  predicate OneLine(s: string) {
    '\r' !in s && '\n' !in s && '\t' !in s
  }

  // ---------- Normal form ----------

  function Normal(e: Experiment): Experiment {
    var name := Trim(e.name);
    Experiment(if name == "" then "Baseline" else name,
               if e.shocks.None? then Some(map[]) else e.shocks,
               if e.threshold == 0 then 100 else e.threshold)
  }

  predicate AllowedShock(symbol: string, bps: int) {
    Supported(symbol) && -5000 <= bps <= 5000
  }

  predicate GoodName(name: string) {
    ByteLength(name) <= 60 && OneLine(name)
  }

  predicate Supported(symbol: string) {
    symbol == "AAPL" || symbol == "MSFT"
  }

  // The first check that refuses an experiment; the shocks are checked in any order.
  ghost predicate Refuses(e: Experiment, error: ExperimentError) {
    var n := Normal(e);
    match error
    case BadName => !GoodName(n.name)
    case BadThreshold => GoodName(n.name) && !(1 <= n.threshold <= 5000)
    case BadSymbol =>
      && GoodName(n.name) && 1 <= n.threshold <= 5000
      && exists symbol :: symbol in n.shocks.value && !Supported(symbol)
    case BadShock =>
      && GoodName(n.name) && 1 <= n.threshold <= 5000
      && exists symbol :: symbol in n.shocks.value && Supported(symbol) && !(-5000 <= n.shocks.value[symbol] <= 5000)
  }

  ghost predicate Normalizable(e: Experiment) {
    var n := Normal(e);
    && GoodName(n.name)
    && 1 <= n.threshold <= 5000
    && forall symbol :: symbol in n.shocks.value ==> AllowedShock(symbol, n.shocks.value[symbol])
  }

  ghost predicate IsNormal(e: Experiment) {
    Normalizable(e) && Normal(e) == e
  }

  // The shock of a symbol in basis points; a symbol that is not named is not shocked.
  function ShockOf(e: Experiment, symbol: string): int {
    if e.shocks.Some? && symbol in e.shocks.value then e.shocks.value[symbol] else 0
  }

  method NormalizeExperiment(input: Experiment) returns (r: Result<Experiment, ExperimentError>)
    ensures r.Ok? <==> Normalizable(input)
    ensures r.Ok? ==> r.value == Normal(input)
    ensures r.Ok? ==>
      && r.value.name == (if Trim(input.name) == "" then "Baseline" else Trim(input.name))
      && r.value.threshold == (if input.threshold == 0 then 100 else input.threshold)
      && r.value.shocks == if input.shocks == None then Some(map[]) else input.shocks
    ensures r.Err? ==> Refuses(input, r.error)
  {
    var e := input;
    e := e.(name := Trim(e.name));
    if e.name == "" {
      e := e.(name := "Baseline");
    }
    if ByteLength(e.name) > 60 || !OneLine(e.name) {
      return Err(BadName);
    }
    if e.threshold == 0 {
      e := e.(threshold := 100);
    }
    if e.threshold < 1 || e.threshold > 5000 {
      return Err(BadThreshold);
    }
    if e.shocks.None? {
      e := e.(shocks := Some(map[]));
    }
    var shocks := e.shocks.value;
    var pending := shocks.Keys;
    while pending != {}
      invariant pending <= shocks.Keys
      invariant forall symbol :: symbol in shocks && symbol !in pending ==> AllowedShock(symbol, shocks[symbol])
      decreases pending
    {
      var symbol :| symbol in pending;
      if symbol != "AAPL" && symbol != "MSFT" {
        return Err(BadSymbol);
      }
      if shocks[symbol] < -5000 || shocks[symbol] > 5000 {
        return Err(BadShock);
      }
      pending := pending - {symbol};
    }
    return Ok(e);
  }

  // ---------- Laws ----------

  // An experiment is accepted exactly when its trimmed name is empty, or one line of at most 60 bytes, its
  // threshold is zero or 1 to 5000 basis points, and its shocks are of AAPL and MSFT within 5000 of them.
  lemma NormalizableExactlyWhen(input: Experiment)
    ensures Normalizable(input) <==>
            && (Trim(input.name) == "" || (ByteLength(Trim(input.name)) <= 60
                                           && forall c :: c in Trim(input.name) ==> c !in {'\r', '\n', '\t'}))
            && (input.threshold == 0 || 1 <= input.threshold <= 5000)
            && (input.shocks.Some? ==> forall symbol :: symbol in input.shocks.value ==>
              symbol in {"AAPL", "MSFT"} && -5000 <= input.shocks.value[symbol] <= 5000)
  {
    hide Trim, ByteLength, GoodName;
    GoodNameExactlyWhen(Trim(input.name));
    BaselineIsGood();
  }

  lemma GoodNameExactlyWhen(name: string)
    ensures GoodName(name) <==> ByteLength(name) <= 60 && forall c :: c in name ==> c !in {'\r', '\n', '\t'}
  {
    hide ByteLength;
  }

  lemma BaselineIsGood()
    ensures GoodName("Baseline")
  {
    BaselineLength();
  }

  lemma BaselineLength()
    ensures ByteLength("Baseline") == 8
  {
    assert "Baseline"[1..] == "aseline" && "aseline"[1..] == "seline" && "seline"[1..] == "eline"
      && "eline"[1..] == "line";
    assert "line"[1..] == "ine" && "ine"[1..] == "ne" && "ne"[1..] == "e" && "e"[1..] == "";
    assert ByteLength("e") == 1 && ByteLength("ne") == 2 && ByteLength("ine") == 3 && ByteLength("line") == 4;
    assert ByteLength("eline") == 5 && ByteLength("seline") == 6 && ByteLength("aseline") == 7;
  }

  // The blank characters are the 25 that Unicode lists as white space.
  lemma BlanksAreWhiteSpace(c: char)
    ensures IsSpace(c) <==>
            c as int in {0x9, 0xa, 0xb, 0xc, 0xd, 0x20, 0x85, 0xa0, 0x1680, 0x2000, 0x2001, 0x2002, 0x2003, 0x2004,
                         0x2005, 0x2006, 0x2007, 0x2008, 0x2009, 0x200a, 0x2028, 0x2029, 0x202f, 0x205f, 0x3000}
  {
  }

  lemma {:induction false} TrimLeftSplits(s: string) returns (lead: string)
    ensures s == lead + TrimLeft(s) && Blank(lead)
    ensures TrimLeft(s) != [] ==> !IsSpace(TrimLeft(s)[0])
  {
    if s != [] && IsSpace(s[0]) {
      var rest := TrimLeftSplits(s[1..]);
      lead := [s[0]] + rest;
    } else {
      lead := [];
    }
  }

  lemma {:induction false} TrimRightSplits(s: string) returns (tail: string)
    ensures s == TrimRight(s) + tail && Blank(tail)
    ensures TrimRight(s) != [] ==> !IsSpace(TrimRight(s)[|TrimRight(s)| - 1])
  {
    if s != [] && IsSpace(s[|s| - 1]) {
      var rest := TrimRightSplits(s[..|s| - 1]);
      tail := rest + [s[|s| - 1]];
    } else {
      tail := [];
    }
  }

  // Trimming removes blank text from both ends and nothing else.
  lemma TrimSplits(s: string) returns (lead: string, tail: string)
    ensures s == lead + Trim(s) + tail && Blank(lead) && Blank(tail) && Tight(Trim(s))
  {
    lead := TrimLeftSplits(s);
    tail := TrimRightSplits(TrimLeft(s));
    var mid := TrimLeft(s);
    assert mid == Trim(s) + tail;
    if Trim(s) != [] {
      assert mid[0] == Trim(s)[0];
    }
  }

  lemma TightIsTrimmed(s: string)
    requires Tight(s)
    ensures Trim(s) == s
  {
  }

  lemma NormalNameIsTrimmed(e: Experiment)
    ensures Trim(Normal(e).name) == Normal(e).name != ""
  {
    var lead, tail := TrimSplits(e.name);
    TightIsTrimmed(Trim(e.name));
    TightIsTrimmed("Baseline");
  }

  // Normalizing a normal experiment changes nothing.
  lemma NormalIsIdempotent(e: Experiment)
    requires Normalizable(e)
    ensures IsNormal(Normal(e))
  {
    hide Trim, ByteLength, OneLine;
    NormalNameIsTrimmed(e);
  }

  // A name is at least as long in bytes as in characters, and as long only when it is ASCII.
  lemma {:induction false} BytesCountAtLeastCharacters(s: string)
    ensures ByteLength(s) >= |s|
    ensures ByteLength(s) == |s| <==> forall c :: c in s ==> Utf8Length(c) == 1
  {
    if s != [] {
      BytesCountAtLeastCharacters(s[1..]);
      assert s[0] in s && forall c :: c in s <==> c == s[0] || c in s[1..];
      assert ByteLength(s) == Utf8Length(s[0]) + ByteLength(s[1..]);
    }
  }

  // Thirty-one characters that take two bytes each: short enough in characters, too long in bytes.
  lemma ShortNameIsRefused() returns (e: Experiment)
    ensures |e.name| == 31 && OneLine(e.name) && Trim(e.name) == e.name && !Normalizable(e)
  {
    var name := Copies(233 as char, 31);
    CopiesLength(233 as char, 31);
    assert name[0] in name && name[30] in name;
    TightIsTrimmed(name);
    e := Experiment(name, None, 0);
  }

  function Copies(c: char, n: nat): string {
    if n == 0 then [] else [c] + Copies(c, n - 1)
  }

  lemma {:induction false} CopiesLength(c: char, n: nat)
    ensures |Copies(c, n)| == n && ByteLength(Copies(c, n)) == n * Utf8Length(c)
    ensures forall d :: d in Copies(c, n) ==> d == c
  {
    if n > 0 {
      CopiesLength(c, n - 1);
      assert Copies(c, n)[1..] == Copies(c, n - 1);
    }
  }
}
