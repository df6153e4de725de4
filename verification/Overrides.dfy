/**
 * The rate-override text format of `Config::parse_stream_rate_overrides`: semicolon-separated
 * `name=rps:burst` entries, trimmed, malformed entries skipped, the last entry for a name kept.
 */
module Overrides {
  import opened Wrappers

  datatype Override = Override(name: string, rps: nat, burst: nat)

  // ---------------------------------------------------------------------------
  // String operations of the standard library
  // ---------------------------------------------------------------------------

  /** Unicode White_Space, which `str::trim` removes. */
  predicate IsSpace(c: char) {
    var n := c as int;
    || 9 <= n <= 13 || n == 32 || n == 0x85 || n == 0xA0 || n == 0x1680 || 0x2000 <= n <= 0x200A
    || n == 0x2028 || n == 0x2029 || n == 0x202F || n == 0x205F || n == 0x3000
  }

  /** Neither end of s is white space. */
  predicate Trimmed(s: string) {
    s != "" ==> !IsSpace(s[0]) && !IsSpace(s[|s| - 1])
  }

  /** Where the white space that begins at i ends. */
  function SpaceEnd(s: string, i: nat): (k: nat)
    requires i <= |s|
    ensures i <= k <= |s| && (k < |s| ==> !IsSpace(s[k]))
    ensures forall j :: i <= j < k ==> IsSpace(s[j])
    decreases |s| - i
  {
    if i == |s| || !IsSpace(s[i]) then i else SpaceEnd(s, i + 1)
  }

  /** Where the white space that ends at i begins. */
  function SpaceStart(s: string, i: nat): (k: nat)
    requires i <= |s|
    ensures k <= i && (k > 0 ==> !IsSpace(s[k - 1]))
    ensures forall j :: k <= j < i ==> IsSpace(s[j])
  {
    if i == 0 || !IsSpace(s[i - 1]) then i else SpaceStart(s, i - 1)
  }

  function TrimStart(s: string): (r: string)
    ensures r != "" ==> !IsSpace(r[0])
    ensures |r| <= |s| && r == s[|s| - |r|..]
    ensures forall i :: 0 <= i < |s| - |r| ==> IsSpace(s[i])
    ensures Trimmed(s) ==> r == s
  {
    s[SpaceEnd(s, 0)..]
  }

  function TrimEnd(s: string): (r: string)
    ensures r != "" ==> !IsSpace(r[|r| - 1])
    ensures |r| <= |s| && r == s[..|r|]
    ensures forall i :: |r| <= i < |s| ==> IsSpace(s[i])
    ensures Trimmed(s) ==> r == s
  {
    s[..SpaceStart(s, |s|)]
  }

  /** `str::trim`. */
  function Trim(s: string): (r: string)
    ensures Trimmed(r) && (Trimmed(s) ==> r == s)
    ensures forall c :: c in r ==> c in s
    ensures |r| <= |s|
  {
    TrimEnd(TrimStart(s))
  }

  /** Where the first d at or after i is, or the end of s. */
  function Find(s: string, d: char, i: nat): (k: nat)
    requires i <= |s|
    ensures i <= k <= |s| && (k < |s| ==> s[k] == d)
    ensures forall j :: i <= j < k ==> s[j] != d
    decreases |s| - i
  {
    if i == |s| || s[i] == d then i else Find(s, d, i + 1)
  }

  /** `str::split_once`: before and after the first d. */
  function SplitOnce(s: string, d: char): (r: Option<(string, string)>)
    ensures r.None? <==> d !in s
    ensures r.Some? ==> s == r.value.0 + [d] + r.value.1 && d !in r.value.0
  {
    var k := Find(s, d, 0);
    if k == |s| then None else Some((s[..k], s[k + 1..]))
  }

  /** `str::split`: always at least one piece. */
  function Split(s: string, d: char): (r: seq<string>)
    ensures |r| >= 1
    ensures forall piece :: piece in r ==> d !in piece
  {
    if s == "" then [""]
    else if s[0] == d then [""] + Split(s[1..], d)
    else
      var rest := Split(s[1..], d);
      [[s[0]] + rest[0]] + rest[1..]
  }

  predicate IsDigit(c: char) {
    '0' <= c <= '9'
  }

  function DigitValue(c: char): nat
    requires IsDigit(c)
  {
    c as int - '0' as int
  }

  predicate AllDigits(s: string) {
    forall c :: c in s ==> IsDigit(c)
  }

  function DigitsValue(s: string): nat
    requires AllDigits(s)
  {
    if s == "" then 0 else DigitsValue(s[..|s| - 1]) * 10 + DigitValue(s[|s| - 1])
  }

  /** `parse::<u64>`: an optional plus sign, then digits, within range. */
  function ParseU64(s: string): (r: Option<nat>)
    ensures r.Some? ==> r.value <= U64_MAX
  {
    var digits := if |s| > 1 && s[0] == '+' then s[1..] else s;
    if digits == "" || !AllDigits(digits) || DigitsValue(digits) > U64_MAX then None else Some(DigitsValue(digits))
  }

  predicate AllSpace(s: string) {
    forall c :: c in s ==> IsSpace(c)
  }

  lemma TrimStartDrops(pad: string, s: string)
    requires AllSpace(pad) && (s != "" ==> !IsSpace(s[0]))
    ensures TrimStart(pad + s) == s
  {
    var k := SpaceEnd(pad + s, 0);
    assert forall j :: 0 <= j < |pad| ==> (pad + s)[j] in pad;
    assert s != "" ==> (pad + s)[|pad|] == s[0];
    assert k == |pad|;
    assert (pad + s)[k..] == s;
  }

  lemma TrimEndDrops(s: string, pad: string)
    requires AllSpace(pad) && (s != "" ==> !IsSpace(s[|s| - 1]))
    ensures TrimEnd(s + pad) == s
  {
    var k := SpaceStart(s + pad, |s + pad|);
    assert forall j :: |s| <= j < |s + pad| ==> (s + pad)[j] in pad;
    assert s != "" ==> (s + pad)[|s| - 1] == s[|s| - 1];
    assert k == |s|;
    assert (s + pad)[..k] == s;
  }

  /** What `trim` leaves is what stands between the white space at the two ends. */
  lemma TrimExact(left: string, core: string, right: string)
    requires AllSpace(left) && AllSpace(right) && Trimmed(core)
    ensures Trim(left + core + right) == core
  {
    if core == "" {
      assert left + core + right == (left + right) + "";
      TrimStartDrops(left + right, "");
    } else {
      assert left + core + right == left + (core + right);
      TrimStartDrops(left, core + right);
      TrimEndDrops(core, right);
    }
  }

  lemma Regrouped(a: string, b: string, c: string, d: string, e: string)
    ensures a + (b + (c + d)) + e == (a + b) + c + (d + e)
  {
  }

  lemma SliceParts(s: string, n: nat, left: string, right: string)
    requires n <= |s| && left == s[..n] && right == s[n..]
    ensures s == left + right
    ensures (forall i :: 0 <= i < n ==> IsSpace(s[i])) ==> AllSpace(left)
    ensures (forall i :: n <= i < |s| ==> IsSpace(s[i])) ==> AllSpace(right)
  {
  }

  lemma TrimSplits(s: string) returns (left: string, right: string)
    ensures AllSpace(left) && AllSpace(right) && s == left + (Trim(s) + right)
  {
    var rest := TrimStart(s);
    var core := TrimEnd(rest);
    left, right := s[..|s| - |rest|], rest[|core|..];
    SliceParts(s, |s| - |rest|, left, rest);
    SliceParts(rest, |core|, core, right);
  }

  lemma AllSpaceConcat(a: string, b: string)
    requires AllSpace(a) && AllSpace(b)
    ensures AllSpace(a + b)
  {
  }

  /** White space around a text makes no difference to what `trim` leaves. */
  lemma TrimPadded(left: string, s: string, right: string)
    requires AllSpace(left) && AllSpace(right)
    ensures Trim(left + s + right) == Trim(s)
  {
    var core := Trim(s);
    var a, b := TrimSplits(s);
    AllSpaceConcat(left, a);
    AllSpaceConcat(b, right);
    Regrouped(left, a, core, b, right);
    TrimExact(left + a, core, b + right);
  }

  /** s is these digits, perhaps with a plus sign. */
  predicate Spells(s: string, digits: string) {
    digits != "" && AllDigits(digits) && (s == digits || s == "+" + digits)
  }

  /** A number is read just from its digits, leading zeros and a plus sign allowed, if it fits 64 bits. */
  lemma NumbersRead(s: string, n: nat)
    ensures ParseU64(s) == Some(n) <==>
            exists digits :: Spells(s, digits) && DigitsValue(digits) == n && n <= U64_MAX
  {
    if ParseU64(s) == Some(n) {
      assert Spells(s, if |s| > 1 && s[0] == '+' then s[1..] else s);
    }
    if digits :| Spells(s, digits) && DigitsValue(digits) == n && n <= U64_MAX {
      assert digits[0] in digits;
      assert s != digits ==> s[1..] == digits;
    }
  }

  // ---------------------------------------------------------------------------
  // The parser
  // ---------------------------------------------------------------------------

  function ParseEntry(entry: string): Option<Override> {
    match SplitOnce(entry, '=')
    case None => None
    case Some((name, rest)) =>
      match ParseLimits(rest)
      case None => None
      case Some((rps, burst)) => Some(Override(Trim(name), rps, burst))
  }

  /** The part after the equals sign. */
  function ParseLimits(rest: string): Option<(nat, nat)> {
    match SplitOnce(rest, ':')
    case None => None
    case Some((rps, burst)) =>
      var r, b := ParseU64(Trim(rps)), ParseU64(Trim(burst));
      if r.None? || b.None? then None else Some((r.value, b.value))
  }

  function ParseAll(entries: seq<string>): (r: seq<Option<Override>>)
    ensures |r| == |entries|
  {
    Mapped(ParseEntry, entries)
  }

  function Mapped<T, U>(f: T -> U, xs: seq<T>): (r: seq<U>)
    ensures |r| == |xs| && forall i :: 0 <= i < |xs| ==> r[i] == f(xs[i])
  {
    seq(|xs|, i requires 0 <= i < |xs| => f(xs[i]))
  }

  /** `collect` into a hash map: nothing for malformed entries, later entries replace earlier ones. */
  function Collect(parsed: seq<Option<Override>>): map<string, (nat, nat)> {
    if parsed == [] then map[]
    else
      var before, last := Collect(parsed[..|parsed| - 1]), parsed[|parsed| - 1];
      if last.None? then before else before[last.value.name := (last.value.rps, last.value.burst)]
  }

  /** The general path: split, parse, collect. */
  function ParseText(text: string): map<string, (nat, nat)> {
    Collect(ParseAll(Split(text, ';')))
  }

  /** `parse_stream_rate_overrides`, with its early return. */
  function Parse(text: string): map<string, (nat, nat)> {
    if text == "" then map[] else ParseText(text)
  }

  /** The early return changes nothing. */
  lemma EarlyReturnAgrees(text: string)
    ensures Parse(text) == ParseText(text)
  {
    if text == "" {
      var parsed := ParseAll(Split("", ';'));
      assert parsed == [None];
      assert Collect(parsed) == Collect(parsed[..0]);
    }
  }

  // ---------------------------------------------------------------------------
  // Printing
  // ---------------------------------------------------------------------------

  function Digit(n: nat): (c: char)
    requires n < 10
    ensures IsDigit(c) && DigitValue(c) == n
  {
    ('0' as int + n) as char
  }

  function PrintNat(n: nat): (s: string)
    ensures s != "" && AllDigits(s) && DigitsValue(s) == n
  {
    if n < 10 then
      assert [Digit(n)][..0] == "";
      [Digit(n)]
    else
      var s := PrintNat(n / 10) + [Digit(n % 10)];
      assert s[..|s| - 1] == PrintNat(n / 10);
      s
  }

  function PrintEntry(o: Override): string {
    o.name + ['='] + (PrintNat(o.rps) + [':'] + PrintNat(o.burst))
  }

  function Join(pieces: seq<string>, d: char): string {
    if pieces == [] then "" else if |pieces| == 1 then pieces[0] else pieces[0] + [d] + Join(pieces[1..], d)
  }

  function PrintPieces(overrides: seq<Override>): (r: seq<string>)
    ensures |r| == |overrides|
    ensures forall i :: 0 <= i < |r| ==> r[i] == PrintEntry(overrides[i])
  {
    if overrides == [] then [] else PrintPieces(overrides[..|overrides| - 1]) + [PrintEntry(overrides[|overrides| - 1])]
  }

  function Print(overrides: seq<Override>): string {
    Join(PrintPieces(overrides), ';')
  }

  /** The table a list of overrides stands for. */
  function Table(overrides: seq<Override>): (m: map<string, (nat, nat)>)
    ensures forall o :: o in overrides ==> o.name in m
  {
    if overrides == [] then map[]
    else
      var o := overrides[|overrides| - 1];
      assert overrides == overrides[..|overrides| - 1] + [o];
      Table(overrides[..|overrides| - 1])[o.name := (o.rps, o.burst)]
  }

  // ---------------------------------------------------------------------------
  // Round trip
  // ---------------------------------------------------------------------------

  /** A name the format can carry. */
  predicate Carried(name: string) {
    ';' !in name && '=' !in name && Trimmed(name)
  }

  predicate InRange(overrides: seq<Override>) {
    forall o :: o in overrides ==> o.rps <= U64_MAX && o.burst <= U64_MAX
  }

  lemma SplitOnceAtFirst(a: string, d: char, b: string)
    requires d !in a
    ensures SplitOnce(a + [d] + b, d) == Some((a, b))
  {
    var s := a + [d] + b;
    var k := Find(s, d, 0);
    assert s[|a|] == d && forall j :: 0 <= j < |a| ==> s[j] == a[j];
    assert k == |a|;
    assert s[..k] == a && s[k + 1..] == b;
  }

  lemma DigitsTrimmed(s: string)
    requires AllDigits(s)
    ensures Trimmed(s) && ':' !in s && ';' !in s && '+' !in s
  {
    assert s != "" ==> s[0] in s && s[|s| - 1] in s;
  }

  lemma ParseDigits(s: string)
    requires s != "" && AllDigits(s) && DigitsValue(s) <= U64_MAX
    ensures ParseU64(Trim(s)) == Some(DigitsValue(s))
  {
    DigitsTrimmed(s);
    assert s[0] in s;
  }

  lemma EntryRoundTrip(o: Override)
    requires Carried(o.name) && o.rps <= U64_MAX && o.burst <= U64_MAX
    ensures ParseEntry(PrintEntry(o)) == Some(o) && ';' !in PrintEntry(o)
  {
    LimitsRoundTrip(o.rps, o.burst);
    EntryOf(o.name, PrintNat(o.rps) + [':'] + PrintNat(o.burst));
  }

  lemma LimitsRoundTrip(rps: nat, burst: nat)
    requires rps <= U64_MAX && burst <= U64_MAX
    ensures
      var text := PrintNat(rps) + [':'] + PrintNat(burst);
      ParseLimits(text) == Some((rps, burst)) && ';' !in text
  {
    DigitsTrimmed(PrintNat(rps));
    DigitsTrimmed(PrintNat(burst));
    ParseDigits(PrintNat(rps));
    ParseDigits(PrintNat(burst));
    LimitsOf(PrintNat(rps), PrintNat(burst));
  }

  lemma EntryOf(name: string, rest: string)
    requires '=' !in name
    ensures
      var limits := ParseLimits(rest);
      ParseEntry(name + ['='] + rest) ==
      if limits.None? then None else Some(Override(Trim(name), limits.value.0, limits.value.1))
  {
    SplitOnceAtFirst(name, '=', rest);
  }

  lemma LimitsOf(rps: string, burst: string)
    requires ':' !in rps
    ensures
      var r, b := ParseU64(Trim(rps)), ParseU64(Trim(burst));
      ParseLimits(rps + [':'] + burst) == if r.None? || b.None? then None else Some((r.value, b.value))
  {
    SplitOnceAtFirst(rps, ':', burst);
  }

  /** s with white space around it. */
  ghost predicate Pads(padded: string, s: string) {
    exists left, right :: AllSpace(left) && AllSpace(right) && padded == left + s + right
  }

  lemma PaddedAlike(padded: string, s: string, d: char)
    requires Pads(padded, s) && !IsSpace(d)
    ensures Trim(padded) == Trim(s) && (d in padded <==> d in s)
  {
    var left, right :| AllSpace(left) && AllSpace(right) && padded == left + s + right;
    TrimPadded(left, s, right);
  }

  /** An entry with white space around its name and its numbers parses as the bare one. */
  lemma PaddedEntry(name: string, rps: string, burst: string, name': string, rps': string, burst': string)
    requires '=' !in name && ':' !in rps && Pads(name', name) && Pads(rps', rps) && Pads(burst', burst)
    ensures ParseEntry(name' + ['='] + (rps' + [':'] + burst')) == ParseEntry(name + ['='] + (rps + [':'] + burst))
  {
    PaddedAlike(name', name, '=');
    PaddedAlike(rps', rps, ':');
    PaddedAlike(burst', burst, ':');
    LimitsOf(rps, burst);
    LimitsOf(rps', burst');
    EntryOf(name, rps + [':'] + burst);
    EntryOf(name', rps' + [':'] + burst');
  }

  lemma {:induction false} SplitPrefix(a: string, d: char, b: string)
    requires d !in a
    ensures Split(a + [d] + b, d) == [a] + Split(b, d)
  {
    if a == "" {
      assert (a + [d] + b)[1..] == b;
    } else {
      SplitPrefix(a[1..], d, b);
      assert (a + [d] + b)[1..] == a[1..] + [d] + b;
      assert a[0] in a && [a[0]] + a[1..] == a;
    }
  }

  lemma {:induction false} SplitWhole(a: string, d: char)
    requires d !in a
    ensures Split(a, d) == [a]
  {
    if a != "" {
      SplitWhole(a[1..], d);
      assert a[0] in a && [a[0]] + a[1..] == a;
    }
  }

  lemma {:induction false} SplitJoin(pieces: seq<string>, d: char)
    requires pieces != [] && forall p :: p in pieces ==> d !in p
    ensures Split(Join(pieces, d), d) == pieces
  {
    if |pieces| == 1 {
      SplitWhole(pieces[0], d);
    } else {
      SplitJoin(pieces[1..], d);
      SplitPrefix(pieces[0], d, Join(pieces[1..], d));
      assert pieces == [pieces[0]] + pieces[1..];
    }
  }

  /** Parsing joined pieces is collecting them, also for no pieces at all. */
  lemma ParseJoined(pieces: seq<string>)
    requires forall p :: p in pieces ==> ';' !in p
    ensures Parse(Join(pieces, ';')) == Collect(ParseAll(pieces))
  {
    EarlyReturnAgrees(Join(pieces, ';'));
    if pieces != [] {
      SplitJoin(pieces, ';');
    }
  }

  lemma PiecesRoundTrip(overrides: seq<Override>)
    requires InRange(overrides) && forall o :: o in overrides ==> Carried(o.name)
    ensures forall i :: 0 <= i < |overrides| ==> ParseAll(PrintPieces(overrides))[i] == Some(overrides[i])
    ensures forall p :: p in PrintPieces(overrides) ==> ';' !in p
  {
    forall i | 0 <= i < |overrides|
      ensures ParseEntry(PrintEntry(overrides[i])) == Some(overrides[i]) && ';' !in PrintEntry(overrides[i])
    {
      assert overrides[i] in overrides;
      EntryRoundTrip(overrides[i]);
    }
  }

  lemma {:induction false} CollectIsTable(parsed: seq<Option<Override>>, overrides: seq<Override>)
    requires |parsed| == |overrides| && forall i :: 0 <= i < |overrides| ==> parsed[i] == Some(overrides[i])
    ensures Collect(parsed) == Table(overrides)
  {
    if overrides != [] {
      CollectIsTable(parsed[..|parsed| - 1], overrides[..|overrides| - 1]);
    }
  }

  /** Every name the parser returns is one the format can carry. */
  lemma {:induction false} CollectedNamesCarried(parsed: seq<Option<Override>>)
    requires forall p :: p in parsed && p.Some? ==> Carried(p.value.name)
    ensures forall name :: name in Collect(parsed) ==> Carried(name)
  {
    if parsed != [] {
      CollectedNamesCarried(parsed[..|parsed| - 1]);
      assert parsed[|parsed| - 1] in parsed;
    }
  }

  lemma TrimmedNameCarried(name: string)
    requires ';' !in name && '=' !in name
    ensures Carried(Trim(name))
  {
  }

  lemma ParsedNameCarried(e: string)
    ensures ';' !in e && ParseEntry(e).Some? ==> Carried(ParseEntry(e).value.name)
  {
    var parts := SplitOnce(e, '=');
    if ';' !in e && parts.Some? {
      assert forall c :: c in parts.value.0 ==> c in e;
      TrimmedNameCarried(parts.value.0);
    }
  }

  lemma ParsedNamesCarried(text: string)
    ensures forall name :: name in Parse(text) ==> Carried(name)
  {
    var pieces := Split(text, ';');
    var parsed := ParseAll(pieces);
    forall p | p in parsed && p.Some?
      ensures Carried(p.value.name)
    {
      var i :| 0 <= i < |parsed| && parsed[i] == p;
      assert pieces[i] in pieces;
      ParsedNameCarried(pieces[i]);
    }
    CollectedNamesCarried(parsed);
  }

  /** The printed form of a table parses back to it exactly when the format can carry every name in it. */
  lemma RoundTrip(overrides: seq<Override>)
    requires InRange(overrides)
    ensures Parse(Print(overrides)) == Table(overrides) <==> forall o :: o in overrides ==> Carried(o.name)
  {
    if forall o :: o in overrides ==> Carried(o.name) {
      PiecesRoundTrip(overrides);
      ParseJoined(PrintPieces(overrides));
      CollectIsTable(ParseAll(PrintPieces(overrides)), overrides);
    }
    if Parse(Print(overrides)) == Table(overrides) {
      ParsedNamesCarried(Print(overrides));
      forall o | o in overrides
        ensures Carried(o.name)
      {
        assert o.name in Table(overrides);
      }
    }
  }

  // ---------------------------------------------------------------------------
  // Malformed and repeated entries
  // ---------------------------------------------------------------------------

  lemma {:induction false} CollectSkips(a: seq<Option<Override>>, b: seq<Option<Override>>)
    ensures Collect(a + [None] + b) == Collect(a + b)
    decreases |b|
  {
    var all := a + [None] + b;
    if b == [] {
      assert all[..|all| - 1] == a && a + b == a;
    } else {
      var cut := b[..|b| - 1];
      CollectSkips(a, cut);
      assert all[..|all| - 1] == a + [None] + cut;
      assert (a + b)[..|a + b| - 1] == a + cut;
    }
  }

  lemma ParseAllConcat(a: seq<string>, b: seq<string>)
    ensures ParseAll(a + b) == ParseAll(a) + ParseAll(b)
  {
    MappedConcat(ParseEntry, a, b);
  }

  lemma MappedConcat<T, U>(f: T -> U, a: seq<T>, b: seq<T>)
    ensures Mapped(f, a + b) == Mapped(f, a) + Mapped(f, b)
  {
  }

  /** A malformed entry changes nothing, wherever it stands. */
  lemma MalformedIgnored(a: seq<string>, bad: string, b: seq<string>)
    requires forall e :: e in a + [bad] + b ==> ';' !in e
    requires ParseEntry(bad).None?
    ensures Parse(Join(a + [bad] + b, ';')) == Parse(Join(a + b, ';'))
  {
    ParseJoined(a + [bad] + b);
    ParseJoined(a + b);
    ParseAllConcat(a + [bad], b);
    ParseAllConcat(a, [bad]);
    ParseAllConcat(a, b);
    assert ParseAll([bad]) == [None];
    CollectSkips(ParseAll(a), ParseAll(b));
  }

  /** Entry i is valid and no later valid entry has its name. */
  ghost predicate LastFor(parsed: seq<Option<Override>>, i: nat, o: Override)
    requires i < |parsed|
  {
    && parsed[i] == Some(o)
    && (forall j :: i < j < |parsed| ==> parsed[j].None? || parsed[j].value.name != o.name)
  }

  /** A last entry of another name, or none, makes no difference. */
  lemma LastForKept(parsed: seq<Option<Override>>, i: nat, o: Override)
    requires i < |parsed| - 1
    requires parsed[|parsed| - 1].None? || parsed[|parsed| - 1].value.name != o.name
    ensures LastFor(parsed[..|parsed| - 1], i, o) <==> LastFor(parsed, i, o)
  {
    var cut := parsed[..|parsed| - 1];
    assert forall j :: 0 <= j < |cut| ==> cut[j] == parsed[j];
  }

  /** The table holds, for each name, what its last valid entry says, and nothing else. */
  lemma {:induction false} LastEntryWins(parsed: seq<Option<Override>>, o: Override)
    ensures o.name in Collect(parsed) && Collect(parsed)[o.name] == (o.rps, o.burst) <==>
            exists i :: 0 <= i < |parsed| && LastFor(parsed, i, o)
  {
    if parsed != [] {
      var cut, last := parsed[..|parsed| - 1], |parsed| - 1;
      LastEntryWins(cut, o);
      if parsed[last].Some? && parsed[last].value.name == o.name {
        assert parsed[last] == Some(o) ==> LastFor(parsed, last, o);
      } else {
        forall i: nat | i < |cut| ensures LastFor(cut, i, o) <==> LastFor(parsed, i, o) {
          LastForKept(parsed, i, o);
        }
      }
    }
  }

  lemma ParseCollects(text: string, parsed: seq<Option<Override>>)
    requires parsed == ParseAll(Split(text, ';'))
    ensures Parse(text) == Collect(parsed)
  {
    EarlyReturnAgrees(text);
  }

  lemma LastValidEntryWins(text: string, o: Override)
    ensures
      var parsed := ParseAll(Split(text, ';'));
      o.name in Parse(text) && Parse(text)[o.name] == (o.rps, o.burst) <==>
      exists i :: 0 <= i < |parsed| && LastFor(parsed, i, o)
  {
    var parsed := ParseAll(Split(text, ';'));
    ParseCollects(text, parsed);
    LastEntryWins(parsed, o);
  }
}
