/** Port-range rules: the text form a rule is configured in, the ranges it denotes, and the
    computation of intersections on the text. */
module PortRules {
  import opened Text

  const DEFAULT_PORT_RANGE := "1-65535"

  datatype Range = Range(lo: int, hi: int)

  predicate ValidRange(r: Range) { 1 <= r.lo <= r.hi <= 65535 }

  predicate ValidRanges(rs: seq<Range>) { forall i | 0 <= i < |rs| :: ValidRange(rs[i]) }

  predicate InRange(r: Range, port: int) { r.lo <= port <= r.hi }

  predicate InRanges(rs: seq<Range>, port: int) { exists i | 0 <= i < |rs| :: InRange(rs[i], port) }

  // ---- what a rule's text denotes ----

  /** One item of a rule: a port or a pair of ports. */
  function ParsePart(part: string): (r: Option<Range>)
    ensures r.Some? ==> ValidRange(r.value)
  {
    var bounds := Split(part, '-');
    if |bounds| > 2 then None
    else
      var lo := Bound(bounds[0]);
      var hi := if |bounds| == 2 then Bound(bounds[1]) else lo;
      if lo.None? || hi.None? then None else ToRange(lo.value, hi.value)
  }

  function Bound(s: string): Option<int> { Atoi(TrimSpace(s)) }

  function ToRange(lo: int, hi: int): (r: Option<Range>)
    ensures r.Some? ==> ValidRange(r.value)
  {
    if lo < 1 || hi > 65535 || lo > hi then None else Some(Range(lo, hi))
  }

  /** How one comma-separated item of a rule reads. */
  datatype Item = Blank | Bad | Good(range: Range)

  function ReadItem(text: string): (item: Item)
    ensures item.Good? ==> ValidRange(item.range)
  {
    var part := TrimSpace(text);
    if part == "" then Blank
    else
      var r := ParsePart(part);
      if r.None? then Bad else Good(r.value)
  }

  /** The items of a rule in order; blank items are skipped, one bad item spoils the rule. */
  function Collect(parts: seq<string>, read: string -> Item): Option<seq<Range>> {
    if parts == [] then Some([])
    else
      var init := Collect(parts[..|parts| - 1], read);
      var last := read(parts[|parts| - 1]);
      if init.None? || last.Blank? then init
      else if last.Bad? then None
      else Some(init.value + [last.range])
  }

  lemma {:induction false} CollectedValid(parts: seq<string>)
    ensures Collect(parts, ReadItem).Some? ==> ValidRanges(Collect(parts, ReadItem).value)
  {
    if parts != [] {
      CollectedValid(parts[..|parts| - 1]);
    }
  }

  function RuleText(rule: string): string {
    if TrimSpace(rule) == "" then DEFAULT_PORT_RANGE else TrimSpace(rule)
  }

  /** The ranges of a rule: a blank rule is every port, a rule without items is malformed. */
  function Parse(rule: string): (r: Option<seq<Range>>)
    ensures r.Some? ==> r.value != [] && ValidRanges(r.value)
  {
    var parts := Split(RuleText(rule), ',');
    var rs := Collect(parts, ReadItem);
    CollectedValid(parts);
    if rs.None? || rs.value == [] then None else rs
  }

  /** The ports a rule allows; a malformed rule allows none. */
  predicate PortAllowed(rule: string, port: int) {
    var rs := Parse(rule);
    rs.Some? && InRanges(rs.value, port)
  }

  function FormatRange(r: Range): string
    requires 0 <= r.lo && 0 <= r.hi
  {
    if r.lo == r.hi then Itoa(r.lo) else Itoa(r.lo) + "-" + Itoa(r.hi)
  }

  function FormatParts(rs: seq<Range>): (parts: seq<string>)
    requires ValidRanges(rs)
    ensures |parts| == |rs| && forall i | 0 <= i < |rs| :: parts[i] == FormatRange(rs[i])
  {
    seq(|rs|, i requires 0 <= i < |rs| => FormatRange(rs[i]))
  }

  function Format(rs: seq<Range>): string
    requires ValidRanges(rs)
  {
    Join(FormatParts(rs), ',')
  }

  // ---- the loops of the rule code ----

  method ParsePortRanges(rule: string) returns (r: Option<seq<Range>>)
    ensures r == Parse(rule)
  {
    var text := TrimSpace(rule);
    if text == "" {
      text := DEFAULT_PORT_RANGE;
    }
    var parts := Split(text, ',');
    var ranges := ReadItems(parts, ReadItem);
    CollectedValid(parts);
    return if ranges == Some([]) then None else ranges;
  }

  /** The loop over the items of a rule. */
  method ReadItems(parts: seq<string>, read: string -> Item) returns (r: Option<seq<Range>>)
    ensures r == Collect(parts, read)
  {
    var ranges: seq<Range> := [];
    for k := 0 to |parts|
      invariant Collect(parts[..k], read) == Some(ranges)
    {
      assert parts[..k + 1][..k] == parts[..k];
      var item := read(parts[k]);
      if item.Bad? {
        SpoiledFrom(parts, read, k + 1);
        return None;
      }
      if item.Good? {
        ranges := ranges + [item.range];
      }
    }
    assert parts[..|parts|] == parts;
    return Some(ranges);
  }

  method FormatPortRanges(ranges: seq<Range>) returns (text: string)
    requires ValidRanges(ranges)
    ensures text == Format(ranges)
    ensures ranges != [] ==> Parse(text) == Some(ranges)
  {
    var parts: seq<string> := [];
    for k := 0 to |ranges|
      invariant parts == FormatParts(ranges)[..k]
    {
      if ranges[k].lo == ranges[k].hi {
        parts := parts + [Itoa(ranges[k].lo)];
      } else {
        parts := parts + [Itoa(ranges[k].lo) + "-" + Itoa(ranges[k].hi)];
      }
    }
    assert parts == FormatParts(ranges);
    if ranges != [] {
      ParseFormat(ranges);
    }
    return Join(parts, ',');
  }

  datatype PortCheck = Allowed | NotAllowed | InvalidRule

  /** The port a request asks for: a decimal number from 1 to 65535. */
  function PortOf(value: string): Option<int> {
    var port := Atoi(TrimSpace(value));
    if port.None? || port.value < 1 || port.value > 65535 then None else port
  }

  predicate PortValueAllowed(rule: string, value: string) {
    PortOf(value).Some? && PortAllowed(rule, PortOf(value).value)
  }

  method ValidatePortAllowed(rule: string, value: string) returns (r: PortCheck)
    ensures r == Allowed <==> PortValueAllowed(rule, value)
    ensures r == InvalidRule <==> PortOf(value).Some? && Parse(rule).None?
  {
    var port := Atoi(TrimSpace(value));
    if port.None? || port.value < 1 || port.value > 65535 {
      return NotAllowed;
    }
    var ranges := ParsePortRanges(rule);
    if ranges.None? {
      return InvalidRule;
    }
    var found := FindPort(ranges.value, port.value);
    return if found then Allowed else NotAllowed;
  }

  method FindPort(ranges: seq<Range>, port: int) returns (found: bool)
    ensures found <==> InRanges(ranges, port)
  {
    for k := 0 to |ranges|
      invariant forall i | 0 <= i < k :: !InRange(ranges[i], port)
    {
      if ranges[k].lo <= port <= ranges[k].hi {
        return true;
      }
    }
    return false;
  }

  /** Intersecting two rules as text is intersecting the port sets they denote: there is a
      result exactly when some port satisfies both rules, and it allows exactly those ports. */
  method IntersectPortRules(left: string, right: string) returns (rule: string, ok: bool)
    ensures ok <==> exists port :: PortAllowed(left, port) && PortAllowed(right, port)
    ensures ok ==> forall port :: PortAllowed(rule, port) <==> PortAllowed(left, port) && PortAllowed(right, port)
    ensures !ok ==> rule == ""
  {
    var ls := ParsePortRanges(left);
    if ls.None? {
      return "", false;
    }
    var rs := ParsePortRanges(right);
    if rs.None? {
      return "", false;
    }
    var out := IntersectRanges(ls.value, rs.value);
    AllowedInBoth(left, right, out);
    if out == [] {
      return "", false;
    }
    rule := FormatPortRanges(out);
    ok := true;
  }

  lemma AllowedInBoth(left: string, right: string, out: seq<Range>)
    requires Parse(left).Some? && Parse(right).Some? && ValidRanges(out)
    requires forall port :: InRanges(out, port) <==>
        InRanges(Parse(left).value, port) && InRanges(Parse(right).value, port)
    ensures forall port :: InRanges(out, port) <==> PortAllowed(left, port) && PortAllowed(right, port)
    ensures out != [] <==> exists port :: PortAllowed(left, port) && PortAllowed(right, port)
  {
    if out != [] {
      assert InRange(out[0], out[0].lo);
      assert InRanges(out, out[0].lo);
    }
  }

  /** The nested loops of the intersection. */
  method IntersectRanges(ls: seq<Range>, rs: seq<Range>) returns (out: seq<Range>)
    requires ValidRanges(ls) && ValidRanges(rs)
    ensures ValidRanges(out)
    ensures forall port :: InRanges(out, port) <==> InRanges(ls, port) && InRanges(rs, port)
  {
    out := [];
    for i := 0 to |ls|
      invariant ValidRanges(out)
      invariant forall port :: InRanges(out, port) <==> InRanges(ls[..i], port) && InRanges(rs, port)
    {
      out := ClipInto(out, ls[i], rs);
      InRangesSnoc(ls, i);
    }
    assert ls[..|ls|] == ls;
  }

  /** The inner loop of the intersection: the parts of one range that lie in the other rule. */
  method ClipInto(acc: seq<Range>, a: Range, rs: seq<Range>) returns (out: seq<Range>)
    requires ValidRanges(acc) && ValidRange(a) && ValidRanges(rs)
    ensures ValidRanges(out)
    ensures forall port :: InRanges(out, port) <==> InRanges(acc, port) || (InRange(a, port) && InRanges(rs, port))
  {
    out := acc;
    for j := 0 to |rs|
      invariant ValidRanges(out)
      invariant forall port :: InRanges(out, port) <==>
          InRanges(acc, port) || (InRange(a, port) && InRanges(rs[..j], port))
    {
      var b := rs[j];
      var lo := if a.lo < b.lo then b.lo else a.lo;
      var hi := if a.hi < b.hi then a.hi else b.hi;
      InRangesSnoc(rs, j);
      if lo <= hi {
        InRangesAppend(out, Range(lo, hi));
        out := out + [Range(lo, hi)];
      }
    }
    assert rs[..|rs|] == rs;
  }

  lemma InRangesAppend(rs: seq<Range>, r: Range)
    ensures forall port :: InRanges(rs + [r], port) <==> InRanges(rs, port) || InRange(r, port)
  {
    forall port
      ensures InRanges(rs + [r], port) <==> InRanges(rs, port) || InRange(r, port)
    {
      var more := rs + [r];
      assert more[|rs|] == r;
      if i :| 0 <= i < |rs| && InRange(rs[i], port) {
        assert more[i] == rs[i];
      }
    }
  }

  lemma InRangesSnoc(rs: seq<Range>, k: nat)
    requires k < |rs|
    ensures forall port :: InRanges(rs[..k + 1], port) <==> InRanges(rs[..k], port) || InRange(rs[k], port)
  {
    assert rs[..k + 1] == rs[..k] + [rs[k]];
    InRangesAppend(rs[..k], rs[k]);
  }

  lemma {:induction false} SpoiledFrom(parts: seq<string>, read: string -> Item, k: nat)
    requires k <= |parts| && Collect(parts[..k], read).None?
    ensures Collect(parts, read).None?
    decreases |parts| - k
  {
    if k == |parts| {
      assert parts[..k] == parts;
    } else {
      assert parts[..k + 1][..k] == parts[..k];
      SpoiledFrom(parts, read, k + 1);
    }
  }

  // ---- what a rule's text means ----

  lemma {:induction false} CollectSpoiled(parts: seq<string>, read: string -> Item, k: nat)
    requires k < |parts| && read(parts[k]).Bad?
    ensures Collect(parts, read) == None
  {
    if k < |parts| - 1 {
      CollectSpoiled(parts[..|parts| - 1], read, k);
    }
  }

  predicate Includes(item: Item, port: int) { item.Good? && item.range.lo <= port <= item.range.hi }

  predicate SomeIncludes(parts: seq<string>, read: string -> Item, port: int) {
    exists k | 0 <= k < |parts| :: Includes(read(parts[k]), port)
  }

  lemma SomeIncludesSnoc(parts: seq<string>, read: string -> Item, port: int)
    requires parts != []
    ensures var n := |parts| - 1;
        SomeIncludes(parts, read, port) <==> SomeIncludes(parts[..n], read, port) || Includes(read(parts[n]), port)
  {
    var n := |parts| - 1;
    assert forall k | 0 <= k < n :: parts[..n][k] == parts[k];
  }

  lemma {:induction false} CollectedMeaning(parts: seq<string>, read: string -> Item, port: int)
    requires forall k | 0 <= k < |parts| :: !read(parts[k]).Bad?
    ensures Collect(parts, read).Some? && (InRanges(Collect(parts, read).value, port) <==> SomeIncludes(parts, read, port))
  {
    if parts != [] {
      var n := |parts| - 1;
      CollectedMeaning(parts[..n], read, port);
      SomeIncludesSnoc(parts, read, port);
      var init, last := Collect(parts[..n], read).value, read(parts[n]);
      if last.Good? {
        InRangesAppend(init, last.range);
      }
    }
  }

  /** One bad item makes a rule malformed, and a malformed rule allows no port. */
  lemma BadItemSpoils(rule: string, k: nat)
    requires TrimSpace(rule) != "" && k < |Split(TrimSpace(rule), ',')| && ReadItem(Split(TrimSpace(rule), ',')[k]).Bad?
    ensures Parse(rule) == None && forall port :: !PortAllowed(rule, port)
  {
    CollectSpoiled(Split(TrimSpace(rule), ','), ReadItem, k);
  }

  /** A rule without bad items allows a port iff one of its items does. */
  lemma RuleMeaning(rule: string, parts: seq<string>, port: int)
    requires TrimSpace(rule) != "" && parts == Split(TrimSpace(rule), ',')
    requires forall k | 0 <= k < |parts| :: !ReadItem(parts[k]).Bad?
    ensures PortAllowed(rule, port) <==> SomeIncludes(parts, ReadItem, port)
  {
    CollectedMeaning(parts, ReadItem, port);
  }

  /** An item is blank, a port or a pair of ports from 1 to 65535 in order, with white space around every
      number; anything else is bad. */
  lemma ItemMeaning(text: string, r: Range)
    ensures ReadItem(text).Blank? <==> TrimSpace(text) == ""
    ensures ReadItem(text) == Good(r) <==>
        && TrimSpace(text) != "" && 1 <= r.lo <= r.hi <= 65535
        && var bounds := Split(TrimSpace(text), '-');
           || (|bounds| == 1 && Atoi(TrimSpace(bounds[0])) == Some(r.lo) && r.hi == r.lo)
           || (|bounds| == 2 && Atoi(TrimSpace(bounds[0])) == Some(r.lo) && Atoi(TrimSpace(bounds[1])) == Some(r.hi))
  {
  }

  lemma AllPortsText()
    ensures Format([Range(1, 65535)]) == DEFAULT_PORT_RANGE
  {
    var all := [Range(1, 65535)];
    assert Itoa(6) == "6";
    assert Itoa(65) == "65";
    assert Itoa(655) == "655";
    assert Itoa(6553) == "6553";
    assert Itoa(65535) == "65535";
    assert Itoa(1) == "1";
    assert FormatRange(all[0]) == "1-65535";
    assert FormatParts(all) == [FormatRange(all[0])];
  }

  lemma DefaultRanges()
    ensures Parse(DEFAULT_PORT_RANGE) == Some([Range(1, 65535)])
  {
    AllPortsText();
    ParseFormat([Range(1, 65535)]);
  }

  /** A blank rule, and the default rule, allow exactly the ports from 1 to 65535. */
  lemma BlankAllowsAll(rule: string, port: int)
    requires TrimSpace(rule) == "" || rule == DEFAULT_PORT_RANGE
    ensures PortAllowed(rule, port) <==> 1 <= port <= 65535
  {
    DefaultRanges();
    assert Trimmed(DEFAULT_PORT_RANGE);
    assert RuleText(rule) == RuleText(DEFAULT_PORT_RANGE);
    var all := [Range(1, 65535)];
    assert InRanges(all, port) <==> InRange(all[0], port);
  }

  // ---- parsing undoes printing ----

  lemma SinglePart(part: string, n: int)
    requires Split(part, '-') == [part] && Bound(part) == Some(n)
    ensures ParsePart(part) == ToRange(n, n)
  {
  }

  lemma PairPart(part: string, lo: string, hi: string, m: int, n: int)
    requires Split(part, '-') == [lo, hi] && Bound(lo) == Some(m) && Bound(hi) == Some(n)
    ensures ParsePart(part) == ToRange(m, n)
  {
  }

  lemma NumeralPart(n: nat)
    requires n <= INT_MAX
    ensures Split(Itoa(n), '-') == [Itoa(n)]
    ensures Bound(Itoa(n)) == Some(n)
  {
    AtoiItoa(n);
    SplitHead(Itoa(n), "", '-');
  }

  lemma ParseFormatRange(r: Range)
    requires ValidRange(r)
    ensures ParsePart(FormatRange(r)) == Some(r)
  {
    var lo, hi := Itoa(r.lo), Itoa(r.hi);
    NumeralPart(r.lo);
    NumeralPart(r.hi);
    if r.lo == r.hi {
      SinglePart(lo, r.lo);
    } else {
      SplitHead(lo, hi, '-');
      assert FormatRange(r) == lo + ['-'] + hi;
      PairPart(FormatRange(r), lo, hi, r.lo, r.hi);
    }
  }

  lemma FormatRangeChars(r: Range)
    requires ValidRange(r)
    ensures FormatRange(r) != "" && forall c | c in FormatRange(r) :: IsDigit(c) || c == '-'
    ensures TrimSpace(FormatRange(r)) == FormatRange(r)
  {
    var s := FormatRange(r);
    assert s[0] in s && s[|s| - 1] in s;
  }

  lemma {:induction false} CollectAll(parts: seq<string>, read: string -> Item, rs: seq<Range>)
    requires |parts| == |rs| && forall i | 0 <= i < |rs| :: read(parts[i]) == Good(rs[i])
    ensures Collect(parts, read) == Some(rs)
  {
    if rs != [] {
      var n := |rs| - 1;
      CollectAll(parts[..n], read, rs[..n]);
      assert rs == rs[..n] + [rs[n]];
    }
  }

  lemma ReadPrinted(r: Range)
    requires ValidRange(r)
    ensures ReadItem(FormatRange(r)) == Good(r)
  {
    ParseFormatRange(r);
    FormatRangeChars(r);
  }

  /** Parsing the printed form of any non-empty list of valid ranges gives back that list. */
  lemma ParseFormat(rs: seq<Range>)
    requires rs != [] && ValidRanges(rs)
    ensures Parse(Format(rs)) == Some(rs)
  {
    var parts := FormatParts(rs);
    var text := Format(rs);
    forall i | 0 <= i < |rs|
      ensures parts[i] != "" && forall c | c in parts[i] :: IsDigit(c) || c == '-'
    {
      FormatRangeChars(rs[i]);
    }
    assert forall c | c in text :: !IsSpace(c);
    assert parts[0] != "" && (|parts| > 1 ==> text == parts[0] + "," + Join(parts[1..], ','));
    assert text != "" && text[0] in text && text[|text| - 1] in text;
    assert RuleText(text) == text;
    SplitJoin(parts, ',');
    forall i | 0 <= i < |rs| ensures ReadItem(parts[i]) == Good(rs[i]) {
      ReadPrinted(rs[i]);
    }
    CollectAll(parts, ReadItem, rs);
  }
}
