/** Reading a node id out of the `pw-cli ls Node` listing. */
module FilterChain {
  import opened Prelude
  import opened Decimal

  // ---- Text -----------------------------------------------------------------------

  /** Unicode's White_Space property. */
  predicate IsSpace(c: char) {
    var n := c as int;
    || 0x9 <= n <= 0xD || n == 0x20 || n == 0x85 || n == 0xA0 || n == 0x1680 || 0x2000 <= n <= 0x200A
    || n == 0x2028 || n == 0x2029 || n == 0x202F || n == 0x205F || n == 0x3000
  }

  lemma Spaces(c: char)
    ensures IsSpace(c) <==> c as int in {9, 10, 11, 12, 13, 32, 133, 160, 5760, 8192, 8193, 8194, 8195, 8196, 8197, 8198,
                                         8199, 8200, 8201, 8202, 8232, 8233, 8239, 8287, 12288}
  {
  }

  function TrimStart(s: string): string {
    if s != [] && IsSpace(s[0]) then TrimStart(s[1..]) else s
  }

  function TrimEnd(s: string): string {
    if s != [] && IsSpace(s[|s| - 1]) then TrimEnd(s[..|s| - 1]) else s
  }

  /** The part before the first `c`, or all of it. */
  function Before(s: string, c: char): string {
    if s == [] || s[0] == c then [] else [s[0]] + Before(s[1..], c)
  }

  function WithoutCr(s: string): string {
    if s != [] && s[|s| - 1] == '\r' then s[..|s| - 1] else s
  }

  /** `str::lines`: a final line need not end in a line feed. */
  function Lines(s: string): seq<string>
    decreases |s|
  {
    if s == [] then []
    else
      var first := Before(s, '\n');
      BeforeIsPrefix(s, '\n');
      if |first| == |s| then [s] else [WithoutCr(first)] + Lines(s[|first| + 1..])
  }

  lemma BeforeIsPrefix(s: string, c: char)
    ensures |Before(s, c)| <= |s| && s[..|Before(s, c)|] == Before(s, c) && c !in Before(s, c)
    ensures |Before(s, c)| < |s| ==> s[|Before(s, c)|] == c
  {
    if s != [] && s[0] != c {
      BeforeIsPrefix(s[1..], c);
      assert s == [s[0]] + s[1..];
    }
  }

  function Quoted(s: string): string {
    "\"" + s + "\""
  }

  // ---- One line ---------------------------------------------------------------------

  /** What the scanner makes of a line. */
  datatype Kind = Id(id: nat) | Name | Other

  function KindOf(line: string, wanted: string): Kind {
    var trimmed := TrimStart(line);
    var id := if StartsWith(trimmed, "id ") then ParseU32(TrimEnd(TrimStart(Before(trimmed[3..], ',')))) else None;
    if id.Some? then Id(id.value)
    else if StartsWith(trimmed, "node.name") && Contains(trimmed, Quoted(wanted)) then Name
    else Other
  }

  function Find(lines: seq<string>, current: Option<nat>, wanted: string): Option<nat> {
    if lines == [] then None
    else match KindOf(lines[0], wanted)
      case Id(id) => Find(lines[1..], Some(id), wanted)
      case Name => if current.Some? then current else Find(lines[1..], current, wanted)
      case Other => Find(lines[1..], current, wanted)
  }

  method ParseNodeId(output: string, wanted: string) returns (r: Option<nat>)
    ensures r == Find(Lines(output), None, wanted)
  {
    var lines, currentId := Lines(output), None;
    for i := 0 to |lines|
      invariant Find(lines, None, wanted) == Find(lines[i..], currentId, wanted)
    {
      var kind := KindOf(lines[i], wanted);
      assert lines[i..][1..] == lines[i + 1..];
      if kind.Id? {
        currentId := Some(kind.id);
        continue;
      }
      if currentId.Some? && kind.Name? { return currentId; }
    }
    r := None;
  }

  // ---- The listing --------------------------------------------------------------------

  /** A node of the listing: its `id` line, then its properties, one of them its name. */
  datatype Block = Block(
    lead: string, id: nat, title: string, above: seq<string>, indent: string, name: string, below: seq<string>)

  function IdPart(b: Block): string {
    "id " + ToDecimal(b.id) + "," + b.title
  }

  function Header(b: Block): string {
    b.lead + IdPart(b)
  }

  function NameLine(b: Block): string {
    b.indent + ("node.name = " + Quoted(b.name))
  }

  function Rendered(b: Block): seq<string> {
    [Header(b)] + b.above + [NameLine(b)] + b.below
  }

  function Listing(blocks: seq<Block>): seq<string> {
    if blocks == [] then [] else Rendered(blocks[0]) + Listing(blocks[1..])
  }

  function Text(lines: seq<string>): string {
    if lines == [] then "" else lines[0] + "\n" + Text(lines[1..])
  }

  predicate IsProperty(line: string) {
    !StartsWith(TrimStart(line), "id ") && !StartsWith(TrimStart(line), "node.name")
  }

  predicate WellFormed(b: Block) {
    && b.id < U32_LIMIT && '\"' !in b.name
    && (forall c :: c in b.lead ==> IsSpace(c)) && (forall c :: c in b.indent ==> IsSpace(c))
    && (forall p :: p in b.above ==> IsProperty(p)) && (forall p :: p in b.below ==> IsProperty(p))
  }

  predicate OneLine(line: string) {
    '\n' !in line && (line != [] ==> line[|line| - 1] != '\r')
  }

  function FirstNamed(blocks: seq<Block>, wanted: string): Option<nat> {
    if blocks == [] then None
    else if blocks[0].name == wanted then Some(blocks[0].id)
    else FirstNamed(blocks[1..], wanted)
  }

  // ---- The scanner inverts the listing ----------------------------------------------------

  lemma NoCommaInDigits(digits: string, rest: string)
    requires AllDigits(digits)
    ensures Before(digits + "," + rest, ',') == digits
  {
    if digits == [] {
      assert digits + "," + rest == "," + rest;
    } else {
      NoCommaInDigits(digits[1..], rest);
      assert (digits + "," + rest)[1..] == digits[1..] + "," + rest;
      assert digits == [digits[0]] + digits[1..];
    }
  }

  lemma HeaderIsId(b: Block, wanted: string)
    requires b.id < U32_LIMIT && forall c :: c in b.lead ==> IsSpace(c)
    ensures KindOf(Header(b), wanted) == Id(b.id)
  {
    var digits := ToDecimal(b.id);
    var line := IdPart(b);
    assert line[0] == 'i';
    TrimIndent(b.lead, line);
    assert line[..3] == "id " && line[3..] == digits + "," + b.title;
    NoCommaInDigits(digits, b.title);
    assert IsDigit(digits[0]) && IsDigit(digits[|digits| - 1]);
    assert TrimEnd(TrimStart(digits)) == digits;
    ParseInvertsPrint(b.id);
  }

  lemma TrimIndent(indent: string, rest: string)
    requires forall c :: c in indent ==> IsSpace(c)
    requires rest != [] && !IsSpace(rest[0])
    ensures TrimStart(indent + rest) == rest
  {
    if indent == [] {
      assert indent + rest == rest;
    } else {
      assert (indent + rest)[1..] == indent[1..] + rest;
      TrimIndent(indent[1..], rest);
    }
  }

  lemma QuotePositions(head: string, name: string, k: nat)
    requires '\"' !in head && '\"' !in name && k < |head + Quoted(name)|
    ensures (head + Quoted(name))[k] == '\"' <==> k == |head| || k == |head| + |name| + 1
  {
    if k < |head| {
      assert head[k] in head;
    } else if |head| < k <= |head| + |name| {
      assert name[k - |head| - 1] in name;
    }
  }

  lemma OccursLetter(s: string, t: string, i: nat, k: nat)
    requires OccursAt(s, t, i) && k < |t|
    ensures s[i + k] == t[k]
  {
    assert s[i..i + |t|][k] == s[i + k];
  }

  lemma QuotedAt(head: string, name: string, wanted: string, i: nat)
    requires '\"' !in head && '\"' !in name
    requires OccursAt(head + Quoted(name), Quoted(wanted), i)
    ensures name == wanted
  {
    var line, t := head + Quoted(name), Quoted(wanted);
    OccursLetter(line, t, i, 0);
    OccursLetter(line, t, i, |t| - 1);
    QuotePositions(head, name, i);
    QuotePositions(head, name, i + |t| - 1);
    assert |name| == |wanted|;
    forall k | 0 <= k < |name| ensures name[k] == wanted[k] {
      OccursLetter(line, t, i, k + 1);
    }
  }

  /** With quotes only around the name, the quoted name wanted can occur there only. */
  lemma QuotedOnce(head: string, name: string, wanted: string)
    requires '\"' !in head && '\"' !in name
    ensures Contains(head + Quoted(name), Quoted(wanted)) <==> name == wanted
  {
    var line := head + Quoted(name);
    if Contains(line, Quoted(wanted)) {
      var i :| 0 <= i <= |line| && OccursAt(line, Quoted(wanted), i);
      QuotedAt(head, name, wanted, i);
    }
    assert line[|head|..] == Quoted(name);
    assert name == wanted ==> OccursAt(line, Quoted(wanted), |head|);
  }

  lemma NameLineKind(b: Block, wanted: string)
    requires WellFormed(b)
    ensures KindOf(NameLine(b), wanted) == if b.name == wanted then Name else Other
  {
    var head := "node.name = ";
    var rest := head + Quoted(b.name);
    assert NameLine(b) == b.indent + rest;
    TrimIndent(b.indent, rest);
    assert rest[0] == 'n' && rest[..9] == "node.name";
    assert !StartsWith(rest, "id ") by { assert |rest| >= 3 && rest[..3][0] == 'n'; }
    QuotedOnce(head, b.name, wanted);
  }

  lemma {:induction false} PropertiesAreSkipped(lines: seq<string>, rest: seq<string>, current: Option<nat>, wanted: string)
    requires forall p :: p in lines ==> IsProperty(p)
    ensures Find(lines + rest, current, wanted) == Find(rest, current, wanted)
  {
    if lines == [] {
      assert lines + rest == rest;
    } else {
      assert (lines + rest)[1..] == lines[1..] + rest;
      assert lines[0] in lines;
      PropertiesAreSkipped(lines[1..], rest, current, wanted);
    }
  }

  lemma FindStep(line: string, rest: seq<string>, current: Option<nat>, wanted: string)
    ensures Find([line] + rest, current, wanted) ==
      match KindOf(line, wanted)
      case Id(id) => Find(rest, Some(id), wanted)
      case Name => if current.Some? then current else Find(rest, current, wanted)
      case Other => Find(rest, current, wanted)
  {
    assert ([line] + rest)[1..] == rest;
  }

  lemma HeaderStep(b: Block, rest: seq<string>, current: Option<nat>, wanted: string)
    requires WellFormed(b)
    ensures Find([Header(b)] + rest, current, wanted) == Find(rest, Some(b.id), wanted)
  {
    HeaderIsId(b, wanted);
    FindStep(Header(b), rest, current, wanted);
  }

  lemma NameStep(b: Block, rest: seq<string>, wanted: string)
    requires WellFormed(b)
    ensures Find([NameLine(b)] + rest, Some(b.id), wanted)
         == if b.name == wanted then Some(b.id) else Find(rest, Some(b.id), wanted)
  {
    NameLineKind(b, wanted);
    FindStep(NameLine(b), rest, Some(b.id), wanted);
  }

  lemma Regrouped(h: seq<string>, above: seq<string>, n: seq<string>, below: seq<string>, rest: seq<string>)
    ensures h + above + n + below + rest == h + (above + (n + (below + rest)))
  {
  }

  lemma BlockDecides(b: Block, rest: seq<string>, current: Option<nat>, wanted: string)
    requires WellFormed(b)
    ensures Find(Rendered(b) + rest, current, wanted)
         == if b.name == wanted then Some(b.id) else Find(rest, Some(b.id), wanted)
  {
    var afterName := b.below + rest;
    var afterHeader := b.above + ([NameLine(b)] + afterName);
    Regrouped([Header(b)], b.above, [NameLine(b)], b.below, rest);
    HeaderStep(b, afterHeader, current, wanted);
    PropertiesAreSkipped(b.above, [NameLine(b)] + afterName, Some(b.id), wanted);
    NameStep(b, afterName, wanted);
    PropertiesAreSkipped(b.below, rest, Some(b.id), wanted);
  }

  lemma {:induction false} FindInverts(blocks: seq<Block>, current: Option<nat>, wanted: string)
    requires (forall b :: b in blocks ==> WellFormed(b))
    ensures Find(Listing(blocks), current, wanted) == FirstNamed(blocks, wanted)
  {
    if blocks != [] {
      BlockDecides(blocks[0], Listing(blocks[1..]), current, wanted);
      FindInverts(blocks[1..], Some(blocks[0].id), wanted);
    }
  }

  lemma BeforeLineFeed(line: string, rest: string)
    requires '\n' !in line
    ensures Before(line + "\n" + rest, '\n') == line
  {
    if line == [] {
      assert line + "\n" + rest == "\n" + rest;
    } else {
      BeforeLineFeed(line[1..], rest);
      assert (line + "\n" + rest)[1..] == line[1..] + "\n" + rest;
      assert line == [line[0]] + line[1..];
    }
  }

  lemma {:induction false} LinesInvertText(lines: seq<string>)
    requires forall l :: l in lines ==> OneLine(l)
    ensures Lines(Text(lines)) == lines
  {
    if lines != [] {
      var rest := Text(lines[1..]);
      assert lines[0] in lines;
      BeforeLineFeed(lines[0], rest);
      var s := lines[0] + "\n" + rest;
      assert s[|lines[0]| + 1..] == rest;
      LinesInvertText(lines[1..]);
    }
  }

  /** `parse_node_id` of a rendered listing is the id of the first block of that name. */
  lemma ParseInvertsListing(blocks: seq<Block>, wanted: string)
    requires (forall b :: b in blocks ==> WellFormed(b))
    requires forall l :: l in Listing(blocks) ==> OneLine(l)
    ensures Find(Lines(Text(Listing(blocks))), None, wanted) == FirstNamed(blocks, wanted)
  {
    LinesInvertText(Listing(blocks));
    FindInverts(blocks, None, wanted);
  }
}
