/** Reading the host port of a bridge out of `docker ps --format {{.Ports}}`. */
module Ports {
  import opened Common
  import opened Text

  const PORT: nat := 8000

  // ------------------------------------------------------------------
  // Numbers in decimal
  // ------------------------------------------------------------------

  function Digit(d: nat): char
    requires d < 10
  {
    '0' + d as char
  }

  predicate IsDigit(c: char) {
    '0' <= c <= '9'
  }

  function Decimal(n: nat): (s: string)
    ensures s != "" && forall c :: c in s ==> IsDigit(c)
  {
    if n < 10 then [Digit(n)] else Decimal(n / 10) + [Digit(n % 10)]
  }

  function Value(digits: string): nat
    requires forall c :: c in digits ==> IsDigit(c)
  {
    if digits == "" then 0
    else
      assert IsDigit(digits[|digits| - 1]);
      Value(digits[..|digits| - 1]) * 10 + (digits[|digits| - 1] as int - '0' as int)
  }

  lemma {:induction false} DecimalValue(n: nat)
    ensures Value(Decimal(n)) == n
  {
    if n < 10 {
      assert Decimal(n)[..0] == "";
    } else {
      DecimalValue(n / 10);
      assert Decimal(n)[..|Decimal(n)| - 1] == Decimal(n / 10);
    }
  }

  // `str::parse::<u16>`: digits, with or without a plus sign, that fit.
  function ParseU16(s: string): Option<nat> {
    var digits := if s != "" && s[0] == '+' then s[1..] else s;
    if digits == "" || exists c :: c in digits && !IsDigit(c) then None
    else if Value(digits) < 0x10000 then Some(Value(digits))
    else None
  }

  // A number is read from one digit or more, after a plus sign or none, and only
  // if it fits.
  lemma ParseMeans(s: string, n: nat)
    ensures ParseU16(s) == Some(n) <==> exists digits :: SpellsNumber(s, digits, n)
  {
    if ParseU16(s) == Some(n) {
      assert SpellsNumber(s, if s[0] == '+' then s[1..] else s, n);
    }
    if digits :| SpellsNumber(s, digits, n) {
      assert IsDigit(digits[0]);
      assert s != digits ==> s[1..] == digits;
    }
  }

  predicate SpellsNumber(s: string, digits: string, n: nat) {
    && (s == digits || s == "+" + digits) && digits != "" && (forall c :: c in digits ==> IsDigit(c))
    && Value(digits) == n && n <= 65535
  }

  // Each further digit is worth one, and shifts the others by ten.
  lemma ValueMeans(digits: string, d: nat)
    requires d < 10 && forall c :: c in digits ==> IsDigit(c)
    ensures Value(digits + [Digit(d)]) == 10 * Value(digits) + d
  {
    assert (digits + [Digit(d)])[..|digits|] == digits;
  }

  lemma ParsePrinted(n: nat)
    ensures ParseU16(Decimal(n)) == if n < 0x10000 then Some(n) else None
  {
    DecimalValue(n);
    assert IsDigit(Decimal(n)[0]);
  }

  // ------------------------------------------------------------------
  // The scan
  // ------------------------------------------------------------------

  // `split(", ")`.
  function Fields(s: string): (fields: seq<string>)
    ensures fields != []
    decreases |s|
  {
    match FirstGap(s)
    case None => [s]
    case Some(i) => [s[..i]] + Fields(s[i + 2..])
  }

  // Where the first comma followed by a space is.
  function FirstGap(s: string): (at: Option<nat>)
    ensures at.Some? ==> at.value + 2 <= |s|
  {
    if |s| < 2 then None
    else if s[0] == ',' && s[1] == ' ' then Some(0)
    else match FirstGap(s[1..])
      case None => None
      case Some(i) => Some(i + 1)
  }

  const SUFFIX := "->8000/tcp"

  predicate Ours(field: string) {
    |SUFFIX| <= |field| && field[|field| - |SUFFIX|..] == SUFFIX
  }

  // `rsplit_once(':')`: what follows the last colon.
  function AfterLastColon(s: string): Option<string> {
    if s == "" then None
    else match AfterLastColon(s[1..])
      case Some(rest) => Some(rest)
      case None => if s[0] == ':' then Some(s[1..]) else None
  }

  // The port of the first field that ends in our container port.
  function PortOf(fields: seq<string>): Option<nat> {
    if fields == [] then None
    else if Ours(fields[0]) then
      match AfterLastColon(fields[0][..|fields[0]| - |SUFFIX|])
      case None => None
      case Some(port) => ParseU16(port)
    else PortOf(fields[1..])
  }

  function Published(ports: string): Option<nat> {
    PortOf(Fields(ports))
  }

  // ------------------------------------------------------------------
  // What Docker prints
  // ------------------------------------------------------------------

  datatype Protocol = Tcp | Udp | Sctp

  // One publication: bound to an address of the host, or merely exposed.
  datatype Publication =
    | Bound(address: string, host: nat, inside: nat, protocol: Protocol)
    | Exposed(inside: nat, protocol: Protocol)

  predicate WellFormed(p: Publication) {
    p.Bound? ==> ',' !in p.address && p.host < 0x10000
  }

  function ProtocolName(p: Protocol): string {
    match p
    case Tcp => "tcp"
    case Udp => "udp"
    case Sctp => "sctp"
  }

  function Target(p: Publication): string {
    Decimal(p.inside) + "/" + ProtocolName(p.protocol)
  }

  function Print(p: Publication): string {
    match p
    case Bound(address, host, _, _) => (address + [':'] + Decimal(host)) + ("->" + Target(p))
    case Exposed(_, _) => Target(p)
  }

  function PrintAll(listing: seq<Publication>): string {
    if listing == [] then ""
    else if |listing| == 1 then Print(listing[0])
    else Print(listing[0]) + ", " + PrintAll(listing[1..])
  }

  // The host port our container port is bound to, by the first publication
  // that binds it.
  function HostPort(listing: seq<Publication>): Option<nat> {
    if listing == [] then None
    else if listing[0].Bound? && listing[0].inside == PORT && listing[0].protocol.Tcp? then Some(listing[0].host)
    else HostPort(listing[1..])
  }

  lemma {:induction false} GapAfter(field: string, rest: string)
    requires ',' !in field
    ensures FirstGap(field + ", " + rest) == Some(|field|)
  {
    var s := field + ", " + rest;
    if field == "" {
      assert s[0] == ',' && s[1] == ' ';
    } else {
      assert s[0] == field[0] && field[0] in field;
      assert s[1..] == field[1..] + ", " + rest;
      GapAfter(field[1..], rest);
    }
  }

  lemma {:induction false} NoGap(field: string)
    requires ',' !in field
    ensures FirstGap(field) == None
  {
    if |field| >= 2 {
      assert field[0] in field;
      NoGap(field[1..]);
    }
  }

  lemma {:induction false} ColonBefore(address: string, digits: string)
    requires ':' !in digits
    ensures AfterLastColon(address + [':'] + digits) == Some(digits)
  {
    var s := address + [':'] + digits;
    if address == "" {
      assert s[1..] == digits;
      NoColon(digits);
    } else {
      assert s[1..] == address[1..] + [':'] + digits;
      ColonBefore(address[1..], digits);
    }
  }

  lemma {:induction false} NoColon(s: string)
    requires ':' !in s
    ensures AfterLastColon(s) == None
  {
    if s != "" {
      assert s[0] in s;
      NoColon(s[1..]);
    }
  }

  lemma EightThousand()
    ensures Decimal(PORT) == "8000" && Value("8000") == PORT
  {
    assert Decimal(8) == "8" && Decimal(80) == "80" && Decimal(800) == "800";
    DecimalValue(PORT);
  }

  // A field whose tenth character from the end differs is not ours.
  lemma NotOurs(s: string, back: nat)
    requires 0 < back <= |SUFFIX|
    requires |s| < |SUFFIX| || s[|s| - back] != SUFFIX[|SUFFIX| - back]
    ensures !Ours(s)
  {
    if |SUFFIX| <= |s| {
      assert s[|s| - |SUFFIX|..][|SUFFIX| - back] == s[|s| - back];
    }
  }

  lemma OtherProtocol(before: string, protocol: Protocol)
    requires !protocol.Tcp?
    ensures !Ours(before + "/" + ProtocolName(protocol))
  {
    NotOurs(before + "/" + ProtocolName(protocol), if protocol.Udp? then 3 else 4);
  }

  lemma OtherPort(before: string, digits: string)
    requires before == "" || (|before| >= 2 && before[|before| - 2..] == "->")
    requires digits != "" && (forall c :: c in digits ==> IsDigit(c)) && (before == "" || digits != "8000")
    ensures !Ours(before + digits + "/tcp")
  {
    var s, d := before + digits + "/tcp", |digits|;
    if |s| >= |SUFFIX| {
      if d > 4 {
        assert s[|s| - 9] == digits[d - 5] && digits[d - 5] in digits;
        NotOurs(s, 9);
      } else {
        assert before[|before| - 1] == before[|before| - 2..][1] == '>';
        if d < 4 {
          assert s[|s| - 5 - d] == '>';
          assert SUFFIX[2] == '8' && SUFFIX[3] == '0' && SUFFIX[4] == '0' && SUFFIX[5] == '0';
          NotOurs(s, 5 + d);
        } else {
          var i :| 0 <= i < 4 && digits[i] != "8000"[i];
          assert s[|s| - 8 + i] == digits[i];
          NotOurs(s, 8 - i);
        }
      }
    }
  }

  lemma TcpIsOurPort(before: string, inside: nat)
    requires before == "" || (|before| >= 2 && before[|before| - 2..] == "->")
    ensures Ours(before + Decimal(inside) + "/tcp") <==> before != "" && inside == PORT
  {
    hide Decimal, Ours, Value;
    EightThousand();
    DecimalValue(inside);
    if before == "" || Decimal(inside) != "8000" {
      OtherPort(before, Decimal(inside));
    } else {
      OurSuffix(before, before + Decimal(inside) + "/tcp");
    }
  }

  // The suffix is found exactly after a bound publication of our port over TCP:
  // neither 18000 nor 800 nor another protocol ends in it.
  lemma OursIsOurPort(before: string, inside: nat, protocol: Protocol)
    requires before == "" || (|before| >= 2 && before[|before| - 2..] == "->")
    ensures Ours(before + Decimal(inside) + "/" + ProtocolName(protocol)) <==> before != "" && inside == PORT && protocol.Tcp?
  {
    hide Decimal, Ours;
    if protocol.Tcp? {
      assert before + Decimal(inside) + "/" + ProtocolName(protocol) == before + Decimal(inside) + "/tcp";
      TcpIsOurPort(before, inside);
    } else {
      OtherProtocol(before + Decimal(inside), protocol);
    }
  }

  lemma OurSuffix(before: string, s: string)
    requires |before| >= 2 && before[|before| - 2..] == "->" && s == before + "8000" + "/tcp"
    ensures Ours(s)
  {
    assert s[|s| - |SUFFIX|..] == before[|before| - 2..] + "8000" + "/tcp";
  }

  lemma PrintIsOneField(p: Publication)
    requires WellFormed(p)
    ensures ',' !in Print(p)
  {
  }

  // What one printed publication is read as.
  lemma FieldRead(p: Publication)
    requires WellFormed(p)
    ensures Ours(Print(p)) <==> HostPort([p]).Some?
    ensures Ours(Print(p)) ==> PortOf([Print(p)]) == HostPort([p])
  {
    match p {
      case Exposed(inside, protocol) =>
        OursIsOurPort("", inside, protocol);
        assert Print(p) == "" + Decimal(inside) + "/" + ProtocolName(protocol);
      case Bound(address, host, inside, protocol) =>
        var from := address + [':'] + Decimal(host);
        hide Decimal, Ours, AfterLastColon, ParseU16;
        OursIsOurPort(from + "->", inside, protocol);
        assert Print(p) == (from + "->") + Decimal(inside) + "/" + ProtocolName(protocol);
        if Ours(Print(p)) {
          EightThousand();
          assert Print(p)[..|Print(p)| - |SUFFIX|] == from;
          ColonBefore(address, Decimal(host));
          ParsePrinted(host);
        }
    }
  }

  lemma FieldsOfOne(field: string)
    requires ',' !in field
    ensures Fields(field) == [field]
  {
    NoGap(field);
  }

  lemma FieldsOfMore(field: string, rest: string)
    requires ',' !in field
    ensures Fields(field + ", " + rest) == [field] + Fields(rest)
  {
    var s := field + ", " + rest;
    GapAfter(field, rest);
    assert s[..|field|] == field && s[|field| + 2..] == rest;
  }

  lemma FirstField(field: string, fields: seq<string>)
    ensures PortOf([field] + fields) == if Ours(field) then PortOf([field]) else PortOf(fields)
  {
    hide Ours;
    assert ([field] + fields)[1..] == fields;
  }

  // For any listing, whatever colons its addresses hold, the port read is the
  // host port of the first publication that binds ours.
  lemma {:induction false} PublishedIsHostPort(listing: seq<Publication>)
    requires forall p :: p in listing ==> WellFormed(p)
    ensures Published(PrintAll(listing)) == HostPort(listing)
  {
    hide Ours, Print, WellFormed, PortOf, Fields;
    if listing == [] {
      FieldsOfOne("");
      OnlyEmpty();
    } else {
      var first := listing[0];
      assert WellFormed(first);
      PrintIsOneField(first);
      FieldRead(first);
      if |listing| == 1 {
        FieldsOfOne(Print(first));
        assert listing == [first];
        FirstField(Print(first), []);
        assert [Print(first)] + [] == [Print(first)];
        NoFields();
      } else {
        FieldsOfMore(Print(first), PrintAll(listing[1..]));
        FirstField(Print(first), Fields(PrintAll(listing[1..])));
        PublishedIsHostPort(listing[1..]);
      }
    }
  }

  lemma NoFields()
    ensures PortOf([]) == None
  {
  }

  lemma OnlyEmpty()
    ensures PortOf([""]) == None
  {
    assert [""][1..] == [];
  }
}
