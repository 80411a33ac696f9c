/** The relay ports of the built-in TURN server: the configured range, and the port chosen in 16-bit arithmetic. */
module PortRange {

  const WORD := 0x1_0000

  type uint16 = n: int | 0 <= n < WORD

  datatype Result<T> = Ok(value: T) | Err(error: string)

  // ---------- the configured range ----------

  /** strings.Split with a one-character separator. */
  function Split(s: string, sep: char): (parts: seq<string>)
    ensures parts != []
  {
    if s == "" then [""]
    else
      var rest := Split(s[1..], sep);
      if s[0] == sep then [""] + rest else [[s[0]] + rest[0]] + rest[1..]
  }

  predicate IsDigit(c: char) {
    '0' <= c <= '9'
  }

  /** The number that a string of decimal digits stands for. */
  function Value(digits: string): nat
    requires forall c | c in digits :: IsDigit(c)
  {
    if digits == "" then 0
    else
      var last := digits[|digits| - 1];
      assert IsDigit(last);
      10 * Value(digits[..|digits| - 1]) + (last as int - '0' as int)
  }

  /** strconv.ParseUint in base 10 for 16 bits. */
  function ParseUint16(s: string): Result<uint16> {
    if s == "" || exists c :: c in s && !IsDigit(c) then Err("invalid syntax")
    else if Value(s) >= WORD then Err("value out of range")
    else Ok(Value(s))
  }

  function ParsePortRange(text: string): Result<(uint16, uint16)> {
    if text == "" then Ok((0, 0))
    else
      var parts := Split(text, ':');
      if |parts| != 2 then Err("must include one colon")
      else
        var min := ParseUint16(parts[0]);
        if min.Err? then Err("invalid min: " + min.error)
        else
          var max := ParseUint16(parts[1]);
          if max.Err? then Err("invalid max: " + max.error)
          else Ok((min.value, max.value))
  }

  /** Config.PortRange: the range, and whether it is to be used. A text that does not parse reads as 0:0. */
  function PortRange(text: string): (uint16, uint16, bool) {
    match ParsePortRange(text)
    case Err(_) => (0, 0, false)
    case Ok((min, max)) => (min, max, min != 0 && max != 0)
  }

  datatype Verdict = Fine | FewPorts | Fatal(reason: string)

  function Sub16(a: uint16, b: uint16): uint16 { (a - b) % WORD }

  function Add16(a: uint16, b: uint16): uint16 { (a + b) % WORD }

  /** What Get says about the setting; a fatal entry ends the program. */
  function CheckPortRange(text: string): Verdict {
    match ParsePortRange(text)
    case Err(error) => Fatal(error)
    case Ok((min, max)) =>
      if min == 0 && max == 0 then Fine
      else if min == 0 || max == 0 then Fatal("min or max port is 0")
      else if min > max then Fatal("min port is higher than max port")
      else if Sub16(max, min) < 40 then FewPorts
      else Fine
  }

  // ---------- reading what was written ----------

  function Decimal(n: nat): (digits: string)
    ensures digits != "" && (forall c | c in digits :: IsDigit(c))
  {
    if n < 10 then [('0' as int + n) as char] else Decimal(n / 10) + [('0' as int + n % 10) as char]
  }

  lemma {:induction false} ValueOfDecimal(n: nat)
    ensures Value(Decimal(n)) == n
  {
    if n >= 10 {
      ValueOfDecimal(n / 10);
      assert Decimal(n)[..|Decimal(n)| - 1] == Decimal(n / 10);
    }
  }

  lemma {:induction false} SplitOne(s: string, sep: char)
    requires sep !in s
    ensures Split(s, sep) == [s]
  {
    if s != "" {
      SplitOne(s[1..], sep);
      assert [s[0]] + s[1..] == s;
    }
  }

  lemma {:induction false} SplitTwo(a: string, b: string, sep: char)
    requires sep !in a
    ensures Split(a + [sep] + b, sep) == [a] + Split(b, sep)
  {
    if a == "" {
      assert (a + [sep] + b)[1..] == b;
    } else {
      SplitTwo(a[1..], b, sep);
      assert (a + [sep] + b)[1..] == a[1..] + [sep] + b;
      assert [a[0]] + a[1..] == a;
    }
  }

  /** Every pair of ports can be configured: its decimal text reads back as the pair. */
  lemma RoundTrip(min: uint16, max: uint16)
    ensures ParsePortRange(Decimal(min) + ":" + Decimal(max)) == Ok((min, max))
  {
    SplitTwo(Decimal(min), Decimal(max), ':');
    SplitOne(Decimal(max), ':');
    ValueOfDecimal(min);
    ValueOfDecimal(max);
  }

  lemma {:induction false} SplitJoins(s: string, sep: char)
    ensures var parts := Split(s, sep);
      && (|parts| == 1 ==> s == parts[0])
      && (|parts| == 2 ==> s == parts[0] + [sep] + parts[1])
  {
    if s != "" {
      SplitJoins(s[1..], sep);
      assert s == [s[0]] + s[1..];
    }
  }

  /** digits is a decimal number of 16 bits. */
  ghost predicate Reads(digits: string, n: int) {
    digits != "" && (forall c | c in digits :: IsDigit(c)) && Value(digits) == n && n < WORD
  }

  /** text is lo:hi in decimal. */
  ghost predicate ReadsAs(text: string, min: int, max: int) {
    exists lo, hi :: Reads(lo, min) && Reads(hi, max) && text == lo + ":" + hi
  }

  /** Nothing but the empty text and two such numbers with a colon between them is read, and it is read as these. */
  lemma ParsesExactly(text: string, min: uint16, max: uint16)
    ensures ParsePortRange(text) == Ok((min, max)) <==>
      if text == "" then min == 0 && max == 0 else ReadsAs(text, min, max)
  {
    SplitJoins(text, ':');
    if text != "" && ParsePortRange(text).Ok? {
      var parts := Split(text, ':');
      assert Reads(parts[0], ParseUint16(parts[0]).value) && Reads(parts[1], ParseUint16(parts[1]).value);
    }
    if lo, hi :| Reads(lo, min) && Reads(hi, max) && text == lo + ":" + hi {
      SplitTwo(lo, hi, ':');
      SplitOne(hi, ':');
    }
  }

  /** Get lets exactly these settings pass: none, 0:0, and a range from 1 up with min at most max. */
  lemma PassesExactly(text: string)
    ensures !CheckPortRange(text).Fatal? <==>
      text == "" || exists min, max :: ReadsAs(text, min, max) && (min == max == 0 || 1 <= min <= max)
  {
    hide ReadsAs;
    if ParsePortRange(text).Ok? {
      var (min, max) := ParsePortRange(text).value;
      ParsesExactly(text, min, max);
    }
    if min, max :| ReadsAs(text, min, max) && (min == max == 0 || 1 <= min <= max) {
      ReadsWords(text, min, max);
      ParsesExactly(text, min, max);
    }
  }

  lemma ReadsWords(text: string, min: int, max: int)
    requires ReadsAs(text, min, max)
    ensures text != "" && 0 <= min < WORD && 0 <= max < WORD
  {
  }

  /** A setting that Get lets pass has no range in use, or one from 1 up with min at most max. */
  lemma AcceptedRange(text: string)
    requires !CheckPortRange(text).Fatal?
    ensures var (min, max, used) := PortRange(text);
      if used then 1 <= min <= max < WORD else min == 0 && max == 0
  {
  }

  /** And every such range is let pass. */
  lemma EveryRangeIsAccepted(min: uint16, max: uint16)
    requires 1 <= min <= max
    ensures var text := Decimal(min) + ":" + Decimal(max);
      && PortRange(text) == (min, max, true)
      && CheckPortRange(text) == if max - min < 40 then FewPorts else Fine
  {
    RoundTrip(min, max);
  }

  // ---------- the port ----------

  /** The argument of Intn: (r.MaxPort+1)-r.MinPort in uint16. */
  function Span(min: uint16, max: uint16): uint16 {
    Sub16(Add16(max, 1), min)
  }

  /** r.MinPort + uint16(offset). */
  function PortAt(min: uint16, offset: nat): uint16 {
    Add16(min, offset % WORD)
  }

  /** Also for max = 65535, where MaxPort+1 wraps to 0. */
  lemma SpanOfRange(min: uint16, max: uint16)
    requires 1 <= min <= max
    ensures Span(min, max) == max - min + 1 && Span(min, max) > 0
  {
  }

  /** Over all pairs of ports, Intn would panic exactly where the range is empty modulo 2^16. */
  lemma SpanIsZeroExactly(min: uint16, max: uint16)
    ensures Span(min, max) == 0 <==> min == (max + 1) % WORD
  {
  }

  predicate Within(min: uint16, max: uint16, port: int) {
    min <= port <= max
  }

  /** The offsets that Intn can return name every port of the range, each once, and no other. */
  lemma OffsetsNamePorts(min: uint16, max: uint16)
    requires 1 <= min <= max
    ensures forall k: nat | k < Span(min, max) :: Within(min, max, PortAt(min, k)) && PortAt(min, k) - min == k
    ensures forall port | Within(min, max, port) :: 0 <= port - min < Span(min, max) && PortAt(min, port - min) == port
  {
  }

  // ---------- AllocatePacketConn ----------

  /** One call of net.ListenPacket. */
  datatype Attempt = Attempt(port: int, ok: bool)

  class Network {
    ghost var attempts: seq<Attempt>

    constructor ()
      ensures attempts == []
    {
      attempts := [];
    }

    /** Whether the port could be bound is up to the system. */
    method ListenPacket(port: int) returns (ok: bool)
      modifies this
      ensures attempts == old(attempts) + [Attempt(port, ok)]
    {
      ok := *;
      attempts := attempts + [Attempt(port, ok)];
    }
  }

  class RelayAddressGeneratorPortRange {
    const minPort: uint16
    const maxPort: uint16

    constructor (minPort: uint16, maxPort: uint16)
      ensures this.minPort == minPort && this.maxPort == maxPort
    {
      this.minPort, this.maxPort := minPort, maxPort;
    }

    /** The random source; asking it for less than one number panics. */
    method Intn(n: int) returns (k: nat)
      requires n > 0
      ensures k < n
    {
      k :| k < n;
    }

    /** None of these ports could be bound, and all are of the range. */
    ghost predicate AllTaken(tried: seq<Attempt>) {
      forall attempt | attempt in tried :: !attempt.ok && Within(minPort, maxPort, attempt.port)
    }

    /** A requested port is tried once; otherwise up to ten ports of the range are, until one is free. */
    method AllocatePacketConn(requestedPort: int, network: Network) returns (r: Result<int>, ghost tried: seq<Attempt>)
      requires requestedPort == 0 ==> 1 <= minPort <= maxPort
      modifies network
      ensures network.attempts == old(network.attempts) + tried
      ensures requestedPort != 0 ==> tried == [Attempt(requestedPort, r.Ok?)] && (r.Ok? ==> r.value == requestedPort)
      ensures requestedPort == 0 && r.Err? ==> |tried| == 10 && AllTaken(tried)
      ensures requestedPort == 0 && r.Ok? ==>
        && 1 <= |tried| <= 10 && AllTaken(tried[..|tried| - 1])
        && tried[|tried| - 1] == Attempt(r.value, true) && Within(minPort, maxPort, r.value)
    {
      if requestedPort != 0 {
        var ok := network.ListenPacket(requestedPort);
        return if ok then Ok(requestedPort) else Err("listen failed"), [Attempt(requestedPort, ok)];
      }
      SpanOfRange(minPort, maxPort);
      OffsetsNamePorts(minPort, maxPort);
      tried := [];
      for try := 0 to 10
        invariant network.attempts == old(network.attempts) + tried && |tried| == try && AllTaken(tried)
      {
        var offset := Intn(Span(minPort, maxPort));
        var port := PortAt(minPort, offset);
        var ok := network.ListenPacket(port);
        ghost var before := tried;
        tried := tried + [Attempt(port, ok)];
        assert tried[..|tried| - 1] == before;
        if !ok {
          continue;
        }
        return Ok(port), tried;
      }
      return Err("could not find free port: max retries exceeded"), tried;
    }
  }
}
