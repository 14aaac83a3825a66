/** Connection names (src/TcpServer.cc:63-66) and the ip:port text in them (src/InetAddress.cc:18-28). */
module Names {
  const INT_MAX: nat := 0x7fff_ffff

  /** %d and %u of a non-negative number. */
  function Decimal(n: nat): string {
    if n < 10 then [Digit(n)] else Decimal(n / 10) + [Digit(n % 10)]
  }

  function Digit(d: nat): char
    requires d < 10
  {
    '0' + d as char
  }

  /** The number a decimal text denotes. */
  function Value(s: string): int {
    if s == [] then 0 else 10 * Value(s[..|s| - 1]) + (s[|s| - 1] as int - '0' as int)
  }

  lemma {:induction false} DecimalRoundTrip(n: nat)
    ensures Value(Decimal(n)) == n
  {
    if n < 10 {
      assert Decimal(n)[..0] == [];
    } else {
      DecimalRoundTrip(n / 10);
      assert Decimal(n)[..|Decimal(n)| - 1] == Decimal(n / 10);
    }
  }

  function Pow10(k: nat): nat {
    if k == 0 then 1 else 10 * Pow10(k - 1)
  }

  lemma {:induction false} DecimalLength(n: nat, k: nat)
    requires 0 < k && n < Pow10(k)
    ensures 1 <= |Decimal(n)| <= k
    decreases k
  {
    if n >= 10 {
      assert k != 1;
      DecimalLength(n / 10, k - 1);
    }
  }

  datatype Endpoint = Endpoint(a: nat, b: nat, c: nat, d: nat, port: nat) {
    predicate Valid() {
      a < 256 && b < 256 && c < 256 && d < 256 && port < 65536
    }
  }

  /** toIpPort: inet_ntop of an IPv4 address, a colon and the port. */
  function IpPort(e: Endpoint): string {
    Decimal(e.a) + "." + Decimal(e.b) + "." + Decimal(e.c) + "." + Decimal(e.d) + ":" + Decimal(e.port)
  }

  lemma IpPortLength(e: Endpoint)
    requires e.Valid()
    ensures |IpPort(e)| <= 21
  {
    assert Pow10(3) == 1000 && Pow10(5) == 100000;
    DecimalLength(e.a, 3);
    DecimalLength(e.b, 3);
    DecimalLength(e.c, 3);
    DecimalLength(e.d, 3);
    DecimalLength(e.port, 5);
  }

  /** snprintf into a buffer of 64 bytes keeps at most 63 characters. */
  function Cut(s: string): string {
    if |s| <= 63 then s else s[..63]
  }

  function Suffix(e: Endpoint, id: nat): string {
    "-" + IpPort(e) + "#" + Decimal(id)
  }

  /** The name of connection id of a server listening at e. */
  function ConnName(server: string, e: Endpoint, id: nat): string {
    server + Cut(Suffix(e, id))
  }

  /** For every id an int can hold, the formatted part fits its buffer. */
  lemma SuffixFits(e: Endpoint, id: nat)
    requires e.Valid() && id <= INT_MAX
    ensures Cut(Suffix(e, id)) == Suffix(e, id)
  {
    IpPortLength(e);
    assert Pow10(10) == 10 * Pow10(9) && Pow10(9) == 10 * Pow10(8) && Pow10(8) == 10 * Pow10(7);
    assert Pow10(7) == 10 * Pow10(6) && Pow10(6) == 10 * Pow10(5) && Pow10(5) == 100000;
    DecimalLength(id, 10);
  }

  /** Until the id counter overflows, connection names are injective in the id. */
  lemma NamesAreUnique(server: string, e: Endpoint, id: nat, other: nat)
    requires e.Valid() && id <= INT_MAX && other <= INT_MAX
    ensures ConnName(server, e, id) == ConnName(server, e, other) <==> id == other
  {
    SuffixFits(e, id);
    SuffixFits(e, other);
    DecimalRoundTrip(id);
    DecimalRoundTrip(other);
    var head := server + ("-" + IpPort(e) + "#");
    assert ConnName(server, e, id) == head + Decimal(id);
    assert ConnName(server, e, other) == head + Decimal(other);
    assert (head + Decimal(id))[|head|..] == Decimal(id);
    assert (head + Decimal(other))[|head|..] == Decimal(other);
  }

  // ---------------------------------------------------------------- reading a name back

  predicate IsDigit(c: char) {
    '0' <= c <= '9'
  }

  /** No number is being read at the end of the text. */
  predicate EndsOpen(s: string) {
    s == [] || !IsDigit(s[|s| - 1])
  }

  /** The numbers in a text, from left to right: its longest stretches of digits. */
  function Numbers(s: string): seq<int> {
    if s == [] then []
    else WithChar(Numbers(s[..|s| - 1]), EndsOpen(s[..|s| - 1]), s[|s| - 1])
  }

  /** The numbers read, once one more character is. */
  function WithChar(r: seq<int>, open: bool, c: char): seq<int> {
    if !IsDigit(c) then r
    else
      var d := c as int - '0' as int;
      if open || r == [] then r + [d] else r[..|r| - 1] + [10 * r[|r| - 1] + d]
  }

  /** What is between the numbers. */
  function Separators(s: string): string {
    if s == [] then []
    else Separators(s[..|s| - 1]) + (if IsDigit(s[|s| - 1]) then [] else [s[|s| - 1]])
  }

  lemma DigitValue(d: nat)
    requires d < 10
    ensures IsDigit(Digit(d)) && Digit(d) as int - '0' as int == d
  {}

  /** Reading goes character by character. */
  lemma {:induction false} ReadOneMore(s: string, c: char)
    ensures Numbers(s + [c]) == WithChar(Numbers(s), EndsOpen(s), c)
    ensures Separators(s + [c]) == Separators(s) + (if IsDigit(c) then [] else [c])
    ensures EndsOpen(s + [c]) <==> !IsDigit(c)
  {
    hide WithChar, IsDigit;
    var t := s + [c];
    assert t[..|t| - 1] == s && t[|t| - 1] == c;
  }

  /** A number formatted after a separator is read back as one number. */
  lemma {:induction false} NumberReadsBack(s: string, n: nat)
    requires EndsOpen(s)
    ensures Numbers(s + Decimal(n)) == Numbers(s) + [n]
    ensures Separators(s + Decimal(n)) == Separators(s)
    ensures !EndsOpen(s + Decimal(n))
    decreases n
  {
    hide Numbers, Separators, EndsOpen, Digit, IsDigit;
    DigitValue(n % 10);
    if n < 10 {
      ReadOneMore(s, Digit(n));
      assert Separators(s) + [] == Separators(s);
    } else {
      var before := s + Decimal(n / 10);
      NumberReadsBack(s, n / 10);
      ReadOneMore(before, Digit(n % 10));
      assert s + Decimal(n) == before + [Digit(n % 10)];
      assert Numbers(before)[..|Numbers(before)| - 1] == Numbers(s);
      assert Separators(before) + [] == Separators(before);
    }
  }

  /** One more separator and number. */
  lemma {:induction false} FieldReadsBack(s: string, c: char, n: nat, t: string)
    requires !IsDigit(c) && t == s + [c] + Decimal(n)
    ensures Numbers(t) == Numbers(s) + [n] && Separators(t) == Separators(s) + [c]
  {
    hide Numbers, Separators, EndsOpen, Decimal;
    ReadOneMore(s, c);
    NumberReadsBack(s + [c], n);
  }

  /**
    For every id an int can hold, a connection's name is the server's name followed by a text that
    reads back to the four octets of the address in order, the port and the id.
  */
  lemma {:induction false} NameReadsBack(server: string, e: Endpoint, id: nat)
    requires e.Valid() && id <= INT_MAX
    ensures var name := ConnName(server, e, id);
            && server <= name
            && Numbers(name[|server|..]) == [e.a, e.b, e.c, e.d, e.port, id]
            && Separators(name[|server|..]) == "-...:#"
  {
    hide Decimal, Numbers, Separators, IpPort, Suffix;
    SuffixFits(e, id);
    SuffixReadsBack(e, id);
    assert ConnName(server, e, id)[|server|..] == Suffix(e, id);
  }

  lemma {:induction false} IpPortReadsBack(e: Endpoint, s: string)
    requires s == "-" + IpPort(e)
    ensures Numbers(s) == [e.a, e.b, e.c, e.d, e.port] && Separators(s) == "-...:"
  {
    hide Decimal, Numbers, Separators;
    var t1 := "-" + Decimal(e.a);
    var t2 := t1 + "." + Decimal(e.b);
    var t3 := t2 + "." + Decimal(e.c);
    var t4 := t3 + "." + Decimal(e.d);
    assert s == t4 + ":" + Decimal(e.port);
    assert t1 == [] + "-" + Decimal(e.a);
    NothingReadsBack();
    FieldReadsBack([], '-', e.a, t1);
    FieldReadsBack(t1, '.', e.b, t2);
    FieldReadsBack(t2, '.', e.c, t3);
    FieldReadsBack(t3, '.', e.d, t4);
    FieldReadsBack(t4, ':', e.port, s);
  }

  lemma NothingReadsBack()
    ensures Numbers([]) == [] && Separators([]) == []
  {}

  lemma {:induction false} SuffixReadsBack(e: Endpoint, id: nat)
    ensures Numbers(Suffix(e, id)) == [e.a, e.b, e.c, e.d, e.port, id]
    ensures Separators(Suffix(e, id)) == "-...:#"
  {
    hide Decimal, Numbers, Separators, IpPort;
    var front := "-" + IpPort(e);
    IpPortReadsBack(e, front);
    FieldReadsBack(front, '#', id, Suffix(e, id));
  }
}
