/** RPC quantities: subscription ids made of random bytes, and block numbers. */
module Quantity {
  import opened Basics

  const HEX: string := "0123456789abcdef"

  /** A digit as `strconv.ParseUint` reads it in base 16, or 16. */
  function HexValue(c: char): nat {
    if '0' <= c <= '9' then c as int - '0' as int
    else if 'a' <= c <= 'f' then c as int - 'a' as int + 10
    else if 'A' <= c <= 'F' then c as int - 'A' as int + 10
    else 16
  }

  predicate IsHex(s: string) {
    forall i :: 0 <= i < |s| ==> HexValue(s[i]) < 16
  }

  /** Digits as the code writes them. */
  ghost predicate Lower(s: string) {
    forall i :: 0 <= i < |s| ==> '0' <= s[i] <= '9' || 'a' <= s[i] <= 'f'
  }

  /** The number that hexadecimal digits denote. */
  function Number(s: string): nat {
    if s == [] then 0 else 16 * Number(s[..|s| - 1]) + HexValue(s[|s| - 1])
  }

  // ---------------------------------------------------------------------------------------------
  // encodeID

  /** The value of some bytes, most significant first. */
  function BigEndian(b: seq<nat>): nat {
    if b == [] then 0 else 256 * BigEndian(b[..|b| - 1]) + b[|b| - 1]
  }

  ghost predicate Bytes(b: seq<nat>) {
    forall i :: 0 <= i < |b| ==> b[i] < 256
  }

  function HexEncode(b: seq<nat>): string
    requires Bytes(b)
  {
    if b == [] then [] else
      HexEncode(b[..|b| - 1]) + [HEX[b[|b| - 1] / 16], HEX[b[|b| - 1] % 16]]
  }

  function TrimZeros(s: string): string {
    if s != [] && s[0] == '0' then TrimZeros(s[1..]) else s
  }

  function EncodeID(b: seq<nat>): string
    requires Bytes(b)
  {
    var id := TrimZeros(HexEncode(b));
    "0x" + if id == "" then "0" else id
  }

  lemma HexDigit(v: nat)
    requires v < 16
    ensures HexValue(HEX[v]) == v && Lower([HEX[v]])
  {
  }

  lemma {:induction false} HexEncodeLower(b: seq<nat>)
    requires Bytes(b)
    ensures Lower(HexEncode(b))
  {
    if b != [] {
      HexEncodeLower(b[..|b| - 1]);
      HexDigit(b[|b| - 1] / 16);
      HexDigit(b[|b| - 1] % 16);
    }
  }

  lemma {:induction false} HexEncodeValue(b: seq<nat>)
    requires Bytes(b)
    ensures Number(HexEncode(b)) == BigEndian(b) && IsHex(HexEncode(b))
  {
    if b != [] {
      var init, x := b[..|b| - 1], b[|b| - 1];
      HexEncodeValue(init);
      HexDigit(x / 16);
      HexDigit(x % 16);
      var s := HexEncode(b);
      assert s[..|s| - 1] == HexEncode(init) + [HEX[x / 16]];
      assert s[..|s| - 1][..|s| - 2] == HexEncode(init);
    }
  }

  lemma {:induction false} LeadingZero(s: string)
    requires s != [] && s[0] == '0'
    ensures Number(s[1..]) == Number(s)
  {
    if |s| == 1 {
      assert s[1..] == [] && s[..0] == [];
    } else {
      LeadingZero(s[..|s| - 1]);
      assert s[1..][..|s| - 2] == s[..|s| - 1][1..];
    }
  }

  lemma {:induction false} TrimKeeps(s: string)
    ensures var t := TrimZeros(s); Number(t) == Number(s) && (t == "" || t[0] != '0')
    ensures (IsHex(s) ==> IsHex(TrimZeros(s))) && (Lower(s) ==> Lower(TrimZeros(s)))
  {
    if s != [] && s[0] == '0' {
      LeadingZero(s);
      TrimKeeps(s[1..]);
    }
  }

  /** A quantity: "0x", then digits without a superfluous leading zero. */
  ghost predicate IsQuantity(q: string) {
    |q| > 2 && q[..2] == "0x" && IsHex(q[2..]) && (|q| > 3 ==> q[2] != '0')
  }

  /** An encoded id is a quantity, and denotes the value of its bytes. */
  lemma EncodeIDValue(b: seq<nat>)
    requires Bytes(b)
    ensures IsQuantity(EncodeID(b)) && Lower(EncodeID(b)[2..]) && Number(EncodeID(b)[2..]) == BigEndian(b)
  {
    HexEncodeValue(b);
    HexEncodeLower(b);
    TrimKeeps(HexEncode(b));
    var id := TrimZeros(HexEncode(b));
    assert EncodeID(b)[2..] == if id == "" then "0" else id;
    assert "0"[..0] == "";
  }

  lemma {:induction false} BigEndianInjective(a: seq<nat>, b: seq<nat>)
    requires Bytes(a) && Bytes(b) && |a| == |b| && BigEndian(a) == BigEndian(b)
    ensures a == b
  {
    if a != [] {
      BigEndianInjective(a[..|a| - 1], b[..|b| - 1]);
      assert a == a[..|a| - 1] + [a[|a| - 1]];
      assert b == b[..|b| - 1] + [b[|b| - 1]];
    }
  }

  /** Different bytes (as many on both sides) make different ids. */
  lemma EncodeIDInjective(a: seq<nat>, b: seq<nat>)
    requires Bytes(a) && Bytes(b) && |a| == |b| && EncodeID(a) == EncodeID(b)
    ensures a == b
  {
    EncodeIDValue(a);
    EncodeIDValue(b);
    BigEndianInjective(a, b);
  }

  // ---------------------------------------------------------------------------------------------
  // Block numbers

  /** The hexadecimal text of a number, as `hexutil.EncodeBig` writes it after "0x". */
  function HexText(n: nat): (s: string)
    ensures s != []
  {
    if n < 16 then [HEX[n]] else HexText(n / 16) + [HEX[n % 16]]
  }

  lemma {:induction false} HexTextValue(n: nat)
    ensures Number(HexText(n)) == n && IsHex(HexText(n))
    ensures |HexText(n)| > 1 ==> HexText(n)[0] != '0'
  {
    var s := HexText(n);
    if n < 16 {
      HexDigit(n);
      assert s[..0] == [];
    } else {
      HexTextValue(n / 16);
      HexDigit(n % 16);
      assert s[..|s| - 1] == HexText(n / 16);
      if n / 16 < 16 {
        assert HexText(n / 16) == [HEX[n / 16]];
        HexDigit(n / 16);
      }
    }
  }

  lemma {:induction false} HexTextLower(n: nat)
    ensures Lower(HexText(n))
  {
    HexDigit(n % 16);
    if n >= 16 {
      HexTextLower(n / 16);
    }
  }

  /** `ToBlockNumArg`; the argument is a big integer or nil. */
  function ToBlockNumArg(number: Option<int>): string {
    if number.None? then "latest"
    else if number.value == -1 then "pending"
    else if number.value < 0 then "-0x" + HexText(-number.value)
    else "0x" + HexText(number.value)
  }

  /** The text of every argument: a tag for nil and for -1, and otherwise a quantity, signed if negative. */
  lemma BlockNumArgText(number: Option<int>)
    ensures var arg := ToBlockNumArg(number);
            && (number.None? ==> arg == "latest")
            && (number == Some(-1) ==> arg == "pending")
            && (number.Some? && number.value >= 0 ==>
                  IsQuantity(arg) && Lower(arg[2..]) && Number(arg[2..]) == number.value)
            && (number.Some? && number.value < -1 ==>
                  arg[0] == '-' && IsQuantity(arg[1..]) && Lower(arg[3..]) && Number(arg[3..]) == -number.value)
  {
    if number.Some? && number.value >= 0 {
      HexTextValue(number.value);
      HexTextLower(number.value);
      assert ToBlockNumArg(number)[2..] == HexText(number.value);
    } else if number.Some? && number.value < -1 {
      HexTextValue(-number.value);
      HexTextLower(-number.value);
      assert ToBlockNumArg(number)[1..][2..] == HexText(-number.value);
    }
  }

  const PENDING_BLOCK_NUMBER: int := -2
  const LATEST_BLOCK_NUMBER: int := -1
  const EARLIEST_BLOCK_NUMBER: int := 0

  predicate IsSpace(c: char) {
    c in " \t\n\r\U{0B}\U{0C}\U{85}\U{A0}"
  }

  function TrimLeft(s: string): (t: string)
    ensures |t| <= |s|
  {
    if s != [] && IsSpace(s[0]) then TrimLeft(s[1..]) else s
  }

  function TrimRight(s: string): (t: string)
    ensures |t| <= |s|
  {
    if s != [] && IsSpace(s[|s| - 1]) then TrimRight(s[..|s| - 1]) else s
  }

  /** `hexutil.DecodeUint64`. */
  function DecodeUint64(input: string): Option<nat> {
    if |input| < 2 || input[0] != '0' || (input[1] != 'x' && input[1] != 'X') then None
    else
      var digits := input[2..];
      if digits == [] || (|digits| > 1 && digits[0] == '0') then None
      else if !IsHex(digits) || Number(digits) >= TWO_64 then None
      else Some(Number(digits))
  }

  function Unquoted(input: string): string {
    if |input| >= 2 && input[0] == '"' && input[|input| - 1] == '"' then input[1..|input| - 1] else input
  }

  /** `BlockNumber.UnmarshalJSON`; `None` is an error. */
  function UnmarshalBlockNumber(data: string): Option<int> {
    NumberOrTag(Unquoted(TrimRight(TrimLeft(data))))
  }

  function NumberOrTag(input: string): Option<int> {
    if input == "earliest" then Some(EARLIEST_BLOCK_NUMBER)
    else if input == "latest" then Some(LATEST_BLOCK_NUMBER)
    else if input == "pending" then Some(PENDING_BLOCK_NUMBER)
    else
      var n := DecodeUint64(input);
      if n.None? || n.value > TWO_63 - 1 then None else Some(n.value)
  }

  function Quoted(s: string): string {
    "\"" + s + "\""
  }

  lemma QuotedDecodes(s: string)
    ensures Unquoted(TrimRight(TrimLeft(Quoted(s)))) == s
  {
  }

  /** Decoding what `ToBlockNumArg` writes, for every argument: block numbers below 2^63 come back;
      larger ones are errors, and so are negative ones except -1, which comes back as -2; nil is the
      latest block. */
  lemma BlockNumArgRoundTrip(number: Option<int>)
    ensures UnmarshalBlockNumber(Quoted(ToBlockNumArg(number))) ==
            if number.None? then Some(LATEST_BLOCK_NUMBER)
            else if number.value == -1 then Some(PENDING_BLOCK_NUMBER)
            else if 0 <= number.value < TWO_63 then Some(number.value)
            else None
  {
    QuotedDecodes(ToBlockNumArg(number));
    if number.Some? && number.value >= 0 {
      HexIsNumber(number.value);
    } else if number.Some? && number.value < -1 {
      SignIsRefused(HexText(-number.value));
    }
  }

  lemma HexIsNumber(n: nat)
    ensures NumberOrTag("0x" + HexText(n)) == if n < TWO_63 then Some(n) else None
  {
    var s := "0x" + HexText(n);
    HexTextValue(n);
    assert s[2..] == HexText(n);
    assert s[1] == 'x';
  }

  lemma SignIsRefused(digits: string)
    ensures NumberOrTag("-0x" + digits).None?
  {
    assert ("-0x" + digits)[0] == '-';
  }

  // Every text

  ghost predicate Spaces(s: string) {
    forall i :: 0 <= i < |s| ==> IsSpace(s[i])
  }

  /** There are no spaces around. */
  ghost predicate Bare(t: string) {
    t != "" ==> !IsSpace(t[0]) && !IsSpace(t[|t| - 1])
  }

  /** The number after "0x", without a superfluous zero. */
  ghost predicate Hexadecimal(s: string, n: nat) {
    && |s| > 2 && s[0] == '0' && (s[1] == 'x' || s[1] == 'X') && IsHex(s[2..]) && (|s| > 3 ==> s[2] != '0')
    && Number(s[2..]) == n
  }

  /** A tag, or a number below 2^63. */
  ghost predicate DenotesBlock(s: string, n: int) {
    || (s == "earliest" && n == 0)
    || (s == "latest" && n == -1)
    || (s == "pending" && n == -2)
    || (0 <= n < TWO_63 && Hexadecimal(s, n))
  }

  lemma NumberOrTagDenotes(s: string, n: int)
    ensures NumberOrTag(s) == Some(n) <==> DenotesBlock(s, n)
  {
  }

  lemma {:induction false} TrimLeftBare(a: string, t: string)
    requires Spaces(a) && (t != "" ==> !IsSpace(t[0]))
    ensures TrimLeft(a + t) == t
  {
    if a == "" {
      assert a + t == t;
    } else {
      assert (a + t)[1..] == a[1..] + t;
      TrimLeftBare(a[1..], t);
    }
  }

  lemma {:induction false} TrimRightBare(t: string, b: string)
    requires Spaces(b) && (t != "" ==> !IsSpace(t[|t| - 1]))
    ensures TrimRight(t + b) == t
  {
    if b == "" {
      assert t + b == t;
    } else {
      assert (t + b)[..|t + b| - 1] == t + b[..|b| - 1];
      TrimRightBare(t, b[..|b| - 1]);
    }
  }

  lemma TrimBare(a: string, t: string, b: string)
    requires Spaces(a) && Spaces(b) && Bare(t)
    ensures TrimRight(TrimLeft(a + t + b)) == t
  {
    if t == "" {
      assert a + t + b == (a + b) + "" && Spaces(a + b);
      TrimLeftBare(a + b, "");
    } else {
      assert a + t + b == a + (t + b);
      TrimLeftBare(a, t + b);
      TrimRightBare(t, b);
    }
  }

  /** A text, with any spaces around it, is decoded to a block number exactly if it denotes that, or does
      so without its quotes. */
  lemma UnmarshalExactlyIf(a: string, t: string, b: string, n: int)
    requires Spaces(a) && Spaces(b) && Bare(t)
    ensures UnmarshalBlockNumber(a + t + b) == Some(n) <==>
            DenotesBlock(if |t| >= 2 && t[0] == '"' && t[|t| - 1] == '"' then t[1..|t| - 1] else t, n)
  {
    TrimBare(a, t, b);
    NumberOrTagDenotes(Unquoted(t), n);
  }
}
