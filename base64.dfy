/** `atob`: the forgiving base64 decoding of the HTML standard (whitespace is dropped,
    one or two trailing `=` are removed when the length is a multiple of four, a length of
    one more than a multiple of four or a character outside `A–Z a–z 0–9 + /` fails), and
    the padded standard encoding it inverts. */
module Base64 {
  import opened Wrappers
  import opened Text

  /** ASCII whitespace: tab, line feed, form feed, carriage return and space. */
  predicate IsAsciiWhitespace(c: char)
  {
    c == '\t' || c == '\n' || c as int == 12 || c == '\r' || c == ' '
  }

  /** The value of a character of the base64 alphabet, or `None` for any other. */
  function SextetValue(c: char): (r: Option<nat>)
    ensures r.Some? ==> r.value < 64
  {
    if 'A' <= c <= 'Z' then Some(c as int - 'A' as int)
    else if 'a' <= c <= 'z' then Some(c as int - 'a' as int + 26)
    else if '0' <= c <= '9' then Some(c as int - '0' as int + 52)
    else if c == '+' then Some(62)
    else if c == '/' then Some(63)
    else None
  }

  /** The alphabet character of a six-bit value. */
  function SextetChar(n: nat): (c: char)
    requires n < 64
    ensures SextetValue(c) == Some(n)
    ensures !IsAsciiWhitespace(c) && c != '='
  {
    if n < 26 then ('A' as int + n) as char
    else if n < 52 then ('a' as int + n - 26) as char
    else if n < 62 then ('0' as int + n - 52) as char
    else if n == 62 then '+'
    else '/'
  }

  function RemoveWhitespace(s: string): (r: string)
    ensures |r| <= |s|
    ensures forall i :: 0 <= i < |r| ==> !IsAsciiWhitespace(r[i])
  {
    if |s| == 0 then []
    else if IsAsciiWhitespace(s[0]) then RemoveWhitespace(s[1..])
    else [s[0]] + RemoveWhitespace(s[1..])
  }

  /** Removes one or two trailing `=` when the length is a multiple of four. */
  function StripPadding(d: string): (r: string)
    ensures |r| <= |d| && r == d[..|r|]
    ensures forall i :: |r| <= i < |d| ==> d[i] == '='
  {
    if |d| % 4 == 0 && |d| >= 2 && d[|d| - 2] == '=' && d[|d| - 1] == '=' then d[..|d| - 2]
    else if |d| % 4 == 0 && |d| >= 1 && d[|d| - 1] == '=' then d[..|d| - 1]
    else d
  }

  /** The six-bit values of an alphabet string, or `None` at the first other character. */
  function Sextets(d: string): (r: Option<seq<nat>>)
    ensures r.Some? ==> |r.value| == |d| && forall i :: 0 <= i < |r.value| ==> r.value[i] < 64
  {
    if |d| == 0 then Some([])
    else match SextetValue(d[0])
      case None => None
      case Some(v) =>
        var rest := Sextets(d[1..]);
        if rest.None? then None else Some([v] + rest.value)
  }

  /** The values are missing exactly when some character is outside the alphabet. */
  lemma {:induction false} SextetsNoneIff(d: string)
    ensures Sextets(d).None? <==> exists i :: 0 <= i < |d| && SextetValue(d[i]).None?
  {
    if |d| > 0 && SextetValue(d[0]).Some? {
      SextetsNoneIff(d[1..]);
      if Sextets(d[1..]).None? {
        var i :| 0 <= i < |d[1..]| && SextetValue(d[1..][i]).None?;
        assert SextetValue(d[i + 1]).None?;
      } else {
        forall i | 0 <= i < |d| ensures SextetValue(d[i]).Some? {
          if i > 0 { assert d[i] == d[1..][i - 1]; }
        }
      }
    }
  }

  /** The three bytes whose 24 bits are four six-bit values. */
  function GroupBytes(a0: nat, a1: nat, a2: nat, a3: nat): (r: seq<byte>)
    requires a0 < 64 && a1 < 64 && a2 < 64 && a3 < 64
    ensures |r| == 3
  {
    [(a0 * 4 + a1 / 16) as byte, ((a1 % 16) * 16 + a2 / 4) as byte, ((a2 % 4) * 64 + a3) as byte]
  }

  /** Regroups six-bit values into bytes, four values to three bytes; a trailing two or three
      values give one or two bytes, their spare low bits dropped. */
  function DecodeSextets(v: seq<nat>): (r: seq<byte>)
    requires forall i :: 0 <= i < |v| ==> v[i] < 64
    requires |v| % 4 != 1
    decreases |v|
  {
    if |v| == 0 then []
    else if |v| == 2 then GroupBytes(v[0], v[1], 0, 0)[..1]
    else if |v| == 3 then GroupBytes(v[0], v[1], v[2], 0)[..2]
    else GroupBytes(v[0], v[1], v[2], v[3]) + DecodeSextets(v[4..])
  }

  /** `atob` on a string: the decoded bytes, or `None` where `atob` throws. */
  function Base64Decode(s: string): (r: Option<seq<byte>>)
    ensures r.None? <==>
      (|StripPadding(RemoveWhitespace(s))| % 4 == 1 ||
       exists i :: 0 <= i < |StripPadding(RemoveWhitespace(s))| && SextetValue(StripPadding(RemoveWhitespace(s))[i]).None?)
  {
    var d := StripPadding(RemoveWhitespace(s));
    SextetsNoneIff(d);
    if |d| % 4 == 1 then None
    else match Sextets(d)
      case None => None
      case Some(v) => Some(DecodeSextets(v))
  }

  // ---------------------------------------------------------------------------
  // Encoding, the partner of `Base64Decode`

  /** The four six-bit values of three bytes, most significant bits first. */
  function GroupSextets(x: byte, y: byte, z: byte): (r: seq<nat>)
    ensures |r| == 4 && forall i :: 0 <= i < 4 ==> r[i] < 64
  {
    [x as int / 4, (x as int % 4) * 16 + y as int / 16, (y as int % 16) * 4 + z as int / 64, z as int % 64]
  }

  /** How many six-bit values `n` bytes give: four per three bytes, two or three for a
      trailing one or two. */
  function SextetCount(n: nat): nat
  {
    if n == 0 then 0 else if n == 1 then 2 else if n == 2 then 3 else 4 + SextetCount(n - 3)
  }

  /** Splits bytes into six-bit values, three bytes to four values; a trailing one or two
      bytes give two or three values, padded with zero bits. */
  function BytesToSextets(b: seq<byte>): (r: seq<nat>)
    ensures forall i :: 0 <= i < |r| ==> r[i] < 64
    ensures |r| == SextetCount(|b|) && |r| % 4 != 1
    decreases |b|
  {
    if |b| == 0 then []
    else if |b| == 1 then GroupSextets(b[0], 0, 0)[..2]
    else if |b| == 2 then GroupSextets(b[0], b[1], 0)[..3]
    else GroupSextets(b[0], b[1], b[2]) + BytesToSextets(b[3..])
  }

  function SextetChars(v: seq<nat>): (r: string)
    requires forall i :: 0 <= i < |v| ==> v[i] < 64
    ensures |r| == |v|
    ensures forall i :: 0 <= i < |r| ==> !IsAsciiWhitespace(r[i]) && r[i] != '='
  {
    if |v| == 0 then "" else [SextetChar(v[0])] + SextetChars(v[1..])
  }

  /** The `=` that complete the last group of `n` bytes to four characters. */
  function Padding(n: nat): (r: string)
    ensures |r| <= 2 && forall i :: 0 <= i < |r| ==> r[i] == '='
  {
    if n == 0 then "" else if n == 1 then "==" else if n == 2 then "=" else Padding(n - 3)
  }

  lemma {:induction false} EncodedLength(n: nat)
    ensures (SextetCount(n) + |Padding(n)|) % 4 == 0
    ensures |Padding(n)| > 0 ==> SextetCount(n) > 0
  {
    if n > 2 {
      EncodedLength(n - 3);
    }
  }

  /** The padded base64 encoding of bytes (`btoa` on their code units). */
  function Base64Encode(b: seq<byte>): (r: string)
    ensures |r| % 4 == 0
    ensures forall i :: 0 <= i < |r| ==> !IsAsciiWhitespace(r[i])
  {
    EncodedLength(|b|);
    SextetChars(BytesToSextets(b)) + Padding(|b|)
  }

  lemma {:induction false} SextetsOfChars(v: seq<nat>)
    requires forall i :: 0 <= i < |v| ==> v[i] < 64
    ensures Sextets(SextetChars(v)) == Some(v)
    decreases |v|
  {
    if |v| > 0 {
      var c, t := SextetChar(v[0]), SextetChars(v[1..]);
      assert SextetChars(v) == [c] + t;
      SextetsOfChars(v[1..]);
      assert ([c] + t)[0] == c && ([c] + t)[1..] == t;
      assert [v[0]] + v[1..] == v;
    }
  }

  lemma {:induction false} RemoveWhitespaceKeeps(s: string)
    requires forall i :: 0 <= i < |s| ==> !IsAsciiWhitespace(s[i])
    ensures RemoveWhitespace(s) == s
    decreases |s|
  {
    if |s| > 0 {
      RemoveWhitespaceKeeps(s[1..]);
      assert [s[0]] + s[1..] == s;
    }
  }

  /** The three bytes of a group come back from their four six-bit values. */
  lemma GroupRoundTrip(x: byte, y: byte, z: byte)
    ensures var g := GroupSextets(x, y, z); GroupBytes(g[0], g[1], g[2], g[3]) == [x, y, z]
  {
    var g := GroupSextets(x, y, z);
    var xi, yi, zi := x as int, y as int, z as int;
    assert (g[1]) / 16 == xi % 4 && g[1] % 16 == yi / 16;
    assert g[2] / 4 == yi % 16 && g[2] % 4 == zi / 64;
  }

  /** Decoding the first group of the values of at least three bytes gives those bytes. */
  lemma DecodeGroup(b: seq<byte>)
    requires |b| >= 3
    ensures DecodeSextets(BytesToSextets(b)) == [b[0], b[1], b[2]] + DecodeSextets(BytesToSextets(b[3..]))
  {
    var g := GroupSextets(b[0], b[1], b[2]);
    var w := BytesToSextets(b[3..]);
    var v := BytesToSextets(b);
    assert v == g + w;
    assert v[0] == g[0] && v[1] == g[1] && v[2] == g[2] && v[3] == g[3] && v[4..] == w;
    GroupRoundTrip(b[0], b[1], b[2]);
  }

  lemma {:induction false} DecodeBytesToSextets(b: seq<byte>)
    ensures DecodeSextets(BytesToSextets(b)) == b
    decreases |b|
  {
    var v := BytesToSextets(b);
    if |b| == 1 {
      var g := GroupSextets(b[0], 0, 0);
      GroupRoundTrip(b[0], 0, 0);
      assert v[0] == g[0] && v[1] == g[1] && g[2] == 0 && g[3] == 0;
    } else if |b| == 2 {
      var g := GroupSextets(b[0], b[1], 0);
      GroupRoundTrip(b[0], b[1], 0);
      assert v[0] == g[0] && v[1] == g[1] && v[2] == g[2] && g[3] == 0;
    } else if |b| >= 3 {
      DecodeBytesToSextets(b[3..]);
      DecodeGroup(b);
      assert b == [b[0], b[1], b[2]] + b[3..];
    }
  }

  lemma StripPaddingOfEncoding(b: seq<byte>)
    ensures StripPadding(Base64Encode(b)) == SextetChars(BytesToSextets(b))
  {
    var body := SextetChars(BytesToSextets(b));
    var pad := Padding(|b|);
    var e := Base64Encode(b);
    assert e == body + pad;
    EncodedLength(|b|);
    if |pad| == 2 {
      assert e[..|e| - 2] == body;
    } else if |pad| == 1 {
      assert e[|e| - 2] == body[|body| - 1] != '=';
      assert e[..|e| - 1] == body;
    } else if |e| > 0 {
      assert e == body && e[|e| - 1] == body[|body| - 1] != '=';
    }
  }

  /** Decoding the encoding of any bytes gives those bytes back. */
  lemma Base64RoundTrip(b: seq<byte>)
    ensures Base64Decode(Base64Encode(b)) == Some(b)
  {
    var v := BytesToSextets(b);
    RemoveWhitespaceKeeps(Base64Encode(b));
    StripPaddingOfEncoding(b);
    SextetsOfChars(v);
    DecodeBytesToSextets(b);
  }

  /** A character that is neither whitespace, `=` nor in the alphabet makes `atob` throw,
      wherever it stands. */
  lemma {:induction false} ForeignCharacterRefused(s: string, k: nat)
    requires k < |s| && !IsAsciiWhitespace(s[k]) && s[k] != '=' && SextetValue(s[k]).None?
    ensures Base64Decode(s).None?
  {
    var w := RemoveWhitespace(s);
    var j := RemoveWhitespaceKeepsChar(s, k);
    var d := StripPadding(w);
    assert d[j] == w[j];
  }

  /** Where a non-whitespace character ends up once whitespace is removed. */
  lemma {:induction false} RemoveWhitespaceKeepsChar(s: string, k: nat) returns (j: nat)
    requires k < |s| && !IsAsciiWhitespace(s[k])
    ensures j < |RemoveWhitespace(s)| && RemoveWhitespace(s)[j] == s[k]
    decreases |s|
  {
    if IsAsciiWhitespace(s[0]) {
      j := RemoveWhitespaceKeepsChar(s[1..], k - 1);
    } else if k == 0 {
      j := 0;
    } else {
      var j' := RemoveWhitespaceKeepsChar(s[1..], k - 1);
      j := j' + 1;
    }
  }
}
