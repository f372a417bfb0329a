/**
 * String and byte helpers shared by the tool modules: Python's `str.join`,
 * decimal rendering of integers (`str(n)`, `f"{n:,}"`) and UTF-8 encoding
 * (`str.encode('utf-8')`).
 */
module Strings {

  type byte = b: int | 0 <= b < 256

  // ---------------------------------------------------------------- join

  /** Python's `sep.join(parts)`. */
  function Join(parts: seq<string>, sep: string): string
  {
    if |parts| == 0 then ""
    else if |parts| == 1 then parts[0]
    else parts[0] + sep + Join(parts[1..], sep)
  }

  /** Appending one more part adds the separator and the part at the end. */
  lemma {:induction false} JoinSnoc(parts: seq<string>, last: string, sep: string)
    ensures Join(parts + [last], sep) == if parts == [] then last else Join(parts, sep) + sep + last
  {
    if |parts| == 0 {
      assert parts + [last] == [last];
    } else if |parts| == 1 {
      assert parts + [last] == [parts[0], last];
      assert [parts[0], last][1..] == [last];
    } else {
      assert (parts + [last])[1..] == parts[1..] + [last];
      JoinSnoc(parts[1..], last, sep);
    }
  }

  /** Joining with the empty separator distributes over concatenation. */
  lemma {:induction false} JoinEmptyAppend(a: seq<string>, b: seq<string>)
    ensures Join(a + b, "") == Join(a, "") + Join(b, "")
  {
    if a == [] {
      assert a + b == b;
    } else if b == [] {
      assert a + b == a;
    } else {
      assert (a + b)[1..] == a[1..] + b;
      JoinEmptyAppend(a[1..], b);
      if |a| == 1 {
        assert a[1..] == [];
        assert a[1..] + b == b;
      }
    }
  }

  /** A character found in no part is not in their join with the empty separator. */
  lemma {:induction false} JoinEmptyExcludes(parts: seq<string>, c: char)
    requires forall i :: 0 <= i < |parts| ==> c !in parts[i]
    ensures c !in Join(parts, "")
  {
    if |parts| > 1 {
      JoinEmptyExcludes(parts[1..], c);
    }
  }

  /** Joining three parts with the empty separator concatenates them. */
  lemma JoinEmptyThree(a: string, b: string, c: string)
    ensures Join([a, b, c], "") == a + b + c
  {
    assert [b, c][1..] == [c];
    assert Join([b, c], "") == b + c by {
      assert b + "" == b;
    }
    assert [a, b, c][1..] == [b, c];
    assert Join([a, b, c], "") == a + "" + (b + c);
    assert a + "" == a;
  }

  /** Python's `s.endswith(suffix)`. */
  predicate EndsWith(s: string, suffix: string)
  {
    |suffix| <= |s| && s[|s| - |suffix|..] == suffix
  }

  /** The total number of characters in a list of strings. */
  function TotalLength(parts: seq<string>): nat
  {
    if parts == [] then 0 else |parts[0]| + TotalLength(parts[1..])
  }

  /** A non-empty join is as long as its parts plus one separator between each neighbouring pair. */
  lemma {:induction false} JoinLength(parts: seq<string>, sep: string)
    requires parts != []
    ensures |Join(parts, sep)| == TotalLength(parts) + |sep| * (|parts| - 1)
  {
    if |parts| > 1 {
      JoinLength(parts[1..], sep);
      calc {
        |Join(parts, sep)|;
        |parts[0]| + |sep| + |Join(parts[1..], sep)|;
        |parts[0]| + |sep| + TotalLength(parts[1..]) + |sep| * (|parts| - 2);
        { assert |sep| + |sep| * (|parts| - 2) == |sep| * (|parts| - 1); }
        TotalLength(parts) + |sep| * (|parts| - 1);
      }
    }
  }

  /** A join starts with its first part. */
  lemma {:induction false} JoinStartsWithFirst(parts: seq<string>, sep: string)
    requires parts != []
    ensures parts[0] <= Join(parts, sep)
  {
  }

  /** Python's `s.split(c)` for a one-character separator. */
  function Split(s: string, c: char): (parts: seq<string>)
    ensures |parts| >= 1
    decreases |s|
  {
    if s == [] then [""]
    else if s[0] == c then [""] + Split(s[1..], c)
    else
      var rest := Split(s[1..], c);
      [[s[0]] + rest[0]] + rest[1..]
  }

  /** Text free of the separator, followed by more text, extends the first piece. */
  lemma {:induction false} SplitPrefix(a: string, rest: string, c: char)
    requires c !in a
    ensures Split(a + rest, c) == [a + Split(rest, c)[0]] + Split(rest, c)[1..]
    decreases |a|
  {
    if a == [] {
      var ps := Split(rest, c);
      assert a + rest == rest && a + ps[0] == ps[0];
      assert [ps[0]] + ps[1..] == ps;
    } else {
      assert (a + rest)[1..] == a[1..] + rest;
      SplitPrefix(a[1..], rest, c);
      assert [a[0]] + (a[1..] + Split(rest, c)[0]) == a + Split(rest, c)[0];
    }
  }

  /** Splitting a join recovers the parts when no part contains the separator. */
  lemma {:induction false} SplitJoin(parts: seq<string>, c: char)
    requires parts != []
    requires forall i :: 0 <= i < |parts| ==> c !in parts[i]
    ensures Split(Join(parts, [c]), c) == parts
  {
    if |parts| == 1 {
      SplitPrefix(parts[0], "", c);
      assert parts[0] + "" == parts[0];
    } else {
      var tail := Join(parts[1..], [c]);
      SplitJoin(parts[1..], c);
      assert Join(parts, [c]) == parts[0] + ([c] + tail);
      SplitPrefix(parts[0], [c] + tail, c);
      assert ([c] + tail)[1..] == tail;
      assert Split([c] + tail, c) == [""] + parts[1..];
      assert parts[0] + "" == parts[0];
      assert [parts[0]] + parts[1..] == parts;
    }
  }

  // ---------------------------------------------------------------- decimal

  function DigitChar(d: nat): (c: char)
    requires d < 10
    ensures '0' <= c <= '9'
  {
    ('0' as int + d) as char
  }

  /** Python's `str(n)` for a non-negative integer. */
  function NatToString(n: nat): (s: string)
    ensures |s| >= 1
    ensures forall i :: 0 <= i < |s| ==> '0' <= s[i] <= '9'
    decreases n
  {
    if n < 10 then [DigitChar(n)] else NatToString(n / 10) + [DigitChar(n % 10)]
  }

  /** The value of a string of decimal digits, read most significant digit first. */
  function DecimalValue(s: string): nat
    requires forall i :: 0 <= i < |s| ==> '0' <= s[i] <= '9'
  {
    if s == [] then 0 else DecimalValue(s[..|s| - 1]) * 10 + (s[|s| - 1] as int - '0' as int)
  }

  /** Reading back the rendered digits gives the number again. */
  lemma {:induction false} NatToStringRoundTrip(n: nat)
    ensures DecimalValue(NatToString(n)) == n
    decreases n
  {
    var s := NatToString(n);
    if n >= 10 {
      NatToStringRoundTrip(n / 10);
      assert s[..|s| - 1] == NatToString(n / 10);
    }
  }

  /** Python's `str(i)` for any integer. */
  function IntToString(i: int): (s: string)
    ensures |s| >= 1
    ensures (s[0] == '-') <==> i < 0
    ensures forall k :: 1 <= k < |s| ==> '0' <= s[k] <= '9'
  {
    if i < 0 then "-" + NatToString(-i) else NatToString(i)
  }

  function Pad3(n: nat): string
    requires n < 1000
  {
    if n < 10 then "00" + NatToString(n)
    else if n < 100 then "0" + NatToString(n)
    else NatToString(n)
  }

  /** Python's `f"{n:,}"`: decimal digits grouped by thousands with commas. */
  function GroupThousands(n: nat): string
    decreases n
  {
    if n < 1000 then NatToString(n) else GroupThousands(n / 1000) + "," + Pad3(n % 1000)
  }

  // ---------------------------------------------------------------- UTF-8

  /** The UTF-8 encoding of one Unicode scalar value. */
  function EncodeScalar(c: char): (r: seq<byte>)
    ensures 1 <= |r| <= 4
    ensures |r| == 1 <==> c as int < 0x80
    ensures |r| == 1 ==> r[0] < 0x80
    ensures |r| == 2 ==> 0xC0 <= r[0] < 0xE0
    ensures |r| == 3 ==> 0xE0 <= r[0] < 0xF0
    ensures |r| == 4 ==> 0xF0 <= r[0] < 0xF8
    ensures forall k :: 1 <= k < |r| ==> 0x80 <= r[k] < 0xC0
  {
    var v := c as int;
    if v < 0x80 then [v]
    else if v < 0x800 then [0xC0 + v / 64, 0x80 + v % 64]
    else if v < 0x10000 then [0xE0 + v / 4096, 0x80 + (v / 64) % 64, 0x80 + v % 64]
    else [0xF0 + v / 262144, 0x80 + (v / 4096) % 64, 0x80 + (v / 64) % 64, 0x80 + v % 64]
  }

  /** Reads the scalar value back from a one- to four-byte UTF-8 sequence. */
  function DecodeScalar(bs: seq<byte>): int
    requires 1 <= |bs| <= 4
  {
    var b := seq(|bs|, k requires 0 <= k < |bs| => bs[k] as int);
    if |b| == 1 then b[0]
    else if |b| == 2 then (b[0] - 0xC0) * 64 + (b[1] - 0x80)
    else if |b| == 3 then (b[0] - 0xE0) * 4096 + (b[1] - 0x80) * 64 + (b[2] - 0x80)
    else (b[0] - 0xF0) * 262144 + (b[1] - 0x80) * 4096 + (b[2] - 0x80) * 64 + (b[3] - 0x80)
  }

  /** Every encoded scalar value decodes to itself. */
  lemma EncodeScalarRoundTrip(c: char)
    ensures DecodeScalar(EncodeScalar(c)) == c as int
  {
    var v := c as int;
    if v >= 0x10000 {
      assert v == (v / 262144) * 262144 + ((v / 4096) % 64) * 4096 + ((v / 64) % 64) * 64 + v % 64;
    } else if v >= 0x800 {
      assert v == (v / 4096) * 4096 + ((v / 64) % 64) * 64 + v % 64;
    }
  }

  /** Python's `s.encode('utf-8')`. */
  function Utf8Encode(s: string): seq<byte>
  {
    if s == [] then [] else EncodeScalar(s[0]) + Utf8Encode(s[1..])
  }

  /** Encoding distributes over concatenation. */
  lemma {:induction false} Utf8EncodeAppend(a: string, b: string)
    ensures Utf8Encode(a + b) == Utf8Encode(a) + Utf8Encode(b)
  {
    if a != [] {
      assert (a + b)[1..] == a[1..] + b;
      Utf8EncodeAppend(a[1..], b);
    } else {
      assert a + b == b;
    }
  }

  /** An encoding is empty exactly when the text is, and never shorter than the text. */
  lemma {:induction false} Utf8EncodeLength(s: string)
    ensures |s| <= |Utf8Encode(s)| <= 4 * |s|
    ensures Utf8Encode(s) == [] <==> s == []
  {
    if s != [] {
      Utf8EncodeLength(s[1..]);
    }
  }

  /** ASCII text encodes to its own code points, one byte per character. */
  lemma {:induction false} Utf8EncodeAscii(s: string)
    requires forall i :: 0 <= i < |s| ==> s[i] as int < 0x80
    ensures |Utf8Encode(s)| == |s|
    ensures forall i :: 0 <= i < |s| ==> Utf8Encode(s)[i] == s[i] as int
  {
    if s != [] {
      Utf8EncodeAscii(s[1..]);
    }
  }
}
