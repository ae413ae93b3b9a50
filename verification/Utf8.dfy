/** UTF-8 as RFC 3629 defines it (sections 3 and 4), and the two preview decoders that
    output retention builds on a strict decoder. */
module Utf8 {
  import opened Wrappers

  type Byte = b: int | 0 <= b < 0x100

  /** A Unicode scalar value: a code point that is not a surrogate. */
  type Scalar = c: int | 0 <= c < 0xD800 || 0xE000 <= c < 0x110000

  type Bytes = seq<Byte>
  type Text = seq<Scalar>

  // ---------------------------------------------------------------- encoding

  function EncodeScalar(c: Scalar): (r: Bytes)
    ensures 1 <= |r| <= 4
  {
    if c < 0x80 then [c]
    else if c < 0x800 then [0xC0 + c / 0x40, 0x80 + c % 0x40]
    else if c < 0x10000 then [0xE0 + c / 0x1000, 0x80 + c / 0x40 % 0x40, 0x80 + c % 0x40]
    else [0xF0 + c / 0x40000, 0x80 + c / 0x1000 % 0x40, 0x80 + c / 0x40 % 0x40, 0x80 + c % 0x40]
  }

  function Encode(text: Text): Bytes {
    if text == [] then [] else EncodeScalar(text[0]) + Encode(text[1..])
  }

  // ---------------------------------------------------------------- strict decoding

  predicate Tail(b: Byte) { 0x80 <= b <= 0xBF }

  /** The number of bytes the leading byte announces; 0 for a byte that cannot lead. */
  function Announced(lead: Byte): (n: nat)
    ensures n <= 4
  {
    if lead < 0x80 then 1
    else if 0xC2 <= lead <= 0xDF then 2
    else if 0xE0 <= lead <= 0xEF then 3
    else if 0xF0 <= lead <= 0xF4 then 4
    else 0
  }

  /** The second-byte ranges of section 4: they exclude overlong forms, surrogates and
      values above 0x10FFFF. */
  predicate SecondOk(lead: Byte, second: Byte) {
    && (if lead == 0xE0 || lead == 0xF0 then (if lead == 0xE0 then 0xA0 else 0x90) <= second else 0x80 <= second)
    && (if lead == 0xED then second <= 0x9F else if lead == 0xF4 then second <= 0x8F else second <= 0xBF)
  }

  /** The first code point of `b` and its length, if `b` starts with a well-formed one. */
  function DecodeOne(b: Bytes): (r: Option<(Scalar, nat)>)
    ensures r.Some? ==> 1 <= r.value.1 <= 4 && r.value.1 <= |b|
  {
    if b == [] then None else
    var n := Announced(b[0]);
    if n == 0 || |b| < n then None
    else if n == 1 then Some((b[0], 1))
    else if !SecondOk(b[0], b[1]) then None
    else if n == 2 then Some((Push(b[0] as int - 0xC0, b[1]), 2))
    else if !Tail(b[2]) then None
    else if n == 3 then Some((Push(Push(b[0] as int - 0xE0, b[1]), b[2]), 3))
    else if !Tail(b[3]) then None
    else Some((Push(Push(Push(b[0] as int - 0xF0, b[1]), b[2]), b[3]), 4))
  }

  /** Append the six payload bits of a continuation byte. */
  function Push(high: int, tail: Byte): int { high * 0x40 + (tail as int - 0x80) }

  /** A decoder with `fatal: true`: the text, or nothing when any byte is malformed. */
  function Decode(b: Bytes): Option<Text> {
    if b == [] then Some([]) else
    match DecodeOne(b)
    case None => None
    case Some((c, n)) =>
      match Decode(b[n..])
      case None => None
      case Some(rest) => Some([c] + rest)
  }

  // ---------------------------------------------------------------- round trips

  lemma DecodeOneOfEncoded(c: Scalar, rest: Bytes)
    ensures DecodeOne(EncodeScalar(c) + rest) == Some((c, |EncodeScalar(c)|))
  {
    var e := EncodeScalar(c);
    var b := e + rest;
    assert forall i :: 0 <= i < |e| ==> b[i] == e[i];
    Rejoined(c);
    if c < 0x80 {
      assert DecodeOne(b) == Some((c, 1));
    } else if c < 0x800 {
      assert DecodeOne(b) == Some((c, 2));
    } else if c < 0x10000 {
      assert DecodeOne(b) == Some((c, 3));
    } else {
      assert DecodeOne(b) == Some((c, 4));
    }
  }

  /** Putting the six-bit groups of a number back together. */
  lemma Rejoined(c: nat)
    ensures Push(c / 0x40, 0x80 + c % 0x40) == c
    ensures Push(c / 0x1000, 0x80 + c / 0x40 % 0x40) == c / 0x40
    ensures Push(c / 0x40000, 0x80 + c / 0x1000 % 0x40) == c / 0x1000
  {
  }

  lemma EncodedOfDecodeOne(b: Bytes)
    requires DecodeOne(b).Some?
    ensures var (c, n) := DecodeOne(b).value; EncodeScalar(c) == b[..n]
  {
    var (c, n) := DecodeOne(b).value;
    if n == 2 {
    } else if n == 3 {
      EncodedThree(b[0], b[1], b[2], c);
    } else if n == 4 {
      EncodedFour(b[0], b[1], b[2], b[3], c);
    }
  }

  lemma EncodedThree(lead: Byte, second: Byte, third: Byte, c: Scalar)
    requires Announced(lead) == 3 && SecondOk(lead, second) && Tail(third)
    requires c == Push(Push(lead as int - 0xE0, second), third)
    ensures EncodeScalar(c) == [lead, second, third]
  {
    SplitPushed(lead as int - 0xE0, second);
    SplitPushed(Push(lead as int - 0xE0, second), third);
    Quotients(c);
  }

  lemma EncodedFour(lead: Byte, second: Byte, third: Byte, fourth: Byte, c: Scalar)
    requires Announced(lead) == 4 && SecondOk(lead, second) && Tail(third) && Tail(fourth)
    requires c == Push(Push(Push(lead as int - 0xF0, second), third), fourth)
    ensures EncodeScalar(c) == [lead, second, third, fourth]
  {
    var top := Push(lead as int - 0xF0, second);
    SplitPushed(lead as int - 0xF0, second);
    SplitPushed(top, third);
    SplitPushed(Push(top, third), fourth);
    Quotients(c);
  }

  lemma SplitPushed(high: int, tail: Byte)
    requires 0 <= high && Tail(tail)
    ensures Push(high, tail) / 0x40 == high && 0x80 + Push(high, tail) % 0x40 == tail
  {
  }

  lemma Quotients(c: int)
    requires 0 <= c
    ensures c / 0x1000 == c / 0x40 / 0x40 && c / 0x40000 == c / 0x40 / 0x40 / 0x40
  {
  }

  /** Decoding undoes encoding, whatever the text. */
  lemma {:induction false} DecodeOfEncode(text: Text)
    ensures Decode(Encode(text)) == Some(text)
  {
    if text == [] {
    } else {
      var e, rest := EncodeScalar(text[0]), Encode(text[1..]);
      DecodeOneOfEncoded(text[0], rest);
      assert (e + rest)[|e|..] == rest;
      DecodeOfEncode(text[1..]);
      assert [text[0]] + text[1..] == text;
    }
  }

  /** And the strict decoder accepts nothing else: what it returns encodes back to its input. */
  lemma {:induction false} EncodeOfDecode(b: Bytes)
    ensures Decode(b).Some? ==> Encode(Decode(b).value) == b
  {
    if b == [] {
    } else if Decode(b).Some? {
      var c, n := FirstDecoded(b);
      EncodeOfDecode(b[n..]);
      assert b == b[..n] + b[n..];
    }
  }

  lemma FirstDecoded(b: Bytes) returns (c: Scalar, n: nat)
    requires b != [] && Decode(b).Some?
    ensures 1 <= n <= |b| && EncodeScalar(c) == b[..n]
    ensures Decode(b[n..]).Some? && Decode(b).value == [c] + Decode(b[n..]).value
  {
    EncodedOfDecodeOne(b);
    c, n := DecodeOne(b).value.0, DecodeOne(b).value.1;
  }

  lemma {:induction false} EncodeConcat(a: Text, b: Text)
    ensures Encode(a + b) == Encode(a) + Encode(b)
  {
    if a == [] {
      assert a + b == b;
    } else {
      assert (a + b)[1..] == a[1..] + b;
      EncodeConcat(a[1..], b);
    }
  }

  // ---------------------------------------------------------------- self-synchronisation

  /** What the bytes before `end` decode to. */
  function DecodeTo(b: Bytes, end: nat): Option<Text>
    requires end <= |b|
  {
    Decode(b[..end])
  }

  /** What the bytes from `start` on decode to. */
  function DecodeFrom(b: Bytes, start: nat): Option<Text>
    requires start <= |b|
  {
    Decode(b[start..])
  }

  /** The byte at which code point `j` of a text starts. */
  function Cut(text: Text, j: nat): nat
    requires j <= |text|
  {
    |Encode(text[..j])|
  }

  /** A proper, non-empty prefix of one encoded code point never decodes. */
  lemma CutScalar(c: Scalar, n: nat)
    requires 0 < n < |EncodeScalar(c)|
    ensures Decode(EncodeScalar(c)[..n]).None?
  {
    var e := EncodeScalar(c);
    assert e[..n][0] == e[0] && Announced(e[0]) == |e|;
  }

  /** Where a decodable prefix of an encoded text ends: after `j` whole code points. */
  lemma {:induction false} PrefixEnd(text: Text, n: nat) returns (j: nat)
    requires n <= |Encode(text)| && DecodeTo(Encode(text), n).Some?
    ensures j <= |text| && Cut(text, j) == n
  {
    if n == 0 {
      return 0;
    }
    var e, rest := EncodeScalar(text[0]), Encode(text[1..]);
    if n < |e| {
      assert Encode(text)[..n] == e[..n];
      CutScalar(text[0], n);
      assert false;
    } else {
      var tail := rest[..n - |e|];
      assert Encode(text)[..n] == e + tail;
      DecodeAfterScalar(text[0], tail);
      j := PrefixEnd(text[1..], n - |e|);
      NextCut(text, j);
      j := j + 1;
    }
  }

  /** Where a decodable suffix of an encoded text starts: after `k` whole code points. */
  lemma {:induction false} SuffixStart(text: Text, m: nat) returns (k: nat)
    requires m <= |Encode(text)| && DecodeFrom(Encode(text), m).Some?
    ensures k <= |text| && Cut(text, k) == m
  {
    if m == 0 {
      return 0;
    }
    var e, rest := EncodeScalar(text[0]), Encode(text[1..]);
    if m < |e| {
      assert false;
    } else {
      assert Encode(text)[m..] == rest[m - |e|..];
      k := SuffixStart(text[1..], m - |e|);
      NextCut(text, k);
      k := k + 1;
    }
  }

  lemma DecodeAfterScalar(c: Scalar, tail: Bytes)
    ensures Decode(EncodeScalar(c) + tail).Some? ==> Decode(tail).Some?
  {
    DecodeOneOfEncoded(c, tail);
    assert (EncodeScalar(c) + tail)[|EncodeScalar(c)|..] == tail;
  }

  lemma NextCut(text: Text, j: nat)
    requires text != [] && j < |text|
    ensures Cut(text, j + 1) == |EncodeScalar(text[0])| + Cut(text[1..], j)
  {
    assert text[..j + 1] == [text[0]] + text[1..][..j];
  }

  /** A cut of an encoded text decodes on either side exactly when it falls between two code points. */
  lemma CutSynchronises(text: Text, n: nat)
    requires n <= |Encode(text)|
    ensures DecodeTo(Encode(text), n).Some? <==> exists j :: 0 <= j <= |text| && Cut(text, j) == n
    ensures DecodeFrom(Encode(text), n).Some? <==> exists j :: 0 <= j <= |text| && Cut(text, j) == n
  {
    if DecodeTo(Encode(text), n).Some? {
      var j := PrefixEnd(text, n);
    }
    if DecodeFrom(Encode(text), n).Some? {
      var j := SuffixStart(text, n);
    }
    if j :| 0 <= j <= |text| && Cut(text, j) == n {
      DecodeAtCut(text, j);
    }
  }

  lemma SplitAt(text: Text, j: nat)
    requires j <= |text|
    ensures Cut(text, j) <= |Encode(text)|
    ensures Encode(text)[..Cut(text, j)] == Encode(text[..j])
    ensures Encode(text)[Cut(text, j)..] == Encode(text[j..])
  {
    assert text == text[..j] + text[j..];
    EncodeConcat(text[..j], text[j..]);
  }

  lemma DecodeAtCut(text: Text, j: nat)
    requires j <= |text|
    ensures Cut(text, j) <= |Encode(text)|
    ensures DecodeTo(Encode(text), Cut(text, j)) == Some(text[..j])
    ensures DecodeFrom(Encode(text), Cut(text, j)) == Some(text[j..])
  {
    SplitAt(text, j);
    DecodeOfEncode(text[..j]);
    DecodeOfEncode(text[j..]);
  }

  // ---------------------------------------------------------------- the preview decoders

  /** Cut the end until the bytes decode. The empty prefix always does. */
  method DecodeUtf8(bytes: Bytes) returns (text: Text)
    ensures LongestPrefix(bytes, text)
  {
    assert bytes[..0] == [] && DecodeTo(bytes, 0).Some?;
    var end := |bytes|;
    while end >= 0
      invariant -1 <= end <= |bytes|
      invariant forall e :: end < e <= |bytes| ==> DecodeTo(bytes, e).None?
    {
      match DecodeTo(bytes, end) {
        case Some(t) => return t;
        case None =>
      }
      end := end - 1;
    }
    assert false;
    return [];
  }

  /** Cut the start until the bytes decode. */
  method DecodeTailUtf8(bytes: Bytes) returns (text: Text)
    ensures LongestSuffix(bytes, text)
  {
    assert bytes[|bytes|..] == [] && DecodeFrom(bytes, |bytes|).Some?;
    var start := 0;
    while start <= |bytes|
      invariant 0 <= start <= |bytes| + 1
      invariant forall s :: 0 <= s < start ==> DecodeFrom(bytes, s).None?
    {
      match DecodeFrom(bytes, start) {
        case Some(t) => return t;
        case None =>
      }
      start := start + 1;
    }
    assert false;
    return [];
  }

  /** `text` is what the longest decodable prefix of `bytes` decodes to. */
  ghost predicate LongestPrefix(bytes: Bytes, text: Text) {
    exists end :: 0 <= end <= |bytes| && DecodeTo(bytes, end) == Some(text) &&
                  forall e :: end < e <= |bytes| ==> DecodeTo(bytes, e).None?
  }

  /** `text` is what the longest decodable suffix of `bytes` decodes to. */
  ghost predicate LongestSuffix(bytes: Bytes, text: Text) {
    exists start :: 0 <= start <= |bytes| && DecodeFrom(bytes, start) == Some(text) &&
                    forall s :: 0 <= s < start ==> DecodeFrom(bytes, s).None?
  }

  // ---------------------------------------------------------------- what they show of a valid stream

  /** `j` is the greatest number of whole leading code points of `text` that fit in `n` bytes. */
  ghost predicate MostThatFit(text: Text, n: nat, j: nat) {
    && j <= |text|
    && Cut(text, j) <= n
    && (j < |text| ==> n < Cut(text, j + 1))
  }

  /** `k` is the least number of leading code points whose encoding reaches byte `m`. */
  ghost predicate FewestThatReach(text: Text, m: nat, k: nat) {
    && k <= |text|
    && m <= Cut(text, k)
    && (0 < k ==> Cut(text, k - 1) < m)
  }

  lemma {:induction false} CutsMonotone(text: Text, i: nat, j: nat)
    requires i <= j <= |text|
    ensures Cut(text, i) + (j - i) <= Cut(text, j) <= Cut(text, i) + 4 * (j - i)
    decreases j - i
  {
    if i == j {
    } else {
      CutsMonotone(text, i, j - 1);
      CutGrows(text, j - 1);
    }
  }

  lemma CutGrows(text: Text, j: nat)
    requires j < |text|
    ensures Cut(text, j + 1) == Cut(text, j) + |EncodeScalar(text[j])|
  {
    assert text[..j + 1] == text[..j] + [text[j]];
    EncodeConcat(text[..j], [text[j]]);
    assert [text[j]] + [] == [text[j]];
  }

  /** Head preview: of any window that starts a valid stream, the decoder shows exactly the
      whole code points that fit, and drops at most three bytes. */
  lemma HeadPreviewIsWholeText(text: Text, n: nat, shown: Text) returns (j: nat)
    requires n <= |Encode(text)|
    requires LongestPrefix(Encode(text)[..n], shown)
    ensures MostThatFit(text, n, j) && shown == text[..j] && n - Cut(text, j) <= 3
  {
    var end := PrefixInStream(Encode(text), n, shown);
    j := PrefixEnd(text, end);
    DecodeAtCut(text, j);
    if j == |text| {
      assert text[..j] == text;
    } else {
      CutsMonotone(text, j, j + 1);
      if Cut(text, j + 1) <= n {
        DecodeAtCut(text, j + 1);
        assert false;
      }
    }
  }

  /** Tail preview: of any window that ends a valid stream, the decoder shows exactly the whole
      code points inside it, and drops at most three bytes. */
  lemma TailPreviewIsWholeText(text: Text, m: nat, shown: Text) returns (k: nat)
    requires m <= |Encode(text)|
    requires LongestSuffix(Encode(text)[m..], shown)
    ensures FewestThatReach(text, m, k) && shown == text[k..] && Cut(text, k) - m <= 3
  {
    var start := SuffixInStream(Encode(text), m, shown);
    k := SuffixStart(text, start);
    DecodeAtCut(text, k);
    if 0 < k {
      CutsMonotone(text, k - 1, k);
      if m <= Cut(text, k - 1) {
        DecodeAtCut(text, k - 1);
        assert false;
      }
    }
  }

  /** The longest decodable prefix of the window `b[..n]`, located in the whole stream `b`. */
  lemma PrefixInStream(b: Bytes, n: nat, shown: Text) returns (end: nat)
    requires n <= |b| && LongestPrefix(b[..n], shown)
    ensures end <= n && DecodeTo(b, end) == Some(shown)
    ensures forall e :: end < e <= n ==> DecodeTo(b, e).None?
  {
    end :| 0 <= end <= |b[..n]| && DecodeTo(b[..n], end) == Some(shown) &&
           forall e :: end < e <= |b[..n]| ==> DecodeTo(b[..n], e).None?;
    assert b[..n][..end] == b[..end];
    forall e | end < e <= n
      ensures DecodeTo(b, e).None?
    {
      assert DecodeTo(b[..n], e).None?;
      assert b[..n][..e] == b[..e];
    }
  }

  /** The longest decodable suffix of the window `b[m..]`, located in the whole stream `b`. */
  lemma SuffixInStream(b: Bytes, m: nat, shown: Text) returns (start: nat)
    requires m <= |b| && LongestSuffix(b[m..], shown)
    ensures m <= start <= |b| && DecodeFrom(b, start) == Some(shown)
    ensures forall s :: m <= s < start ==> DecodeFrom(b, s).None?
  {
    var from :| 0 <= from <= |b[m..]| && DecodeFrom(b[m..], from) == Some(shown) &&
                forall s :: 0 <= s < from ==> DecodeFrom(b[m..], s).None?;
    start := m + from;
    assert b[m..][from..] == b[start..];
    forall s | m <= s < start
      ensures DecodeFrom(b, s).None?
    {
      assert DecodeFrom(b[m..], s - m).None?;
      assert b[m..][s - m..] == b[s..];
    }
  }
}
