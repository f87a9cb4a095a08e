/** Percent-encoding of query components and the parser of the sign-in callback (RFC 3986, sections 2.1 and 2.3). */
module QueryCodec {
  import opened Basics

  /** One byte of a UTF-8 text. */
  type Byte = c: char | c as int < 256 witness 'a'

  type Bytes = seq<Byte>

  // ---- encoding ---------------------------------------------------------------------------

  predicate Unreserved(b: Byte)
  {
    'A' <= b <= 'Z' || 'a' <= b <= 'z' || '0' <= b <= '9' || b == '-' || b == '_' || b == '.' || b == '~'
  }

  function HexDigit(n: nat): Byte
    requires n < 16
  {
    if n < 10 then ('0' as int + n) as char else ('A' as int + (n - 10)) as char
  }

  function Escaped(b: Byte): Bytes
  {
    if Unreserved(b) then [b] else ['%', HexDigit(b as int / 16), HexDigit(b as int % 16)]
  }

  function Encode(s: Bytes): Bytes
  {
    if s == [] then [] else Encode(s[..|s| - 1]) + Escaped(s[|s| - 1])
  }

  method EncodeQueryComponent(value: Bytes) returns (out: Bytes)
    ensures out == Encode(value)
  {
    out := [];
    for i := 0 to |value|
      invariant out == Encode(value[..i])
    {
      assert value[..i + 1][..i] == value[..i];
      if Unreserved(value[i]) {
        out := out + [value[i]];
      } else {
        out := out + ['%', HexDigit(value[i] as int / 16), HexDigit(value[i] as int % 16)];
      }
    }
    assert value[..|value|] == value;
  }

  // ---- decoding ---------------------------------------------------------------------------

  function HexValue(b: Byte): Option<nat>
  {
    if '0' <= b <= '9' then Some(b as int - '0' as int)
    else if 'A' <= b <= 'F' then Some(b as int - 'A' as int + 10)
    else if 'a' <= b <= 'f' then Some(b as int - 'a' as int + 10)
    else None
  }

  /** `u8::from_str_radix(_, 16)` on two characters: a leading plus sign is accepted. */
  function FromRadix16(a: Byte, b: Byte): (r: Option<nat>)
    ensures r.Some? ==> r.value < 256
  {
    if HexValue(b).None? then None
    else if a == '+' then HexValue(b)
    else if HexValue(a).None? then None
    else Some(16 * HexValue(a).value + HexValue(b).value)
  }

  /** A byte inside a multi-byte character; a text cannot be sliced in front of one. */
  predicate Continuation(b: Byte) { 0x80 <= b as int <= 0xBF }

  /** The two characters after a percent sign cannot be sliced out of the text. */
  predicate SliceFails(s: Bytes)
    requires |s| > 2
  {
    |s| > 3 && Continuation(s[3])
  }

  function Prepend(front: Bytes, rest: Option<Bytes>): Option<Bytes>
  {
    if rest.None? then None else Some(front + rest.value)
  }

  /** The decoded bytes; none when slicing the text panics. */
  function Decode(s: Bytes): Option<Bytes>
  {
    if s == [] then Some([])
    else if s[0] == '+' then Prepend([' '], Decode(s[1..]))
    else if s[0] == '%' && |s| > 2 then
      if SliceFails(s) then None
      else
        match FromRadix16(s[1], s[2])
        case Some(value) => Prepend([value as char], Decode(s[3..]))
        case None => Prepend(['%'], Decode(s[1..]))
    else Prepend([s[0]], Decode(s[1..]))
  }

  lemma PrependNothing(rest: Option<Bytes>)
    ensures Prepend([], rest) == rest
  {
    if rest.Some? {
      assert [] + rest.value == rest.value;
    }
  }

  lemma PrependTwice(a: Bytes, b: Bytes, rest: Option<Bytes>)
    ensures Prepend(a, Prepend(b, rest)) == Prepend(a + b, rest)
  {
    if rest.Some? {
      assert a + (b + rest.value) == (a + b) + rest.value;
    }
  }

  method PercentDecode(input: Bytes) returns (r: Option<Bytes>)
    ensures r == Decode(input)
  {
    var out: Bytes := [];
    var i := 0;
    assert input[0..] == input;
    PrependNothing(Decode(input));
    while i < |input|
      invariant 0 <= i <= |input|
      invariant Decode(input) == Prepend(out, Decode(input[i..]))
    {
      ghost var rest := input[i..];
      assert rest[1..] == input[i + 1..];
      if input[i] == '+' {
        PrependTwice(out, [' '], Decode(rest[1..]));
        out := out + [' '];
        i := i + 1;
      } else if input[i] == '%' && i + 2 < |input| {
        assert rest[3..] == input[i + 3..];
        if i + 3 < |input| && Continuation(input[i + 3]) {
          return None;
        }
        var value := FromRadix16(input[i + 1], input[i + 2]);
        if value.Some? {
          PrependTwice(out, [value.value as char], Decode(rest[3..]));
          out := out + [value.value as char];
          i := i + 3;
        } else {
          PrependTwice(out, ['%'], Decode(rest[1..]));
          out := out + [input[i]];
          i := i + 1;
        }
      } else {
        PrependTwice(out, [rest[0]], Decode(rest[1..]));
        out := out + [input[i]];
        i := i + 1;
      }
    }
    assert out + [] == out;
    return Some(out);
  }

  // ---- where slicing panics ---------------------------------------------------------------

  /** A percent sign whose two following characters end inside a multi-byte character. */
  predicate CutsCharacter(s: Bytes, i: nat)
  {
    i + 3 < |s| && s[i] == '%' && Continuation(s[i + 3])
  }

  predicate CutsSomeCharacter(s: Bytes)
  {
    exists i :: 0 <= i < |s| && CutsCharacter(s, i)
  }

  /** Skipping bytes that are no percent signs neither hides nor adds a cut. */
  lemma CutBeyond(s: Bytes, n: nat)
    requires n <= |s| && forall i :: 0 <= i < n ==> !CutsCharacter(s, i)
    ensures CutsSomeCharacter(s) <==> CutsSomeCharacter(s[n..])
  {
    if CutsSomeCharacter(s) {
      var i :| 0 <= i < |s| && CutsCharacter(s, i);
      assert CutsCharacter(s[n..], i - n);
    }
    if CutsSomeCharacter(s[n..]) {
      var i :| 0 <= i < |s[n..]| && CutsCharacter(s[n..], i);
      assert CutsCharacter(s, i + n);
    }
  }

  /** Decoding panics if and only if some percent sign stands three bytes before a continuation byte. */
  lemma {:induction false} DecodePanicsExactlyWhen(s: Bytes)
    ensures Decode(s).None? <==> CutsSomeCharacter(s)
    decreases |s|
  {
    if s != [] {
      if s[0] == '%' && |s| > 2 && SliceFails(s) {
        assert CutsCharacter(s, 0);
      } else if s[0] == '%' && |s| > 2 && FromRadix16(s[1], s[2]).Some? {
        DecodePanicsExactlyWhen(s[3..]);
        CutBeyond(s, 3);
      } else {
        DecodePanicsExactlyWhen(s[1..]);
        CutBeyond(s, 1);
      }
    }
  }

  // ---- the round trip ---------------------------------------------------------------------

  /** The characters an encoded component is made of. */
  predicate Plain(b: Byte) { Unreserved(b) || b == '%' }

  lemma {:induction false} EncodedIsPlain(s: Bytes)
    ensures forall i :: 0 <= i < |Encode(s)| ==> Plain(Encode(s)[i])
    ensures |s| <= |Encode(s)| <= 3 * |s|
  {
    if s != [] {
      EncodedIsPlain(s[..|s| - 1]);
    }
  }

  lemma HexDigitsSpell(n: nat)
    requires n < 256
    ensures FromRadix16(HexDigit(n / 16), HexDigit(n % 16)) == Some(n)
  {
    HexDigitValue(n / 16);
    HexDigitValue(n % 16);
  }

  lemma HexDigitValue(n: nat)
    requires n < 16
    ensures HexValue(HexDigit(n)) == Some(n) && HexDigit(n) != '+'
  {
  }

  lemma EscapeIsUndone(b: Byte, rest: Bytes)
    requires rest != [] ==> !Continuation(rest[0])
    ensures Decode(Escaped(b) + rest) == Prepend([b], Decode(rest))
  {
    var s := Escaped(b) + rest;
    if Unreserved(b) {
      assert s[1..] == rest;
    } else {
      var n := b as int;
      assert s[3..] == rest && s[1] == HexDigit(n / 16) && s[2] == HexDigit(n % 16);
      HexDigitsSpell(n);
    }
  }

  lemma {:induction false} DecodePrefix(s: Bytes, rest: Bytes)
    requires rest != [] ==> !Continuation(rest[0])
    ensures Decode(Encode(s) + rest) == Prepend(s, Decode(rest))
  {
    if s == [] {
      assert Encode(s) + rest == rest;
      PrependNothing(Decode(rest));
    } else {
      var front, last := s[..|s| - 1], s[|s| - 1];
      assert Encode(s) + rest == Encode(front) + (Escaped(last) + rest);
      DecodePrefix(front, Escaped(last) + rest);
      EscapeIsUndone(last, rest);
      PrependTwice(front, [last], Decode(rest));
      assert front + [last] == s;
    }
  }

  /** Decoding undoes encoding, for every byte string. */
  lemma DecodeUndoesEncode(s: Bytes)
    ensures Decode(Encode(s)) == Some(s)
  {
    DecodePrefix(s, []);
    assert Encode(s) + [] == Encode(s) && s + [] == s;
  }

  /** No two component values share an encoding. */
  lemma EncodeIsInjective(s: Bytes, t: Bytes)
    requires Encode(s) == Encode(t)
    ensures s == t
  {
    DecodeUndoesEncode(s);
    DecodeUndoesEncode(t);
  }

  // ---- other spellings --------------------------------------------------------------------

  /** One piece of an encoded text: a byte as itself, a plus sign, or a percent sign with two digits. */
  datatype Piece = Itself(b: Byte) | Plus | Hex(high: Byte, low: Byte)

  /** The hexadecimal digit, of either case, that stands for `n`. */
  predicate IsDigitOf(b: Byte, n: nat)
  {
    n < 16 && (b == "0123456789abcdef"[n] || b == "0123456789ABCDEF"[n])
  }

  predicate IsPiece(p: Piece, means: Byte)
  {
    match p
    case Itself(b) => b != '+' && b != '%' && means == b
    case Plus => means == ' '
    case Hex(high, low) => IsDigitOf(high, means as int / 16) && IsDigitOf(low, means as int % 16)
  }

  function Spelling(ps: seq<Piece>): Bytes
  {
    if ps == [] then []
    else
      (match ps[0] case Itself(b) => [b] case Plus => ['+'] case Hex(high, low) => ['%', high, low]) + Spelling(ps[1..])
  }

  lemma DigitsHaveValues(b: Byte, n: nat)
    ensures IsDigitOf(b, n) <==> HexValue(b) == Some(n)
    ensures IsDigitOf(b, n) ==> b != '+'
  {
  }

  lemma HexIsUndone(high: Byte, low: Byte, b: Byte, rest: Bytes)
    requires IsDigitOf(high, b as int / 16) && IsDigitOf(low, b as int % 16) && (rest != [] ==> !Continuation(rest[0]))
    ensures Decode(['%', high, low] + rest) == Prepend([b], Decode(rest))
  {
    hide HexValue, IsDigitOf;
    DigitsHaveValues(high, b as int / 16);
    DigitsHaveValues(low, b as int % 16);
    var s: Bytes := ['%', high, low] + rest;
    assert s[3..] == rest && s[1] == high && s[2] == low;
    assert FromRadix16(high, low) == Some(b as int);
  }

  lemma FirstOfSpelling(ps: seq<Piece>)
    requires ps != []
    ensures Spelling(ps) != []
    ensures Spelling(ps)[0] == match ps[0] case Itself(b) => b case Plus => '+' case Hex(_, _) => '%'
  {
  }

  /**
   * Every spelling of a byte string decodes to it: any byte as itself except plus and percent signs, a space as a
   * plus sign, any byte as two hexadecimal digits of either case; provided no escape stands directly in front of
   * a continuation byte.
   */
  lemma {:induction false} EverySpellingDecodes(ps: seq<Piece>, s: Bytes)
    requires |ps| == |s| && forall i :: 0 <= i < |ps| ==> IsPiece(ps[i], s[i])
    requires forall i :: 0 < i < |ps| && ps[i - 1].Hex? && ps[i].Itself? ==> !Continuation(ps[i].b)
    ensures Decode(Spelling(ps)) == Some(s)
  {
    hide IsDigitOf;
    if ps == [] {
    } else {
      EverySpellingDecodes(ps[1..], s[1..]);
      var rest := Spelling(ps[1..]);
      if ps[1..] != [] { FirstOfSpelling(ps[1..]); }
      assert s == [s[0]] + s[1..];
      match ps[0]
      case Hex(high, low) => HexIsUndone(high, low, s[0], rest);
      case _ => assert Spelling(ps)[1..] == rest;
    }
  }

  ghost predicate NoDigit(b: Byte) { forall n: nat :: !IsDigitOf(b, n) }

  lemma NoDigitNoValue(b: Byte)
    ensures NoDigit(b) ==> HexValue(b).None?
  {
    hide HexValue, IsDigitOf;
    if HexValue(b).Some? { DigitsHaveValues(b, HexValue(b).value); }
  }

  /** A percent sign that no two digits follow stands for itself, and decoding goes on right behind it. */
  lemma StrayPercentStays(rest: Bytes)
    requires |rest| >= 2 ==> NoDigit(rest[1]) || (NoDigit(rest[0]) && rest[0] != '+')
    requires |rest| >= 3 ==> !Continuation(rest[2])
    ensures Decode("%" + rest) == Prepend("%", Decode(rest))
  {
    hide HexValue, IsDigitOf;
    var s: Bytes := "%" + rest;
    assert s[1..] == rest;
    if |rest| >= 2 {
      NoDigitNoValue(rest[0]);
      NoDigitNoValue(rest[1]);
    }
  }

  // ---- the callback request ---------------------------------------------------------------

  datatype CallbackOutcome = Accepted(code: Bytes, state: Bytes) | InvalidRequest | Panics

  /** The number of bytes of the white-space character at the front of a UTF-8 text, 0 if there is none. */
  function SpaceLength(s: Bytes): (n: nat)
    ensures n <= |s|
  {
    if s == [] then 0
    else
      var a := s[0] as int;
      if 0x9 <= a <= 0xD || a == 0x20 then 1
      else if |s| < 2 then 0
      else
        var b := s[1] as int;
        if a == 0xC2 && (b == 0x85 || b == 0xA0) then 2
        else if |s| < 3 then 0
        else
          var c := s[2] as int;
          if a == 0xE1 && b == 0x9A && c == 0x80 then 3
          else if a == 0xE2 && b == 0x80 && (0x80 <= c <= 0x8A || c == 0xA8 || c == 0xA9 || c == 0xAF) then 3
          else if a == 0xE2 && b == 0x81 && c == 0x9F then 3
          else if a == 0xE3 && b == 0x80 && c == 0x80 then 3
          else 0
  }

  function SkipSpaces(s: Bytes): Bytes
    decreases |s|
  {
    if SpaceLength(s) > 0 then SkipSpaces(s[SpaceLength(s)..]) else s
  }

  function WordLength(s: Bytes): (n: nat)
    ensures n <= |s|
  {
    if s == [] || SpaceLength(s) > 0 then 0 else 1 + WordLength(s[1..])
  }

  predicate SpaceFree(s: Bytes) { WordLength(s) == |s| }

  /** The position of the first `b`, or the length. */
  function IndexOf(s: Bytes, b: Byte): (n: nat)
    ensures n <= |s| && (n < |s| ==> s[n] == b) && b !in s[..n]
  {
    if s == [] || s[0] == b then 0
    else
      var n := 1 + IndexOf(s[1..], b);
      assert s[..n] == [s[0]] + s[1..][..n - 1];
      n
  }

  function FirstLine(request: Bytes): Bytes { request[..IndexOf(request, '\n')] }

  function SplitOn(s: Bytes, b: Byte): (r: seq<Bytes>)
    ensures r != []
    decreases |s|
  {
    var n := IndexOf(s, b);
    if n == |s| then [s] else [s[..n]] + SplitOn(s[n + 1..], b)
  }

  datatype Harvest = Harvest(code: Option<Bytes>, state: Option<Bytes>)

  function KeyOf(pair: Bytes): Bytes { pair[..IndexOf(pair, '=')] }

  function ValueOf(pair: Bytes): Bytes
  {
    if IndexOf(pair, '=') == |pair| then [] else pair[IndexOf(pair, '=') + 1..]
  }

  /** One `key=value` pair; a later one wins, and other keys are ignored. */
  function Harvested(h: Harvest, pair: Bytes): Option<Harvest>
  {
    if KeyOf(pair) == "code" then
      match Decode(ValueOf(pair)) case Some(value) => Some(h.(code := Some(value))) case None => None
    else if KeyOf(pair) == "state" then
      match Decode(ValueOf(pair)) case Some(value) => Some(h.(state := Some(value))) case None => None
    else Some(h)
  }

  function HarvestAll(pairs: seq<Bytes>, n: nat): Option<Harvest>
    requires n <= |pairs|
  {
    if n == 0 then Some(Harvest(None, None))
    else
      match HarvestAll(pairs, n - 1)
      case Some(h) => Harvested(h, pairs[n - 1])
      case None => None
  }

  function OutcomeOf(h: Option<Harvest>): CallbackOutcome
  {
    if h.None? then Panics
    else if h.value.code.Some? && h.value.code.value != [] && h.value.state.Some? && h.value.state.value != []
    then Accepted(h.value.code.value, h.value.state.value)
    else InvalidRequest
  }

  /** The first two words of the first line. */
  function RequestLine(request: Bytes): Option<(Bytes, Bytes)>
  {
    var line := SkipSpaces(FirstLine(request));
    var verb := line[..WordLength(line)];
    var rest := SkipSpaces(line[WordLength(line)..]);
    var target := rest[..WordLength(rest)];
    if verb == [] || target == [] then None else Some((verb, target))
  }

  function ParseTarget(target: Bytes, expectedPath: Bytes): CallbackOutcome
  {
    var n := IndexOf(target, '?');
    if target[..n] != expectedPath || n == |target| then InvalidRequest
    else
      var pairs := SplitOn(target[n + 1..], '&');
      OutcomeOf(HarvestAll(pairs, |pairs|))
  }

  function Parse(request: Bytes, expectedPath: Bytes): CallbackOutcome
  {
    match RequestLine(request)
    case None => InvalidRequest
    case Some((verb, target)) => if verb != "GET" then InvalidRequest else ParseTarget(target, expectedPath)
  }

  method ParseCallbackRequest(request: Bytes, expectedPath: Bytes) returns (r: CallbackOutcome)
    ensures r == Parse(request, expectedPath)
  {
    var words := RequestLine(request);
    if words.None? {
      return InvalidRequest;
    }
    var (verb, target) := words.value;
    if verb != "GET" {
      return InvalidRequest;
    }
    var n := IndexOf(target, '?');
    if target[..n] != expectedPath || n == |target| {
      return InvalidRequest;
    }
    var code: Option<Bytes>, state: Option<Bytes> := None, None;
    var pairs := SplitOn(target[n + 1..], '&');
    for i := 0 to |pairs|
      invariant HarvestAll(pairs, i) == Some(Harvest(code, state))
    {
      PanicIsFinal(pairs, i + 1, |pairs|);
      var key, value := KeyOf(pairs[i]), ValueOf(pairs[i]);
      if key == "code" {
        code := PercentDecode(value);
        if code.None? {
          return Panics;
        }
      } else if key == "state" {
        state := PercentDecode(value);
        if state.None? {
          return Panics;
        }
      }
    }
    if code.Some? && code.value != [] && state.Some? && state.value != [] {
      return Accepted(code.value, state.value);
    }
    return InvalidRequest;
  }

  lemma {:induction false} PanicIsFinal(pairs: seq<Bytes>, m: nat, n: nat)
    requires m <= n <= |pairs|
    ensures HarvestAll(pairs, m).None? ==> HarvestAll(pairs, n).None?
  {
    if m < n {
      PanicIsFinal(pairs, m, n - 1);
    }
  }

  // ---- what is accepted -------------------------------------------------------------------

  /** The pieces put together again, with the separator between them. */
  function Joined(pieces: seq<Bytes>, b: Byte): Bytes
    requires pieces != []
  {
    if |pieces| == 1 then pieces[0] else pieces[0] + [b] + Joined(pieces[1..], b)
  }

  lemma {:induction false} SplitIsExact(s: Bytes, b: Byte)
    ensures Joined(SplitOn(s, b), b) == s
    ensures forall i :: 0 <= i < |SplitOn(s, b)| ==> b !in SplitOn(s, b)[i]
    decreases |s|
  {
    var n := IndexOf(s, b);
    if n < |s| {
      SplitIsExact(s[n + 1..], b);
      assert s == s[..n] + [b] + s[n + 1..];
    } else {
      assert s[..n] == s;
    }
  }

  /** A pair is cut at its first equals sign; without one it is a key with an empty value. */
  lemma PairIsCut(pair: Bytes)
    ensures '=' !in KeyOf(pair)
    ensures if '=' in pair then pair == KeyOf(pair) + "=" + ValueOf(pair)
            else KeyOf(pair) == pair && ValueOf(pair) == []
  {
    var n := IndexOf(pair, '=');
    assert pair[..|pair|] == pair;
    if n < |pair| {
      assert pair == pair[..n] + [pair[n]] + pair[n + 1..];
    }
  }

  /** Among the first `n` pairs number `k` is the last with this key. */
  predicate LastWith(pairs: seq<Bytes>, n: nat, key: Bytes, k: nat)
    requires n <= |pairs|
  {
    k < n && KeyOf(pairs[k]) == key && forall j :: k < j < n ==> KeyOf(pairs[j]) != key
  }

  /** What the first `n` pairs say about a key: the value of the last pair with it, or nothing. */
  ghost predicate Says(pairs: seq<Bytes>, n: nat, key: Bytes, value: Option<Bytes>)
    requires n <= |pairs|
  {
    match value
    case None => forall k :: 0 <= k < n ==> KeyOf(pairs[k]) != key
    case Some(_) => exists k: nat :: LastWith(pairs, n, key, k) && Decode(ValueOf(pairs[k])) == value
  }

  lemma SaysOneMore(pairs: seq<Bytes>, n: nat, key: Bytes, value: Option<Bytes>)
    requires n < |pairs| && Says(pairs, n, key, value)
    ensures KeyOf(pairs[n]) != key ==> Says(pairs, n + 1, key, value)
    ensures KeyOf(pairs[n]) == key && Decode(ValueOf(pairs[n])).Some? ==>
              Says(pairs, n + 1, key, Decode(ValueOf(pairs[n])))
  {
    hide Decode, ValueOf, KeyOf;
    if KeyOf(pairs[n]) == key {
      assert LastWith(pairs, n + 1, key, n);
    } else if value.Some? {
      var k: nat :| LastWith(pairs, n, key, k) && Decode(ValueOf(pairs[k])) == value;
      assert LastWith(pairs, n + 1, key, k);
    }
  }

  lemma {:induction false} HarvestSays(pairs: seq<Bytes>, n: nat)
    requires n <= |pairs| && HarvestAll(pairs, n).Some?
    ensures var h := HarvestAll(pairs, n).value; Says(pairs, n, "code", h.code) && Says(pairs, n, "state", h.state)
  {
    hide Decode, ValueOf, KeyOf, Says;
    if n == 0 {
      NothingSaid(pairs, "code");
      NothingSaid(pairs, "state");
    } else {
      HarvestSays(pairs, n - 1);
      var before := HarvestAll(pairs, n - 1).value;
      SaysOneMore(pairs, n - 1, "code", before.code);
      SaysOneMore(pairs, n - 1, "state", before.state);
    }
  }

  lemma NothingSaid(pairs: seq<Bytes>, key: Bytes)
    ensures Says(pairs, 0, key, None)
  {
  }

  lemma SaysOneThing(pairs: seq<Bytes>, n: nat, key: Bytes, a: Option<Bytes>, b: Option<Bytes>)
    requires n <= |pairs| && Says(pairs, n, key, a) && Says(pairs, n, key, b)
    ensures a == b
  {
    hide Decode, ValueOf, KeyOf;
    if a.Some? && b.Some? {
      var k: nat :| LastWith(pairs, n, key, k) && Decode(ValueOf(pairs[k])) == a;
      var l: nat :| LastWith(pairs, n, key, l) && Decode(ValueOf(pairs[l])) == b;
      assert k == l;
    }
  }

  /** The last code and the last state among the pairs, decoded, are these, and neither is empty. */
  ghost predicate Carries(pairs: seq<Bytes>, code: Bytes, state: Bytes)
  {
    && code != [] && Says(pairs, |pairs|, "code", Some(code))
    && state != [] && Says(pairs, |pairs|, "state", Some(state))
  }

  /**
   * A request is accepted with a code and a state if and only if it is a GET of the expected path with a query in
   * which nothing panics, and these are the decoded values, neither of them empty, of the last `code` and the last
   * `state` among its pairs. All other keys, and earlier values, are ignored.
   */
  lemma AcceptedExactlyWhen(request: Bytes, path: Bytes, code: Bytes, state: Bytes)
    ensures Parse(request, path) == Accepted(code, state) <==>
            match PairsOf(request, path)
            case None => false
            case Some(pairs) => !Parse(request, path).Panics? && Carries(pairs, code, state)
  {
    hide Decode, Says, Harvested, RequestLine, SplitOn;
    if PairsOf(request, path).Some? {
      var pairs := PairsOf(request, path).value;
      var h := HarvestAll(pairs, |pairs|);
      if h.Some? {
        HarvestSays(pairs, |pairs|);
        if Says(pairs, |pairs|, "code", Some(code)) {
          SaysOneThing(pairs, |pairs|, "code", Some(code), h.value.code);
        }
        if Says(pairs, |pairs|, "state", Some(state)) {
          SaysOneThing(pairs, |pairs|, "state", Some(state), h.value.state);
        }
      }
    }
  }

  // ---- which requests panic ---------------------------------------------------------------

  predicate IsWanted(pair: Bytes) { KeyOf(pair) == "code" || KeyOf(pair) == "state" }

  lemma {:induction false} HarvestPanicsExactlyWhen(pairs: seq<Bytes>, n: nat)
    requires n <= |pairs|
    ensures HarvestAll(pairs, n).None? <==>
            exists k :: 0 <= k < n && IsWanted(pairs[k]) && CutsSomeCharacter(ValueOf(pairs[k]))
  {
    hide Decode, CutsSomeCharacter, KeyOf, ValueOf;
    if n > 0 {
      HarvestPanicsExactlyWhen(pairs, n - 1);
      DecodePanicsExactlyWhen(ValueOf(pairs[n - 1]));
    }
  }

  /** The pairs of a request that gets as far as its query. */
  function PairsOf(request: Bytes, expectedPath: Bytes): Option<seq<Bytes>>
  {
    match RequestLine(request)
    case None => None
    case Some((verb, target)) =>
      var n := IndexOf(target, '?');
      if verb == "GET" && n < |target| && target[..n] == expectedPath then Some(SplitOn(target[n + 1..], '&')) else None
  }

  /**
   * A request makes the parser panic if and only if it gets as far as its query and a code or a state in it has
   * a percent sign three bytes before a continuation byte. Every other request gets an answer.
   */
  lemma ParsePanicsExactlyWhen(request: Bytes, expectedPath: Bytes)
    ensures Parse(request, expectedPath).Panics? <==>
            PairsOf(request, expectedPath).Some? &&
            var pairs := PairsOf(request, expectedPath).value;
            exists k :: 0 <= k < |pairs| && IsWanted(pairs[k]) && CutsSomeCharacter(ValueOf(pairs[k]))
  {
    var pairs := PairsOf(request, expectedPath);
    if pairs.Some? {
      HarvestPanicsExactlyWhen(pairs.value, |pairs.value|);
    }
  }

  // ---- what the server sends back is what the parser accepts ------------------------------

  lemma {:induction false} IndexPast(front: Bytes, b: Byte, rest: Bytes)
    requires b !in front && (rest == [] || rest[0] == b)
    ensures IndexOf(front + rest, b) == |front|
  {
    if front == [] {
      assert front + rest == rest;
    } else {
      assert (front + rest)[1..] == front[1..] + rest;
      IndexPast(front[1..], b, rest);
    }
  }

  lemma {:induction false} WordEnds(word: Bytes, rest: Bytes)
    requires SpaceFree(word)
    requires rest == [] || (rest[0] as int < 128) || (word != [] && word[|word| - 1] as int < 128)
    ensures WordLength(word + rest) == |word| + WordLength(rest)
  {
    if word == [] {
      assert word + rest == rest;
    } else {
      assert (word + rest)[1..] == word[1..] + rest;
      if word[1..] != [] {
        assert word[1..][|word| - 2] == word[|word| - 1];
        WordEnds(word[1..], rest);
      } else {
        assert word[1..] + rest == rest;
      }
    }
  }

  lemma {:induction false} AsciiWordIsSpaceFree(s: Bytes)
    requires forall i :: 0 <= i < |s| ==> 0x20 < s[i] as int < 0x80
    ensures SpaceFree(s) && '\n' !in s
  {
    if s != [] {
      AsciiWordIsSpaceFree(s[1..]);
    }
  }

  function Pair(key: Bytes, value: Bytes): Bytes { key + "=" + Encode(value) }

  lemma PairParts(key: Bytes, value: Bytes)
    requires '=' !in key
    ensures KeyOf(Pair(key, value)) == key && Decode(ValueOf(Pair(key, value))) == Some(value)
  {
    var tail: Bytes := "=" + Encode(value);
    assert Pair(key, value) == key + tail;
    IndexPast(key, '=', tail);
    assert ValueOf(Pair(key, value)) == Encode(value);
    DecodeUndoesEncode(value);
  }

  lemma QueryPairs(first: Bytes, second: Bytes)
    requires '&' !in first && '&' !in second
    ensures SplitOn(first + "&" + second, '&') == [first, second]
  {
    var tail: Bytes := "&" + second;
    var query := first + "&" + second;
    assert query == first + tail;
    IndexPast(first, '&', tail);
    assert query[|first| + 1..] == second;
    IndexPast(second, '&', []);
    assert second + [] == second;
  }

  lemma PairIsPlain(key: Bytes, value: Bytes)
    requires key in {"code", "state"}
    ensures '&' !in Pair(key, value) && forall i :: 0 <= i < |Pair(key, value)| ==>
            0x20 < Pair(key, value)[i] as int < 0x80
  {
    EncodedIsPlain(value);
  }

  /** The query in either order. */
  function CallbackQuery(code: Bytes, state: Bytes, stateFirst: bool): Bytes
  {
    if stateFirst then Pair("state", state) + "&" + Pair("code", code)
        else Pair("code", code) + "&" + Pair("state", state)
  }

  lemma QueryYieldsBoth(code: Bytes, state: Bytes, stateFirst: bool)
    ensures var pairs := SplitOn(CallbackQuery(code, state, stateFirst), '&');
            HarvestAll(pairs, |pairs|) == Some(Harvest(Some(code), Some(state)))
  {
    PairIsPlain("code", code);
    PairIsPlain("state", state);
    PairParts("code", code);
    PairParts("state", state);
    var first := if stateFirst then Pair("state", state) else Pair("code", code);
    var second := if stateFirst then Pair("code", code) else Pair("state", state);
    QueryPairs(first, second);
    var pairs := [first, second];
    assert HarvestAll(pairs, 0) == Some(Harvest(None, None));
    assert HarvestAll(pairs, 1) == Harvested(Harvest(None, None), first);
  }

  function CallbackTarget(path: Bytes, code: Bytes, state: Bytes, stateFirst: bool): Bytes
  {
    path + "?" + CallbackQuery(code, state, stateFirst)
  }

  lemma TargetParses(path: Bytes, code: Bytes, state: Bytes, stateFirst: bool)
    requires '?' !in path
    ensures ParseTarget(CallbackTarget(path, code, state, stateFirst), path)
            == OutcomeOf(Some(Harvest(Some(code), Some(state))))
  {
    var query := CallbackQuery(code, state, stateFirst);
    QuerySplitsOff(path, query);
    QueryYieldsBoth(code, state, stateFirst);
  }

  lemma QuerySplitsOff(path: Bytes, query: Bytes)
    requires '?' !in path
    ensures var target := path + "?" + query;
            IndexOf(target, '?') == |path| < |target| && target[..|path|] == path && target[|path| + 1..] == query
  {
    var tail: Bytes := "?" + query;
    assert path + "?" + query == path + tail;
    IndexPast(path, '?', tail);
  }

  lemma QueryIsAscii(code: Bytes, state: Bytes, stateFirst: bool)
    ensures var query := CallbackQuery(code, state, stateFirst);
            query != [] && forall i :: 0 <= i < |query| ==> 0x20 < query[i] as int < 0x80
  {
    PairIsPlain("code", code);
    PairIsPlain("state", state);
  }

  lemma TargetIsOneWord(path: Bytes, code: Bytes, state: Bytes, stateFirst: bool)
    requires SpaceFree(path)
    ensures SpaceFree(CallbackTarget(path, code, state, stateFirst))
    ensures var target := CallbackTarget(path, code, state, stateFirst);
            target != [] && target[|target| - 1] as int < 128
  {
    var query := CallbackQuery(code, state, stateFirst);
    QueryIsAscii(code, state, stateFirst);
    AsciiTail(path, query);
  }

  lemma AsciiTail(path: Bytes, query: Bytes)
    requires SpaceFree(path) && query != [] && forall i :: 0 <= i < |query| ==> 0x20 < query[i] as int < 0x80
    ensures SpaceFree(path + "?" + query) && (path + "?" + query)[|path| + |query|] as int < 128
  {
    var tail: Bytes := "?" + query;
    assert path + "?" + query == path + tail;
    AsciiWordIsSpaceFree(tail);
    WordEnds(path, tail);
  }

  lemma {:induction false} SpaceFreeHasNoNewline(s: Bytes)
    requires SpaceFree(s)
    ensures '\n' !in s
  {
    if s != [] {
      SpaceFreeHasNoNewline(s[1..]);
      assert s == [s[0]] + s[1..];
    }
  }

  /** Whatever follows the target is cut off by the first line break without touching a white-space character. */
  lemma FirstLineKeeps(front: Bytes, rest: Bytes)
    requires '\n' !in front
    ensures FirstLine(front + rest) == front + FirstLine(rest)
  {
    IndexBeyond(front, '\n', rest);
    assert (front + rest)[..|front| + IndexOf(rest, '\n')] == front + rest[..IndexOf(rest, '\n')];
  }

  lemma {:induction false} IndexBeyond(front: Bytes, b: Byte, rest: Bytes)
    requires b !in front
    ensures IndexOf(front + rest, b) == |front| + IndexOf(rest, b)
  {
    if front == [] {
      assert front + rest == rest;
    } else {
      assert (front + rest)[1..] == front[1..] + rest;
      IndexBeyond(front[1..], b, rest);
    }
  }

  lemma CutKeepsSpace(rest: Bytes)
    requires SpaceLength(rest) > 0
    ensures FirstLine(rest) == [] || SpaceLength(FirstLine(rest)) > 0
  {
    var n := IndexOf(rest, '\n');
    assert n < |rest| ==> rest[n] == '\n';
  }

  lemma LineSplits(target: Bytes, after: Bytes)
    requires SpaceFree(target) && target != [] && target[|target| - 1] as int < 128
    requires after == [] || SpaceLength(after) > 0
    ensures var line := "GET " + target + after; var get: Bytes := "GET";
            SkipSpaces(line) == line && WordLength(line) == 3 && line[..3] == get
                && SkipSpaces(line[3..]) == target + after
  {
    var get: Bytes := "GET";
    var tail: Bytes := " " + target + after;
    var line: Bytes := "GET " + target + after;
    assert line == get + tail;
    AsciiWordIsSpaceFree(get);
    WordEnds(get, tail);
    assert line[3..] == tail;
    assert tail[1..] == target + after;
    FrontIsNotSpace(target, after);
  }

  lemma FrontIsNotSpace(word: Bytes, after: Bytes)
    requires SpaceFree(word) && word != [] && word[|word| - 1] as int < 128
    ensures SpaceLength(word + after) == 0
  {
    assert (word + after)[0] == word[0];
    if |word| == 1 {
      assert (word + after)[0] as int < 128;
    }
  }

  lemma RequestLineSplits(target: Bytes, rest: Bytes)
    requires SpaceFree(target) && target != [] && target[|target| - 1] as int < 128
    requires rest == [] || SpaceLength(rest) > 0
    ensures RequestLine("GET " + target + rest) == Some(("GET", target))
  {
    var front: Bytes := "GET " + target;
    SpaceFreeHasNoNewline(target);
    FirstLineKeeps(front, rest);
    if rest != [] { CutKeepsSpace(rest); }
    var after := FirstLine(rest);
    assert front + after == "GET " + target + after;
    LineSplits(target, after);
    WordEnds(target, after);
    assert (target + after)[..|target|] == target;
  }

  lemma {:induction false} PrefixOfWordIsSpaceFree(s: Bytes, n: nat)
    requires n <= WordLength(s)
    ensures SpaceFree(s[..n])
  {
    if n > 0 {
      PrefixOfWordIsSpaceFree(s[1..], n - 1);
      assert s[..n][1..] == s[1..][..n - 1];
    }
  }

  /** A request is only ever accepted for a path without white space and question marks. */
  lemma AcceptedPathIsPlain(request: Bytes, path: Bytes)
    requires !Parse(request, path).InvalidRequest?
    ensures SpaceFree(path) && '?' !in path
  {
    var line := SkipSpaces(FirstLine(request));
    var rest := SkipSpaces(line[WordLength(line)..]);
    var target := rest[..WordLength(rest)];
    var n := IndexOf(target, '?');
    assert path == target[..n];
    PrefixOfWordIsSpaceFree(rest, n);
    assert rest[..n] == target[..n];
  }

  /**
   * A callback built from an encoded code and state, in either order and with anything after the target, parses
   * back to exactly that pair, exactly when neither is empty and the expected path is free of spaces and question
   * marks.
   */
  lemma CallbackRoundTrip(path: Bytes, code: Bytes, state: Bytes, stateFirst: bool, rest: Bytes)
    requires rest == [] || SpaceLength(rest) > 0
    ensures Parse("GET " + CallbackTarget(path, code, state, stateFirst) + rest, path) == Accepted(code, state)
            <==> code != [] && state != [] && SpaceFree(path) && '?' !in path
  {
    var request := "GET " + CallbackTarget(path, code, state, stateFirst) + rest;
    if SpaceFree(path) && '?' !in path {
      TargetIsOneWord(path, code, state, stateFirst);
      RequestLineSplits(CallbackTarget(path, code, state, stateFirst), rest);
      TargetParses(path, code, state, stateFirst);
    } else if Parse(request, path).Accepted? {
      AcceptedPathIsPlain(request, path);
    }
  }
}
