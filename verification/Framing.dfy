// go/cmd/worker/main.go (executeFunction) and go/cmd/worker/execute.py: the bytes
// that pass between the worker and the Python process it starts. Base64 is that of
// section 4 of RFC 4648.
module Framing {
  import opened Types

  const NEWLINE: Byte := 10
  const RETURN: Byte := 13
  const PAD: Byte := 61

  // ------------------------------------------------------------------- base64

  function Symbol(i: nat): Byte
    requires i < 64
  {
    if i < 26 then 65 + i else if i < 52 then 71 + i else if i < 62 then i - 4 else if i == 62 then 43 else 47
  }

  function Sextet(b: Byte): Option<nat> {
    if 65 <= b < 91 then Some(b - 65)
    else if 97 <= b < 123 then Some(b - 71)
    else if 48 <= b < 58 then Some(b + 4)
    else if b == 43 then Some(62)
    else if b == 47 then Some(63)
    else None
  }

  lemma SextetOfSymbol(i: nat)
    requires i < 64
    ensures Sextet(Symbol(i)) == Some(i)
    ensures Symbol(i) != PAD && Symbol(i) != NEWLINE && Symbol(i) != RETURN
  {
  }

  // The alphabet of table 1 in section 4 of RFC 4648, its padding, and the two bytes
  // of a line break.
  lemma SymbolIsInTable(i: nat)
    requires i < 64
    ensures i < 26 ==> Symbol(i) == 'A' as nat + i
    ensures 26 <= i < 52 ==> Symbol(i) == 'a' as nat + (i - 26)
    ensures 52 <= i < 62 ==> Symbol(i) == '0' as nat + (i - 52)
    ensures Symbol(62) == '+' as nat && Symbol(63) == '/' as nat && PAD == '=' as nat
    ensures NEWLINE == '\n' as nat && RETURN == '\r' as nat
  {
  }

  // The four sextets that carry three bytes.
  function First(a: Byte): (i: nat)
    ensures i < 64
  {
    a / 4
  }

  function Second(a: Byte, b: Byte): (i: nat)
    ensures i < 64
  {
    a % 4 * 16 + b / 16
  }

  function Third(b: Byte, c: Byte): (i: nat)
    ensures i < 64
  {
    b % 16 * 4 + c / 64
  }

  function Fourth(c: Byte): (i: nat)
    ensures i < 64
  {
    c % 64
  }

  function Encode(s: Bytes): Bytes {
    if s == [] then []
    else if |s| == 1 then [Symbol(First(s[0])), Symbol(Second(s[0], 0)), PAD, PAD]
    else if |s| == 2 then [Symbol(First(s[0])), Symbol(Second(s[0], s[1])), Symbol(Third(s[1], 0)), PAD]
    else
      [Symbol(First(s[0])), Symbol(Second(s[0], s[1])), Symbol(Third(s[1], s[2])), Symbol(Fourth(s[2]))]
      + Encode(s[3..])
  }

  // The three bytes that four sextets carry.
  function Group(p: nat, q: nat, r: nat, u: nat): (g: Bytes)
    requires p < 64 && q < 64 && r < 64 && u < 64
    ensures |g| == 3
  {
    [p * 4 + q / 16, q % 16 * 16 + r / 4, r % 4 * 64 + u]
  }

  lemma GroupOfSextets(a: Byte, b: Byte, c: Byte)
    ensures Group(First(a), Second(a, b), Third(b, c), Fourth(c)) == [a, b, c]
  {
    assert Second(a, b) / 16 == a % 4 && Second(a, b) % 16 == b / 16;
    assert Third(b, c) / 4 == b % 16 && Third(b, c) % 4 == c / 64;
  }

  // Three bytes and their four sextets are the same 24 bits.
  lemma SameBits(a: Byte, b: Byte, c: Byte)
    ensures a * 0x10000 + b * 0x100 + c ==
            First(a) * 0x40000 + Second(a, b) * 0x1000 + Third(b, c) * 0x40 + Fourth(c)
  {
    assert a == a / 4 * 4 + a % 4 && b == b / 16 * 16 + b % 16 && c == c / 64 * 64 + c % 64;
  }

  // The number of bytes that the last group lacks.
  function Lacks(s: Bytes): (n: nat)
    ensures n <= 2
  {
    if s == [] then 0 else if |s| <= 2 then 3 - |s| else Lacks(s[3..])
  }

  // Four symbols for every three bytes, and as many of the last ones are padding as
  // there are bytes lacking.
  lemma {:induction false} EncodingShape(s: Bytes)
    ensures 3 * |Encode(s)| == 4 * (|s| + Lacks(s))
    ensures forall i :: 0 <= i < |Encode(s)| ==> (Encode(s)[i] == PAD <==> i + Lacks(s) >= |Encode(s)|)
  {
    if |s| >= 3 {
      var rest := s[3..];
      EncodingShape(rest);
      GroupThenRest(s, 0);
      forall i | 0 <= i < |Encode(s)| ensures Encode(s)[i] == PAD <==> i + Lacks(s) >= |Encode(s)| {
        GroupThenRest(s, i);
        assert rest != [] ==> |Encode(rest)| > Lacks(rest);
      }
    } else if s != [] {
      SextetOfSymbol(First(s[0]));
      SextetOfSymbol(Second(s[0], if |s| == 2 then s[1] else 0));
      if |s| == 2 {
        SextetOfSymbol(Third(s[1], 0));
      }
    }
  }

  lemma GroupThenRest(s: Bytes, i: nat)
    requires |s| >= 3
    ensures |Encode(s)| == 4 + |Encode(s[3..])|
    ensures i < 4 ==> Encode(s)[i] != PAD
    ensures 4 <= i < |Encode(s)| ==> Encode(s)[i] == Encode(s[3..])[i - 4]
  {
    SextetOfSymbol(First(s[0]));
    SextetOfSymbol(Second(s[0], s[1]));
    SextetOfSymbol(Third(s[1], s[2]));
    SextetOfSymbol(Fourth(s[2]));
  }

  function Decode(t: Bytes): Option<Bytes> {
    if t == [] then Some([])
    else if |t| < 4 then None
    else
      var p, q, r, u := Sextet(t[0]), Sextet(t[1]), Sextet(t[2]), Sextet(t[3]);
      if p.None? || q.None? then None
      else if |t| == 4 && t[2] == PAD && t[3] == PAD then Some(Group(p.value, q.value, 0, 0)[..1])
      else if r.None? then None
      else if |t| == 4 && t[3] == PAD then Some(Group(p.value, q.value, r.value, 0)[..2])
      else if u.None? then None
      else
        var rest := Decode(t[4..]);
        if rest.None? then None else Some(Group(p.value, q.value, r.value, u.value) + rest.value)
  }

  // What the decoder makes of a leading group, and of the two padded endings.
  lemma DecodeGroup(w: Bytes, t: Bytes, p: nat, q: nat, r: nat, u: nat)
    requires p < 64 && q < 64 && r < 64 && u < 64 && |w| == 4
    requires w == [Symbol(p), Symbol(q), Symbol(r), Symbol(u)]
    requires Decode(t).Some?
    ensures Decode(w + t) == Some(Group(p, q, r, u) + Decode(t).value)
  {
    SextetOfSymbol(p);
    SextetOfSymbol(q);
    SextetOfSymbol(r);
    SextetOfSymbol(u);
    assert (w + t)[..4] == w && (w + t)[4..] == t;
  }

  lemma DecodeOnePad(p: nat, q: nat, r: nat)
    requires p < 64 && q < 64 && r < 64
    ensures Decode([Symbol(p), Symbol(q), Symbol(r), PAD]) == Some(Group(p, q, r, 0)[..2])
  {
    SextetOfSymbol(p);
    SextetOfSymbol(q);
    SextetOfSymbol(r);
  }

  lemma DecodeTwoPads(p: nat, q: nat)
    requires p < 64 && q < 64
    ensures Decode([Symbol(p), Symbol(q), PAD, PAD]) == Some(Group(p, q, 0, 0)[..1])
  {
    SextetOfSymbol(p);
    SextetOfSymbol(q);
  }

  lemma {:induction false} DecodeEncode(s: Bytes)
    ensures Decode(Encode(s)) == Some(s)
  {
    if |s| == 1 {
      DecodeTwoPads(First(s[0]), Second(s[0], 0));
      GroupOfSextets(s[0], 0, 0);
      assert s == [s[0], 0, 0][..1];
    } else if |s| == 2 {
      DecodeOnePad(First(s[0]), Second(s[0], s[1]), Third(s[1], 0));
      GroupOfSextets(s[0], s[1], 0);
      assert s == [s[0], s[1], 0][..2];
    } else if s != [] {
      var p, q, r, u := First(s[0]), Second(s[0], s[1]), Third(s[1], s[2]), Fourth(s[2]);
      DecodeEncode(s[3..]);
      DecodeGroup([Symbol(p), Symbol(q), Symbol(r), Symbol(u)], Encode(s[3..]), p, q, r, u);
      GroupOfSextets(s[0], s[1], s[2]);
      assert s == [s[0], s[1], s[2]] + s[3..];
    }
  }

  // The encoding never breaks a line.
  lemma {:induction false} OneLine(s: Bytes)
    ensures NEWLINE !in Encode(s) && RETURN !in Encode(s)
  {
    forall i: nat | i < 64 ensures Symbol(i) != NEWLINE && Symbol(i) != RETURN {
      SextetOfSymbol(i);
    }
    if |s| >= 3 {
      OneLine(s[3..]);
    }
  }

  // ------------------------------------------------------------------- framing

  // bytes.split(b"\n")
  function Split(s: Bytes): (parts: seq<Bytes>)
    ensures parts != []
  {
    if s == [] then [[]]
    else
      var rest := Split(s[1..]);
      if s[0] == NEWLINE then [[]] + rest else [[s[0]] + rest[0]] + rest[1..]
  }

  lemma {:induction false} SplitAtNewline(a: Bytes, rest: Bytes)
    requires NEWLINE !in a
    ensures Split(a + [NEWLINE] + rest) == [a] + Split(rest)
  {
    var s := a + [NEWLINE] + rest;
    if a == [] {
      assert s[1..] == rest;
    } else {
      SplitAtNewline(a[1..], rest);
      assert s[1..] == a[1..] + [NEWLINE] + rest;
      assert [a[0]] + a[1..] == a;
    }
  }

  lemma {:induction false} SplitWithoutNewline(a: Bytes)
    requires NEWLINE !in a
    ensures Split(a) == [a]
  {
    if a != [] {
      SplitWithoutNewline(a[1..]);
      assert [a[0]] + a[1..] == a;
    }
  }

  // What execute.py makes of its input: the decoded parts, or an exception.
  function ReadRequest(input: Bytes): Option<(Bytes, Bytes, Bytes)> {
    var parts := Split(input);
    if |parts| < 3 then None
    else
      match (Decode(parts[0]), Decode(parts[1]), Decode(parts[2]))
      case (Some(f), Some(args), Some(kwargs)) => Some((f, args, kwargs))
      case _ => None
  }

  function Frame(f: Bytes, args: Bytes, kwargs: Bytes): Bytes {
    Encode(f) + [NEWLINE] + Encode(args) + [NEWLINE] + Encode(kwargs)
  }

  lemma SplitInThree(a: Bytes, b: Bytes, c: Bytes)
    requires NEWLINE !in a && NEWLINE !in b && NEWLINE !in c
    ensures Split(a + [NEWLINE] + b + [NEWLINE] + c) == [a, b, c]
  {
    SplitWithoutNewline(c);
    SplitAtNewline(b, c);
    SplitAtNewline(a, b + [NEWLINE] + c);
    assert a + [NEWLINE] + b + [NEWLINE] + c == a + [NEWLINE] + (b + [NEWLINE] + c);
  }

  // Whatever the three byte strings are, the reader gets exactly three parts and
  // decodes them to the originals.
  lemma FrameRoundTrip(f: Bytes, args: Bytes, kwargs: Bytes)
    ensures Split(Frame(f, args, kwargs)) == [Encode(f), Encode(args), Encode(kwargs)]
    ensures ReadRequest(Frame(f, args, kwargs)) == Some((f, args, kwargs))
  {
    DecodeEncode(f);
    DecodeEncode(args);
    DecodeEncode(kwargs);
    OneLine(f);
    OneLine(args);
    OneLine(kwargs);
    SplitInThree(Encode(f), Encode(args), Encode(kwargs));
  }

  method WriteRequest(f: Bytes, args: Bytes, kwargs: Bytes) returns (inputBuffer: Bytes)
    ensures inputBuffer == Frame(f, args, kwargs)
    ensures ReadRequest(inputBuffer) == Some((f, args, kwargs))
  {
    var fB64, argsB64, kwargsB64 := Encode(f), Encode(args), Encode(kwargs);
    inputBuffer := fB64;
    inputBuffer := inputBuffer + [NEWLINE];
    inputBuffer := inputBuffer + argsB64;
    inputBuffer := inputBuffer + [NEWLINE];
    inputBuffer := inputBuffer + kwargsB64;
    assert inputBuffer == fB64 + [NEWLINE] + argsB64 + [NEWLINE] + kwargsB64;
    FrameRoundTrip(f, args, kwargs);
  }

  // ------------------------------------------------------------------ response

  // "exception was: "
  const EXCEPTION: Bytes := [101, 120, 99, 101, 112, 116, 105, 111, 110, 32, 119, 97, 115, 58, 32]

  // What the Python process prints: the encoded result, or the exception's text.
  // `call` unpickles the parts, calls the function and pickles the result; its
  // error is the text of the exception.
  datatype Outcome = Value(bytes: Bytes) | Raised(text: Bytes)

  function Main(call: (Bytes, Bytes, Bytes) -> Outcome, malformed: Bytes, input: Bytes): Bytes {
    match ReadRequest(input)
    case None => EXCEPTION + malformed + [NEWLINE]
    case Some((f, args, kwargs)) =>
      match call(f, args, kwargs)
      case Value(bytes) => Encode(bytes)
      case Raised(text) => EXCEPTION + text + [NEWLINE]
  }

  // Go's decoder skips line breaks.
  function DropLineBreaks(s: Bytes): Bytes {
    if s == [] then []
    else (if s[0] == NEWLINE || s[0] == RETURN then [] else [s[0]]) + DropLineBreaks(s[1..])
  }

  function ReadResponse(output: Bytes): Option<Bytes> {
    Decode(DropLineBreaks(output))
  }

  lemma {:induction false} DropNothing(s: Bytes)
    requires NEWLINE !in s && RETURN !in s
    ensures DropLineBreaks(s) == s
  {
    if s != [] {
      DropNothing(s[1..]);
      assert [s[0]] + s[1..] == s;
    }
  }

  lemma {:induction false} DropAfter(a: Bytes, b: Bytes)
    requires NEWLINE !in a && RETURN !in a
    ensures DropLineBreaks(a + b) == a + DropLineBreaks(b)
  {
    if a == [] {
      assert a + b == b;
    } else {
      DropAfter(a[1..], b);
      assert (a + b)[1..] == a[1..] + b;
      assert (a + b)[0] == a[0];
      assert [a[0]] + (a[1..] + DropLineBreaks(b)) == a + DropLineBreaks(b);
    }
  }

  lemma ExceptionText(i: nat)
    requires i < 15
    ensures |EXCEPTION| == 15 && EXCEPTION[i] as char == "exception was: "[i]
  {
  }

  // The text of an exception never passes for a result: its tenth byte is a space.
  lemma ExceptionIsNoResult(text: Bytes)
    ensures ReadResponse(EXCEPTION + text) == None
  {
    DropAfter(EXCEPTION, text);
    var t := EXCEPTION + DropLineBreaks(text);
    var u, v := t[4..], t[8..];
    assert u[4..] == v;
    assert v[1] == 32 && Sextet(v[1]) == None;
    assert Decode(v) == None;
    assert Decode(u) == None;
  }

  // For every task, the worker gets the value that the call returned, exactly when
  // it returned one; an exception is never taken for a value.
  lemma ExecutionRoundTrip(call: (Bytes, Bytes, Bytes) -> Outcome, malformed: Bytes, f: Bytes, args: Bytes, kwargs: Bytes)
    ensures ReadResponse(Main(call, malformed, Frame(f, args, kwargs))) ==
            match call(f, args, kwargs)
            case Value(bytes) => Some(bytes)
            case Raised(_) => None
  {
    FrameRoundTrip(f, args, kwargs);
    match call(f, args, kwargs)
    case Value(bytes) =>
      DecodeEncode(bytes);
      OneLine(bytes);
      DropNothing(Encode(bytes));
    case Raised(text) =>
      assert EXCEPTION + text + [NEWLINE] == EXCEPTION + (text + [NEWLINE]);
      ExceptionIsNoResult(text + [NEWLINE]);
  }
}
