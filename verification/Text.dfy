/** Text helpers of src/common/StringUtil.hpp, the decimal conversions (`lexical_cast`) that every message uses, and
    integer division. */
module Text {

  datatype Option<+T> = None | Some(value: T)

  /** C++ integer division, which truncates toward zero. */
  function Quotient(a: int, b: int): int
    requires b != 0
  {
    if a >= 0 then (if b > 0 then a / b else -(a / -b))
    else if b > 0 then -((-a) / b) else (-a) / -b
  }

  // ---------------------------------------------------------------- decimals

  predicate IsDigit(c: char) {
    '0' <= c <= '9'
  }

  predicate AllDigits(s: string) {
    forall i :: 0 <= i < |s| ==> IsDigit(s[i])
  }

  function DigitChar(n: nat): (c: char)
    requires n < 10
  {
    '0' + n as char
  }

  /** The decimal digits of a natural number, without leading zeros. */
  function Digits(n: nat): (s: string)
    ensures |s| > 0 && AllDigits(s)
    ensures s[0] == '0' <==> n == 0
  {
    if n < 10 then [DigitChar(n)] else Digits(n / 10) + [DigitChar(n % 10)]
  }

  /** `lexical_cast<string>` of an integer. */
  function IntText(n: int): (s: string)
    ensures |s| > 0 && (s[0] == '0' <==> n == 0)
    ensures forall i :: 0 <= i < |s| ==> IsDigit(s[i]) || s[i] == '-'
  {
    if n < 0 then "-" + Digits(-n) else Digits(n)
  }

  function DigitsValue(s: string): nat
    requires AllDigits(s)
  {
    if s == [] then 0 else 10 * DigitsValue(s[..|s| - 1]) + (s[|s| - 1] - '0') as nat
  }

  predicate IsInt32(n: int) {
    -0x8000_0000 <= n < 0x8000_0000
  }

  /** The integer a text denotes: an optional sign, at least one digit, nothing else. */
  function IntValue(s: string): Option<int> {
    var signed := s != [] && (s[0] == '-' || s[0] == '+');
    var digits := if signed then s[1..] else s;
    if digits == [] || !AllDigits(digits) then None
    else if signed && s[0] == '-' then Some(0 - DigitsValue(digits))
    else Some(DigitsValue(digits))
  }

  /** `lexical_cast<int>`: None is the exception the C++ function throws, also for a value beyond 32 bits. */
  function ParseInt(s: string): Option<int> {
    match IntValue(s)
    case None => None
    case Some(v) => if IsInt32(v) then Some(v) else None
  }

  lemma {:induction false} DigitsRoundTrip(n: nat)
    ensures DigitsValue(Digits(n)) == n
  {
    var s := Digits(n);
    if n < 10 {
      assert s[..|s| - 1] == [];
    } else {
      DigitsRoundTrip(n / 10);
      assert s[..|s| - 1] == Digits(n / 10);
    }
  }

  /** Every integer survives being written as text and read back. */
  lemma IntTextRoundTrip(n: int)
    ensures IntValue(IntText(n)) == Some(n)
    ensures IsInt32(n) ==> ParseInt(IntText(n)) == Some(n)
  {
    if n < 0 {
      DigitsRoundTrip(-n);
      assert IntText(n)[1..] == Digits(-n);
    } else {
      DigitsRoundTrip(n);
    }
  }

  /** Different integers have different decimal texts. */
  lemma IntTextInjective(m: int, n: int)
    requires IntText(m) == IntText(n)
    ensures m == n
  {
    IntTextRoundTrip(m);
    IntTextRoundTrip(n);
  }

  // ---------------------------------------------------------------- explode

  /** The first position of `d` in `s`, or |s|. */
  function IndexOf(s: string, d: char): (i: nat)
    ensures i <= |s|
    ensures d !in s[..i]
    ensures i < |s| ==> s[i] == d
  {
    if s == [] then 0
    else if s[0] == d then 0
    else
      var i := 1 + IndexOf(s[1..], d);
      assert s[..i] == [s[0]] + s[1..][..i - 1];
      i
  }

  /** Repeated `std::getline`: an empty last piece is not a token. */
  function Explode(s: string, d: char): seq<string> {
    if s == [] then []
    else
      var i := IndexOf(s, d);
      if i == |s| then [s] else [s[..i]] + Explode(s[i + 1..], d)
  }

  /** The tokens, each followed by the delimiter. */
  function Terminated(tokens: seq<string>, d: char): string {
    if tokens == [] then "" else tokens[0] + [d] + Terminated(tokens[1..], d)
  }

  function AfterToken(s: string, d: char): string
    requires s != []
  {
    var i := IndexOf(s, d);
    if i < |s| then s[i + 1..] else ""
  }

  lemma ExplodeStep(r: seq<string>, s: string, d: char)
    requires s != []
    ensures r + Explode(s, d) == r + [s[..IndexOf(s, d)]] + Explode(AfterToken(s, d), d)
  {
    assert s[..|s|] == s;
    assert Explode(s, d) == [s[..IndexOf(s, d)]] + Explode(AfterToken(s, d), d);
  }

  /** The first token is the text before the first delimiter. */
  lemma ExplodeHead(s: string, d: char)
    requires s != []
    ensures |Explode(s, d)| > 0 && Explode(s, d)[0] == s[..IndexOf(s, d)]
  {
    assert s[..|s|] == s;
  }

  lemma {:induction false} IndexOfPrefix(a: string, d: char, b: string)
    requires d in a
    ensures IndexOf(a + b, d) < |a|
  {
    if a[0] != d {
      IndexOfPrefix(a[1..], d, b);
      assert (a + b)[1..] == a[1..] + b;
    }
  }

  /** The loop of StringUtil::explode; `stream` is what the string stream has left to read. */
  method ExplodeText(s: string, d: char) returns (r: seq<string>)
    ensures r == Explode(s, d)
  {
    r := [];
    var stream := s;
    while stream != []
      invariant r + Explode(stream, d) == Explode(s, d)
      decreases |stream|
    {
      ExplodeStep(r, stream, d);
      r := r + [stream[..IndexOf(stream, d)]];
      stream := AfterToken(stream, d);
    }
  }

  /** No token contains the delimiter. */
  lemma {:induction false} TokensAreFree(s: string, d: char)
    ensures forall i :: 0 <= i < |Explode(s, d)| ==> d !in Explode(s, d)[i]
    decreases |s|
  {
    if s != [] && IndexOf(s, d) < |s| {
      TokensAreFree(s[IndexOf(s, d) + 1..], d);
    } else if s != [] {
      assert s[..|s|] == s;
    }
  }

  /** Nothing is lost: re-joining gives the text back, up to one final delimiter that the text may lack. */
  lemma {:induction false} ExplodeExact(s: string, d: char)
    requires s != []
    ensures Terminated(Explode(s, d), d) == if s[|s| - 1] == d then s else s + [d]
    decreases |s|
  {
    hide Explode, Terminated, IndexOf;
    FirstToken(s, d);
    TerminatedNone(d);
    var i := IndexOf(s, d);
    if i < |s| {
      Rejoin(s, i);
      TerminatedFirst(s[..i], Explode(s[i + 1..], d), d);
      if s[i + 1..] != [] {
        ExplodeExact(s[i + 1..], d);
        assert s[..i] + [d] + (s[i + 1..] + [d]) == s + [d];
      }
    } else {
      TerminatedFirst(s, [], d);
      assert s[|s| - 1] in s[..i];
    }
  }

  lemma FirstToken(s: string, d: char)
    requires s != []
    ensures var i := IndexOf(s, d);
            Explode(s, d) == if i == |s| then [s] + [] else [s[..i]] + Explode(s[i + 1..], d)
  {
  }

  lemma Rejoin(s: string, i: nat)
    requires i < |s|
    ensures s == s[..i] + [s[i]] + s[i + 1..]
    ensures s[i + 1..] != [] ==> s[i + 1..][|s[i + 1..]| - 1] == s[|s| - 1]
  {
  }

  lemma TerminatedNone(d: char)
    ensures Terminated([], d) == "" && Explode([], d) == []
  {
  }

  lemma TerminatedFirst(token: string, tokens: seq<string>, d: char)
    ensures Terminated([token] + tokens, d) == token + [d] + Terminated(tokens, d)
  {
    assert ([token] + tokens)[1..] == tokens;
  }

  lemma {:induction false} IndexOfFirst(a: string, d: char, rest: string)
    requires d !in a
    ensures IndexOf(a + [d] + rest, d) == |a|
  {
    if a != [] {
      IndexOfFirst(a[1..], d, rest);
      assert (a + [d] + rest)[1..] == a[1..] + [d] + rest;
    }
  }

  /** A delimiter-free piece followed by the delimiter is split off as the first token. */
  lemma ExplodeFirst(a: string, d: char, rest: string)
    requires d !in a
    ensures Explode(a + [d] + rest, d) == [a] + Explode(rest, d)
  {
    IndexOfFirst(a, d, rest);
    var s := a + [d] + rest;
    assert s[..|a|] == a && s[|a| + 1..] == rest;
  }

  /** A non-empty delimiter-free text is its own only token. */
  lemma ExplodeOnly(a: string, d: char)
    requires d !in a && a != []
    ensures Explode(a, d) == [a]
  {
    assert IndexOf(a, d) == |a|;
  }

  lemma ExplodeTwo(a: string, d: char, b: string)
    requires d !in a && d !in b && b != []
    ensures Explode(a + [d] + b, d) == [a, b]
  {
    ExplodeFirst(a, d, b);
    ExplodeOnly(b, d);
  }

  lemma ExplodeThree(a: string, b: string, c: string, d: char)
    requires d !in a && d !in b && d !in c && c != []
    ensures Explode(a + [d] + (b + [d] + c), d) == [a, b, c]
  {
    ExplodeTwo(b, d, c);
    ExplodeFirst(a, d, b + [d] + c);
  }

  lemma ExplodeFour(a: string, b: string, c: string, e: string, d: char)
    requires d !in a && d !in b && d !in c && d !in e && e != []
    ensures Explode(a + [d] + (b + [d] + (c + [d] + e)), d) == [a, b, c, e]
  {
    var s := b + [d] + (c + [d] + e);
    assert Explode(s, d) == [b, c, e] by { ExplodeThree(b, c, e, d); }
    ExplodeFirst(a, d, s);
  }

  /** Delimiter-free tokens that are each followed by the delimiter are read back exactly. */
  lemma {:induction false} ExplodeTerminated(tokens: seq<string>, d: char)
    requires forall i :: 0 <= i < |tokens| ==> d !in tokens[i]
    ensures Explode(Terminated(tokens, d), d) == tokens
  {
    if tokens != [] {
      ExplodeTerminated(tokens[1..], d);
      ExplodeFirst(tokens[0], d, Terminated(tokens[1..], d));
    }
  }

  lemma DigitsFree(n: int, d: char)
    requires !IsDigit(d) && d != '-'
    ensures d !in IntText(n)
  {
  }
}
