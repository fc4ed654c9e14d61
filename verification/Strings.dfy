/** The string operations of Rust's standard library that the modelled code relies on. */
module Strings {
  import opened Wrappers

  /** The characters `str::trim` removes (Unicode property White_Space). */
  predicate IsSpace(c: char) {
    var n := c as int;
    || 0x09 <= n <= 0x0D || n == 0x20 || n == 0x85 || n == 0xA0 || n == 0x1680
    || 0x2000 <= n <= 0x200A || n == 0x2028 || n == 0x2029 || n == 0x202F || n == 0x205F || n == 0x3000
  }

  function TrimStart(s: string): string {
    if s != "" && IsSpace(s[0]) then TrimStart(s[1..]) else s
  }

  function TrimEnd(s: string): string {
    if s != "" && IsSpace(s[|s| - 1]) then TrimEnd(s[..|s| - 1]) else s
  }

  function Trim(s: string): string {
    TrimEnd(TrimStart(s))
  }

  /** Trimming takes all the space at both ends and nothing else. */
  lemma {:induction false} TrimIs(s: string) returns (a: string, b: string)
    ensures s == a + Trim(s) + b && forall c :: c in a + b ==> IsSpace(c)
    ensures Trim(s) != "" ==> !IsSpace(Trim(s)[0]) && !IsSpace(Trim(s)[|Trim(s)| - 1])
  {
    hide IsSpace;
    a := TrimStartIs(s);
    b := TrimEndIs(TrimStart(s));
  }

  lemma {:induction false} TrimStartIs(s: string) returns (a: string)
    ensures s == a + TrimStart(s) && (forall c :: c in a ==> IsSpace(c))
    ensures TrimStart(s) != "" ==> !IsSpace(TrimStart(s)[0])
  {
    hide IsSpace;
    a := "";
    if s != "" && IsSpace(s[0]) {
      a := TrimStartIs(s[1..]);
      a := [s[0]] + a;
    }
  }

  lemma {:induction false} TrimEndIs(s: string) returns (b: string)
    ensures s == TrimEnd(s) + b && (forall c :: c in b ==> IsSpace(c))
    ensures TrimEnd(s) != "" ==> TrimEnd(s)[0] == s[0] && !IsSpace(TrimEnd(s)[|TrimEnd(s)| - 1])
  {
    hide IsSpace;
    b := "";
    if s != "" && IsSpace(s[|s| - 1]) {
      b := TrimEndIs(s[..|s| - 1]);
      b := b + [s[|s| - 1]];
    }
  }

  /** `str::split(c)`: the pieces between the separators; always at least one. */
  function Split(s: string, c: char): (r: seq<string>)
    ensures r != []
  {
    if s == "" then [""]
    else
      var n := |s| - 1;
      var rest := Split(s[..n], c);
      if s[n] == c then rest + [""] else rest[..|rest| - 1] + [rest[|rest| - 1] + [s[n]]]
  }

  /** `str::split_once(c)`: the parts before and after the first separator. */
  function SplitOnce(s: string, c: char): Option<(string, string)> {
    if s == "" then None
    else if s[0] == c then Some(("", s[1..]))
    else
      var rest := SplitOnce(s[1..], c);
      if rest.None? then None else Some(([s[0]] + rest.value.0, rest.value.1))
  }

  lemma {:induction false} NoCut(s: string, c: char)
    ensures SplitOnce(s, c).None? <==> c !in s
  {
    if s != "" && s[0] != c {
      NoCut(s[1..], c);
      assert s == [s[0]] + s[1..];
    }
  }

  /** The first separator is the one behind a part without separators. */
  lemma {:induction false} CutFirst(a: string, c: char, b: string)
    requires c !in a
    ensures SplitOnce(a + [c] + b, c) == Some((a, b))
  {
    var s := a + [c] + b;
    if a == "" {
      assert s[1..] == b;
    } else {
      assert s[1..] == a[1..] + [c] + b && a == [a[0]] + a[1..];
      CutFirst(a[1..], c, b);
    }
  }

  lemma {:induction false} SplitPush(s: string, c: char, x: char)
    ensures var rest := Split(s, c);
      Split(s + [x], c) ==
      if x == c then rest + [""] else rest[..|rest| - 1] + [rest[|rest| - 1] + [x]]
  {
    assert (s + [x])[..|s|] == s;
  }

  /** The pieces hold no separator, and there is one between any two: these two laws fix the result. */
  lemma {:induction false} SplitIs(a: string, c: char, b: string)
    ensures c !in a ==> Split(a, c) == [a]
    ensures Split(a + [c] + b, c) == Split(a, c) + Split(b, c)
  {
    hide Split;
    if c !in a {
      NoSeparator(a, c);
    }
    SplitJoins(a, c, b);
  }

  lemma {:induction false} NoSeparator(s: string, c: char)
    requires c !in s
    ensures Split(s, c) == [s]
  {
    if s != "" {
      var n := |s| - 1;
      NoSeparator(s[..n], c);
      assert s == s[..n] + [s[n]] && s[n] in s;
    }
  }

  lemma {:induction false} SplitJoins(a: string, c: char, b: string)
    ensures Split(a + [c] + b, c) == Split(a, c) + Split(b, c)
  {
    hide Split;
    if b == "" {
      NoSeparator("", c);
      SplitPush(a, c, c);
      assert a + [c] + b == a + [c];
    } else {
      var n := |b| - 1;
      SplitJoins(a, c, b[..n]);
      SplitPush(b[..n], c, b[n]);
      SplitPush(a + [c] + b[..n], c, b[n]);
      assert b == b[..n] + [b[n]] && a + [c] + b == a + [c] + b[..n] + [b[n]];
    }
  }

  /** `str::split_whitespace`: the runs of other characters. */
  function Words(s: string): seq<string> {
    if s == "" then []
    else
      var n := |s| - 1;
      var rest := Words(s[..n]);
      if IsSpace(s[n]) then rest
      else if n == 0 || IsSpace(s[n - 1]) || rest == [] then rest + [[s[n]]]
      else rest[..|rest| - 1] + [rest[|rest| - 1] + [s[n]]]
  }

  /** White space separates words, and words hold none: these laws fix the result. */
  lemma {:induction false} WordsAre(a: string, c: char, b: string)
    ensures a != "" && (forall x :: x in a ==> !IsSpace(x)) ==> Words(a) == [a]
    ensures Words("") == []
    ensures IsSpace(c) ==> Words(a + [c] + b) == Words(a) + Words(b)
  {
    hide IsSpace;
    if a != "" && forall x :: x in a ==> !IsSpace(x) {
      OneWord(a);
    }
    if IsSpace(c) {
      WordsApart(a, c, b);
    }
  }

  lemma {:induction false} WordsPush(s: string, x: char)
    ensures Words("") == []
    ensures Words(s + [x]) ==
            if IsSpace(x) then Words(s)
            else if s == "" || IsSpace(s[|s| - 1]) || Words(s) == [] then Words(s) + [[x]]
            else Words(s)[..|Words(s)| - 1] + [Words(s)[|Words(s)| - 1] + [x]]
  {
    assert (s + [x])[..|s|] == s;
  }

  lemma {:induction false} OneWord(s: string)
    requires s != "" && forall x :: x in s ==> !IsSpace(x)
    ensures Words(s) == [s]
  {
    hide IsSpace, Words;
    var n := |s| - 1;
    assert s == s[..n] + [s[n]];
    if n > 0 {
      OneWord(s[..n]);
    } else {
      assert s[..n] == "" && [s[n]] == s;
    }
    WordsPush(s[..n], s[n]);
  }

  lemma {:induction false} SomeWord(s: string)
    requires s != "" && !IsSpace(s[|s| - 1])
    ensures Words(s) != []
  {
  }

  lemma {:induction false} WordsApart(a: string, c: char, b: string)
    requires IsSpace(c)
    ensures Words(a + [c] + b) == Words(a) + Words(b)
  {
    hide IsSpace, Words;
    if b == "" {
      WordsPush(a, c);
      assert a + [c] + b == a + [c] && Words(a) + [] == Words(a);
    } else {
      var n := |b| - 1;
      var s, x := a + [c] + b[..n], b[n];
      WordsApart(a, c, b[..n]);
      WordsPush(b[..n], x);
      WordsPush(s, x);
      assert b == b[..n] + [x] && a + [c] + b == s + [x];
      assert s[|s| - 1] == if n == 0 then c else b[n - 1];
      if n > 0 && !IsSpace(b[n - 1]) {
        SomeWord(b[..n]);
      }
    }
  }

  function Digits(s: string): (r: Option<nat>) {
    if s == "" then Some(0)
    else
      var n := |s| - 1;
      var rest := Digits(s[..n]);
      if rest.None? || !('0' <= s[n] <= '9') then None else Some(10 * rest.value + (s[n] as int - 48))
  }

  /** `str::parse::<i32>`. */
  function ParseInt(s: string): (r: Option<int>)
    ensures r.Some? ==> -0x8000_0000 <= r.value < 0x8000_0000
  {
    var signed := s != "" && (s[0] == '-' || s[0] == '+');
    var digits := if signed then s[1..] else s;
    var magnitude: Option<nat> := if digits == "" then None else Digits(digits);
    if magnitude.None? then None
    else
      var v: int := if s[0] == '-' then 0 - magnitude.value else magnitude.value;
      if -0x8000_0000 <= v < 0x8000_0000 then Some(v) else None
  }

  /** A number in plain decimal. */
  function Decimal(n: nat): string {
    if n < 10 then [(n + 48) as char] else Decimal(n / 10) + [(n % 10 + 48) as char]
  }

  lemma {:induction false} DecimalReadsBack(n: nat)
    ensures var s := Decimal(n);
      && Digits(s) == Some(n) && s != [] && (n > 0 ==> s[0] != '0') && (|s| > 1 ==> n > 0)
      && forall c :: c in s ==> '0' <= c <= '9'
  {
    if n < 10 {
      assert Decimal(n)[..0] == "";
    } else {
      DecimalReadsBack(n / 10);
      assert Decimal(n)[..|Decimal(n)| - 1] == Decimal(n / 10);
    }
  }

  /** What can be read as a number: an optional sign and one digit or more, if the value is a 32-bit
      integer. */
  lemma {:induction false} IntsRead(s: string)
    requires s != "" && forall c :: c in s ==> '0' <= c <= '9'
    ensures Digits(s).Some?
    ensures var n: int := Digits(s).value;
      && ParseInt(s) == (if n < 0x8000_0000 then Some(n) else None)
      && ParseInt("+" + s) == ParseInt(s)
      && ParseInt("-" + s) == (if n <= 0x8000_0000 then Some(-n) else None)
  {
    DigitsIff(s);
    assert s[0] in s;
    assert ("+" + s)[1..] == s && ("-" + s)[1..] == s;
  }

  lemma {:induction false} DigitsIff(s: string)
    ensures Digits(s).Some? <==> forall c :: c in s ==> '0' <= c <= '9'
  {
    if s != "" {
      var n := |s| - 1;
      DigitsIff(s[..n]);
      assert s == s[..n] + [s[n]] && s[n] in s;
      if Digits(s[..n]).None? {
        var c :| c in s[..n] && !('0' <= c <= '9');
        assert c in s;
      }
    }
  }

  /** Nothing else can: not the empty string, not a sign alone, nothing with another character. */
  lemma {:induction false} OthersDoNotRead(s: string)
    requires var digits := if s != "" && (s[0] == '-' || s[0] == '+') then s[1..] else s;
      digits == "" || exists c :: c in digits && !('0' <= c <= '9')
    ensures ParseInt(s) == None
  {
    DigitsIff(if s != "" && (s[0] == '-' || s[0] == '+') then s[1..] else s);
  }
}
