/** The Python text operations the signature code uses: `str(int)`, `int(str)`,
    `split`, and cutting at the first "=". Characters are those of a header, that is
    of Latin-1. */
module Text {

  datatype Option<+T> = None | Some(value: T)

  // --- Numbers ---------------------------------------------------------------------------

  predicate IsDigit(c: char) {
    '0' <= c <= '9'
  }

  function DigitOf(n: nat): (c: char)
    requires n < 10
    ensures IsDigit(c)
  {
    ('0' as int + n) as char
  }

  function Digits(n: nat): string {
    if n < 10 then [DigitOf(n)] else Digits(n / 10) + [DigitOf(n % 10)]
  }

  function Decimal(n: int): string {
    if n < 0 then "-" + Digits(-n) else Digits(n)
  }

  /** Digits, with single underscores allowed between them. */
  function ParseDigits(s: string): Option<nat>
    decreases |s|
  {
    if s == "" || !IsDigit(s[|s| - 1]) then None
    else
      var init, d := s[..|s| - 1], s[|s| - 1] as int - '0' as int;
      if init == "" then Some(d)
      else
        var rest := if init[|init| - 1] == '_' then init[..|init| - 1] else init;
        match ParseDigits(rest)
        case None => None
        case Some(n) => Some(n * 10 + d)
  }

  predicate IsBlank(c: char) {
    var code := c as int;
    9 <= code <= 13 || 28 <= code <= 32 || code == 133 || code == 160
  }

  function StripLeft(s: string): string {
    if s != "" && IsBlank(s[0]) then StripLeft(s[1..]) else s
  }

  function StripRight(s: string): string {
    if s != "" && IsBlank(s[|s| - 1]) then StripRight(s[..|s| - 1]) else s
  }

  /** `int(s)`: `None` where it raises `ValueError`. */
  function ParseInt(s: string): Option<int> {
    var t := StripRight(StripLeft(s));
    if t != "" && t[0] == '-' then
      match ParseDigits(t[1..]) {
        case None => None
        case Some(n) => Some(-(n as int))
      }
    else
      match ParseDigits(if t != "" && t[0] == '+' then t[1..] else t) {
        case None => None
        case Some(n) => Some(n as int)
      }
  }

  lemma {:induction false} DigitsParse(n: nat)
    ensures Digits(n) != "" && (forall i :: 0 <= i < |Digits(n)| ==> IsDigit(Digits(n)[i]))
    ensures ParseDigits(Digits(n)) == Some(n)
  {
    if n >= 10 {
      DigitsParse(n / 10);
      var s := Digits(n);
      assert s[..|s| - 1] == Digits(n / 10);
    }
  }

  /** Decimal notation: one digit per power of ten, a sign in front of a negative number. */
  lemma DecimalIs(n: nat)
    ensures n < 10 ==> Decimal(n) == ["0123456789"[n]]
    ensures n >= 10 ==> Decimal(n) == Decimal(n / 10) + ["0123456789"[n % 10]]
    ensures n > 0 ==> Decimal(-(n as int)) == "-" + Decimal(n)
  {
    var digits := "0123456789";
    assert digits[0] == '0' && digits[1] == '1' && digits[2] == '2' && digits[3] == '3' && digits[4] == '4';
    assert digits[5] == '5' && digits[6] == '6' && digits[7] == '7' && digits[8] == '8' && digits[9] == '9';
  }

  // --- What `int` accepts -------------------------------------------------------------------

  /** Digits with single underscores between them. */
  ghost predicate Grouped(s: string) {
    && s != "" && '0' <= s[0] <= '9' && '0' <= s[|s| - 1] <= '9'
    && (forall i :: 0 <= i < |s| ==> '0' <= s[i] <= '9' || s[i] == '_')
    && (forall i :: 0 < i < |s| ==> !(s[i - 1] == '_' && s[i] == '_'))
  }

  /** The number written, underscores left out. */
  function Value(s: string): int {
    if s == "" then 0
    else if s[|s| - 1] == '_' then Value(s[..|s| - 1])
    else Value(s[..|s| - 1]) * 10 + (s[|s| - 1] as int - 48)
  }

  lemma GroupedInit(s: string)
    requires |s| >= 2 && '0' <= s[|s| - 1] <= '9'
    ensures var init := s[..|s| - 1];
            Grouped(s) <==> Grouped(if init[|init| - 1] == '_' then init[..|init| - 1] else init) && |init| > 0
                            && (init[|init| - 1] == '_' ==> |init| > 1)
  {
    var init := s[..|s| - 1];
    var rest := if init[|init| - 1] == '_' then init[..|init| - 1] else init;
    assert forall i :: 0 <= i < |rest| ==> rest[i] == s[i];
    assert forall i :: 0 <= i < |init| ==> init[i] == s[i];
  }

  lemma {:induction false} ParseDigitsExactly(s: string)
    ensures ParseDigits(s).Some? <==> Grouped(s)
    ensures Grouped(s) ==> ParseDigits(s).Some? && ParseDigits(s).value == Value(s)
    decreases |s|
  {
    if |s| >= 2 && IsDigit(s[|s| - 1]) {
      hide Grouped;
      var init := s[..|s| - 1];
      var rest := if init[|init| - 1] == '_' then init[..|init| - 1] else init;
      GroupedInit(s);
      EmptyNotGrouped();
      ParseDigitsExactly(rest);
    } else if |s| == 1 {
      assert s[..0] == "";
    }
  }

  lemma EmptyNotGrouped()
    ensures !Grouped("")
  {
  }

  /** Python's white space among the characters of a header. */
  ghost predicate Blanks(s: string) {
    forall i :: 0 <= i < |s| ==> s[i] as int in {9, 10, 11, 12, 13, 28, 29, 30, 31, 32, 133, 160}
  }

  lemma {:induction false} StripsLeft(pre: string, t: string)
    requires Blanks(pre) && (t == "" || !IsBlank(t[0]))
    ensures StripLeft(pre + t) == t
  {
    if pre == "" {
      assert pre + t == t;
    } else {
      StripsLeft(pre[1..], t);
      assert (pre + t)[1..] == pre[1..] + t && (pre + t)[0] == pre[0];
    }
  }

  lemma {:induction false} StripsRight(t: string, post: string)
    requires Blanks(post) && (t == "" || !IsBlank(t[|t| - 1]))
    ensures StripRight(t + post) == t
  {
    if post == "" {
      assert t + post == t;
    } else {
      var n := |post| - 1;
      StripsRight(t, post[..n]);
      assert (t + post)[..|t + post| - 1] == t + post[..n] && (t + post)[|t + post| - 1] == post[n];
    }
  }

  lemma {:induction false} StrippedLeft(s: string) returns (pre: string)
    ensures s == pre + StripLeft(s) && Blanks(pre)
  {
    if s != "" && IsBlank(s[0]) {
      var rest := StrippedLeft(s[1..]);
      pre := [s[0]] + rest;
    } else {
      pre := "";
    }
  }

  lemma {:induction false} StrippedRight(s: string) returns (post: string)
    ensures s == StripRight(s) + post && Blanks(post)
  {
    if s != "" && IsBlank(s[|s| - 1]) {
      var rest := StrippedRight(s[..|s| - 1]);
      post := rest + [s[|s| - 1]];
    } else {
      post := "";
    }
  }

  /** `int` of blanks, a sign if any, grouped digits and blanks is the number written. */
  lemma ParseIntReads(pre: string, sign: string, body: string, post: string)
    requires Blanks(pre) && Blanks(post) && sign in {"", "+", "-"} && Grouped(body)
    ensures ParseInt(pre + (sign + body + post)) == Some(if sign == "-" then -Value(body) else Value(body))
  {
    hide StripLeft, StripRight, ParseDigits, Value, Grouped;
    GroupedEnds(body);
    var t := sign + body;
    StripsLeft(pre, t + post);
    StripsRight(t, post);
    ParseDigitsExactly(body);
    assert sign != "" ==> t[0] == sign[0] && t[1..] == body;
    assert sign == "" ==> t == body;
  }

  lemma GroupedEnds(s: string)
    requires Grouped(s)
    ensures s != "" && IsDigit(s[0]) && IsDigit(s[|s| - 1])
  {
  }

  /** And anything else is a `ValueError`. */
  lemma ParseIntOnly(s: string) returns (pre: string, sign: string, body: string, post: string)
    requires ParseInt(s).Some?
    ensures s == pre + (sign + body + post) && Blanks(pre) && Blanks(post)
    ensures sign in {"", "+", "-"} && Grouped(body)
  {
    hide StripLeft, StripRight, ParseDigits, Value, Grouped, Blanks;
    pre := StrippedLeft(s);
    post := StrippedRight(StripLeft(s));
    var t := StripRight(StripLeft(s));
    sign := if t != "" && (t[0] == '-' || t[0] == '+') then [t[0]] else "";
    body := t[|sign|..];
    assert t == sign + body;
    ParseDigitsExactly(body);
  }

  lemma StripNothing(s: string)
    requires s != "" && !IsBlank(s[0]) && !IsBlank(s[|s| - 1])
    ensures StripRight(StripLeft(s)) == s
  {
  }

  /** Printing and parsing an integer gives it back. */
  lemma DecimalRoundTrip(n: int)
    ensures ParseInt(Decimal(n)) == Some(n)
    ensures Decimal(n) != "" && forall i :: 0 <= i < |Decimal(n)| ==> IsDigit(Decimal(n)[i]) || Decimal(n)[i] == '-'
  {
    hide Digits, ParseDigits, StripLeft, StripRight;
    var m := if n < 0 then -n else n;
    DigitsParse(m);
    var s, d := Decimal(n), Digits(m);
    assert s[|s| - 1] == d[|d| - 1];
    StripNothing(s);
    if n < 0 {
      assert s[1..] == d;
    }
  }

  // --- Splitting ---------------------------------------------------------------------------

  function IndexOf(s: string, c: char): (i: nat)
    ensures i <= |s| && (i < |s| ==> s[i] == c)
    ensures forall j :: 0 <= j < i ==> s[j] != c
  {
    if s == "" || s[0] == c then 0 else 1 + IndexOf(s[1..], c)
  }

  function Split(s: string, c: char): seq<string>
    decreases |s|
  {
    var i := IndexOf(s, c);
    if i == |s| then [s] else [s[..i]] + Split(s[i + 1..], c)
  }

  function Join(parts: seq<string>, c: char): string {
    if parts == [] then ""
    else if |parts| == 1 then parts[0]
    else parts[0] + [c] + Join(parts[1..], c)
  }

  lemma {:induction false} IndexOfLead(k: string, rest: string, c: char)
    requires c !in k
    ensures IndexOf(k + [c] + rest, c) == |k|
  {
    var s := k + [c] + rest;
    if k != "" {
      IndexOfLead(k[1..], rest, c);
      assert s[1..] == k[1..] + [c] + rest;
    }
  }

  lemma {:induction false} IndexOfNone(s: string, c: char)
    requires c !in s
    ensures IndexOf(s, c) == |s|
  {
  }

  lemma SplitStep(first: string, rest: string, c: char)
    requires c !in first
    ensures Split(first + [c] + rest, c) == [first] + Split(rest, c)
  {
    var s := first + [c] + rest;
    IndexOfLead(first, rest, c);
    hide IndexOf;
    assert s[..|first|] == first && s[|first| + 1..] == rest;
  }

  /** Joining parts that do not contain the separator and splitting again gives them back. */
  lemma {:induction false} SplitJoin(parts: seq<string>, c: char)
    requires parts != [] && forall i :: 0 <= i < |parts| ==> c !in parts[i]
    ensures Split(Join(parts, c), c) == parts
  {
    if |parts| == 1 {
      IndexOfNone(parts[0], c);
    } else {
      hide Split, IndexOf;
      SplitJoin(parts[1..], c);
      SplitStep(parts[0], Join(parts[1..], c), c);
    }
  }
}
