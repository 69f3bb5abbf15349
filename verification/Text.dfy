/** The string functions of Go's strings and strconv packages that addresses need, on ASCII. */
module Text {
  import opened Support

  predicate IsSpace(c: char) {
    c == ' ' || c == '\t' || c == '\n' || c == '\r' || c as int == 11 || c as int == 12
  }

  function LowerChar(c: char): (r: char)
    ensures IsSpace(r) == IsSpace(c) && (r == '@') == (c == '@')
  {
    if 'A' <= c <= 'Z' then (c as int + 32) as char else c
  }

  function Lower(s: string): (r: string)
    ensures |r| == |s| && forall i :: 0 <= i < |s| ==> r[i] == LowerChar(s[i])
  {
    seq(|s|, i requires 0 <= i < |s| => LowerChar(s[i]))
  }

  function TrimSpace(s: string): (r: string)
    ensures r != "" ==> !IsSpace(r[0]) && !IsSpace(r[|r| - 1])
    ensures forall c :: c in r ==> c in s
  {
    if s == "" then ""
    else if IsSpace(s[0]) then TrimSpace(s[1..])
    else if IsSpace(s[|s| - 1]) then TrimSpace(s[..|s| - 1])
    else s
  }

  /** strings.TrimSpace(strings.ToLower(s)). */
  function Norm(s: string): string {
    TrimSpace(Lower(s))
  }

  predicate IsNormal(s: string) {
    && (forall i :: 0 <= i < |s| ==> LowerChar(s[i]) == s[i])
    && (s != "" ==> !IsSpace(s[0]) && !IsSpace(s[|s| - 1]))
  }

  lemma {:induction false} LowerTrimCommute(s: string)
    ensures Lower(TrimSpace(s)) == TrimSpace(Lower(s))
    decreases |s|
  {
    if s != "" {
      if IsSpace(s[0]) {
        assert Lower(s)[1..] == Lower(s[1..]);
        LowerTrimCommute(s[1..]);
      } else if IsSpace(s[|s| - 1]) {
        assert Lower(s)[..|s| - 1] == Lower(s[..|s| - 1]);
        LowerTrimCommute(s[..|s| - 1]);
      }
    }
  }

  lemma NormIsNormal(s: string)
    ensures IsNormal(Norm(s))
  {
    LowerTrimCommute(s);
    assert forall i :: 0 <= i < |TrimSpace(s)| ==> Norm(s)[i] == LowerChar(TrimSpace(s)[i]);
  }

  lemma NormalIsFixed(s: string)
    requires IsNormal(s)
    ensures Norm(s) == s
  {
  }

  /** The same text but for the case of ASCII letters. */
  predicate SameText(s: string, t: string) {
    |s| == |t| && forall i :: 0 <= i < |s| ==> SameLetter(s[i], t[i])
  }

  predicate SameLetter(c: char, d: char) {
    c == d || ('A' <= c <= 'Z' && d as int == c as int + 32) || ('A' <= d <= 'Z' && c as int == d as int + 32)
  }

  lemma LowerIff(s: string, t: string)
    ensures Lower(s) == Lower(t) <==> SameText(s, t)
  {
    if Lower(s) == Lower(t) {
      forall i | 0 <= i < |s|
        ensures SameLetter(s[i], t[i])
      {
        assert Lower(s)[i] == Lower(t)[i];
      }
    }
  }

  /** Trimmed and in lower case it is this word exactly if it is the word in some case. */
  lemma {:induction false} NormIs(s: string, word: string)
    requires forall i :: 0 <= i < |word| ==> !('A' <= word[i] <= 'Z')
    ensures Norm(s) == word <==> SameText(TrimSpace(s), word)
  {
    LowerTrimCommute(s);
    LowerIff(TrimSpace(s), word);
    assert Lower(word) == word;
  }

  /** r is s without the characters of the set at both ends. */
  ghost predicate CutFrom(s: string, r: string, ends: set<char>) {
    exists i, j :: CutAt(s, r, ends, i, j)
  }

  ghost predicate CutAt(s: string, r: string, ends: set<char>, i: int, j: int) {
    && 0 <= i <= j <= |s| && r == s[i..j]
    && (forall k :: 0 <= k < i || j <= k < |s| ==> s[k] in ends)
    && (r != "" ==> r[0] !in ends && r[|r| - 1] !in ends)
  }

  lemma SliceOfSlice(s: string, i: nat, j: nat, a: nat, b: nat)
    requires i <= j <= |s| && a <= b <= j - i
    ensures s[i..j][a..b] == s[i + a..i + b]
  {
    assert forall k :: 0 <= k < b - a ==> s[i..j][a..b][k] == s[i..j][a + k] == s[i + a..i + b][k];
  }

  lemma CutMore(s: string, r: string, ends: set<char>, i: int, j: int)
    requires 0 <= i <= j <= |s| && CutFrom(s[i..j], r, ends)
    requires forall k :: 0 <= k < i || j <= k < |s| ==> s[k] in ends
    ensures CutFrom(s, r, ends)
  {
    var a, b :| CutAt(s[i..j], r, ends, a, b);
    forall k | 0 <= k < i + a || i + b <= k < |s|
      ensures s[k] in ends
    {
      if i <= k < j {
        assert s[i..j][k - i] in ends;
      }
    }
    SliceOfSlice(s, i, j, a, b);
    assert CutAt(s, r, ends, i + a, i + b);
  }

  lemma WhiteIs(c: char)
    ensures IsSpace(c) <==> c in {' ', '\t', '\n', '\U{0B}', '\U{0C}', '\r'}
  {
  }

  lemma {:induction false} NothingToCut(s: string, ends: set<char>)
    requires s != "" ==> s[0] !in ends && s[|s| - 1] !in ends
    ensures CutFrom(s, s, ends)
  {
    assert s == s[0..|s|];
    assert CutAt(s, s, ends, 0, |s|);
  }

  /** Space, tab, line feed, vertical tab, form feed and carriage return go, and nothing else. */
  lemma {:induction false} TrimSpaceIs(s: string)
    ensures CutFrom(s, TrimSpace(s), {' ', '\t', '\n', '\U{0B}', '\U{0C}', '\r'})
    decreases |s|
  {
    var white := {' ', '\t', '\n', '\U{0B}', '\U{0C}', '\r'};
    if s != "" {
      WhiteIs(s[0]);
      WhiteIs(s[|s| - 1]);
    }
    if s != "" && IsSpace(s[0]) {
      TrimSpaceIs(s[1..]);
      assert s[1..|s|] == s[1..];
      CutMore(s, TrimSpace(s), white, 1, |s|);
    } else if s != "" && IsSpace(s[|s| - 1]) {
      TrimSpaceIs(s[..|s| - 1]);
      assert s[0..|s| - 1] == s[..|s| - 1];
      CutMore(s, TrimSpace(s), white, 0, |s| - 1);
    } else {
      NothingToCut(s, white);
    }
  }

  /** strings.IndexByte. */
  function Index(s: string, c: char): (i: int)
    ensures -1 <= i < |s|
    ensures i >= 0 ==> s[i] == c
    ensures forall j :: 0 <= j < (if i < 0 then |s| else i) ==> s[j] != c
  {
    if s == "" then -1
    else if s[0] == c then 0
    else var r := Index(s[1..], c); if r < 0 then -1 else r + 1
  }

  lemma {:induction false} IndexIs(s: string, c: char, i: int)
    requires -1 <= i < |s| && (i >= 0 ==> s[i] == c)
    requires forall j :: 0 <= j < (if i < 0 then |s| else i) ==> s[j] != c
    ensures Index(s, c) == i
  {
  }

  /** strings.Split on a one-byte separator. */
  function SplitOn(s: string, c: char): (fields: seq<string>)
    ensures |fields| >= 1
    decreases |s|
  {
    var i := Index(s, c);
    if i < 0 then [s] else [s[..i]] + SplitOn(s[i + 1..], c)
  }

  /** The fields with the separator between them. */
  function Glue(fields: seq<string>, c: char): string {
    if fields == [] then "" else if |fields| == 1 then fields[0] else fields[0] + [c] + Glue(fields[1..], c)
  }

  lemma {:induction false} GlueMore(field: string, rest: seq<string>, c: char)
    requires rest != []
    ensures Glue([field] + rest, c) == field + [c] + Glue(rest, c)
  {
    assert ([field] + rest)[1..] == rest;
  }

  lemma CutAround(s: string, i: nat)
    requires i < |s|
    ensures s[..i] + [s[i]] + s[i + 1..] == s
  {
  }

  lemma {:induction false} SplitGlues(s: string, c: char)
    ensures Glue(SplitOn(s, c), c) == s
    decreases |s|
  {
    var i := Index(s, c);
    if i >= 0 {
      SplitGlues(s[i + 1..], c);
      GlueMore(s[..i], SplitOn(s[i + 1..], c), c);
      CutAround(s, i);
    }
  }

  lemma {:induction false} SplitFields(s: string, c: char)
    ensures forall f :: f in SplitOn(s, c) ==> c !in f
    decreases |s|
  {
    var i := Index(s, c);
    if i >= 0 {
      SplitFields(s[i + 1..], c);
    }
  }

  lemma {:induction false} GlueHasSeparator(fields: seq<string>, c: char)
    ensures |fields| > 1 ==> c in Glue(fields, c)
  {
    if |fields| > 1 {
      assert Glue(fields, c)[|fields[0]|] == c;
    }
  }

  lemma {:induction false} GlueSplits(s: string, c: char, fields: seq<string>)
    requires fields != [] && Glue(fields, c) == s && forall f :: f in fields ==> c !in f
    ensures SplitOn(s, c) == fields
    decreases |s|
  {
    var i := Index(s, c);
    if i < 0 {
      GlueHasSeparator(fields, c);
    } else {
      FirstField(s, c, fields);
      GlueSplits(s[i + 1..], c, fields[1..]);
      assert fields == [fields[0]] + fields[1..];
    }
  }

  /** Splitting undoes gluing: the fields are the only ones free of the separator that give s. */
  lemma {:induction false} SplitIff(s: string, c: char, fields: seq<string>)
    ensures fields == SplitOn(s, c) <==> fields != [] && Glue(fields, c) == s && forall f :: f in fields ==> c !in f
  {
    SplitGlues(s, c);
    SplitFields(s, c);
    if fields != [] && Glue(fields, c) == s && forall f :: f in fields ==> c !in f {
      GlueSplits(s, c, fields);
    }
  }

  lemma {:induction false} FirstField(s: string, c: char, fields: seq<string>)
    requires Index(s, c) >= 0 && fields != [] && Glue(fields, c) == s && forall f :: f in fields ==> c !in f
    ensures var i := Index(s, c); |fields| > 1 && fields[0] == s[..i] && Glue(fields[1..], c) == s[i + 1..]
  {
    var i := Index(s, c);
    assert s[i] in s && fields[0] in fields;
    assert s[|fields[0]|] == c;
    assert forall k :: 0 <= k < |fields[0]| ==> s[k] == fields[0][k] && fields[0][k] in fields[0];
  }

  predicate HasPrefix(s: string, p: string) {
    |p| <= |s| && s[..|p|] == p
  }

  predicate IsDigit(c: char) {
    '0' <= c <= '9'
  }

  predicate AllDigits(s: string) {
    forall i :: 0 <= i < |s| ==> IsDigit(s[i])
  }

  /** strconv.FormatUint(n, 10). */
  function Digits(n: nat): (s: string)
    ensures s != "" && AllDigits(s)
  {
    if n < 10 then [('0' as int + n) as char]
    else Digits(n / 10) + [('0' as int + n % 10) as char]
  }

  function FormatInt(n: int): string {
    if n < 0 then "-" + Digits(-n) else Digits(n)
  }

  function Value(s: string): nat
    requires AllDigits(s)
  {
    if s == "" then 0 else 10 * Value(s[..|s| - 1]) + (s[|s| - 1] as int - '0' as int)
  }

  /** strconv.ParseInt(s, 10, 64). */
  function ParseInt(s: string): Option<int> {
    var body := if s != "" && (s[0] == '-' || s[0] == '+') then s[1..] else s;
    if body == "" || !AllDigits(body) then None
    else
      var v: int := if s[0] == '-' then 0 - Value(body) else Value(body);
      if IsInt64(v) then Some(v) else None
  }

  lemma {:induction false} ValueOfDigits(n: nat)
    ensures Value(Digits(n)) == n
  {
    if n >= 10 {
      ValueOfDigits(n / 10);
      assert Digits(n)[..|Digits(n)| - 1] == Digits(n / 10);
    } else {
      assert Digits(n)[..0] == "";
    }
  }

  lemma ParseFormat(n: int)
    requires IsInt64(n)
    ensures ParseInt(FormatInt(n)) == Some(n)
  {
    if n < 0 {
      ValueOfDigits(-n);
      assert FormatInt(n)[1..] == Digits(-n);
    } else {
      ValueOfDigits(n);
      assert IsDigit(FormatInt(n)[0]);
    }
  }

  /** Numbers are written and read in decimal. */
  lemma {:induction false} DecimalDigits(n: nat, d: nat)
    requires d < 10
    ensures Digits(d) == ["0123456789"[d]] && (n > 0 ==> Digits(10 * n + d) == Digits(n) + ["0123456789"[d]])
    ensures n > 0 ==> FormatInt(n) == Digits(n) && FormatInt(0 - n) == "-" + Digits(n)
  {
  }

  lemma {:induction false} DecimalValue(s: string, d: nat)
    requires d < 10 && AllDigits(s)
    ensures Value("") == 0 && AllDigits(s + ["0123456789"[d]]) && Value(s + ["0123456789"[d]]) == 10 * Value(s) + d
  {
    assert (s + ["0123456789"[d]])[..|s|] == s;
  }

  predicate IsNumber(s: string, sign: string, digits: string) {
    s == sign + digits && sign in {"", "-", "+"} && digits != "" && forall i :: 0 <= i < |digits| ==> '0' <= digits[i] <= '9'
  }

  function Signed(sign: string, digits: string): int
    requires AllDigits(digits)
  {
    if sign == "-" then 0 - Value(digits) else Value(digits)
  }

  /** A number is digits, perhaps behind a sign, and must fit into 64 bits. */
  lemma ParseIntIff(s: string, v: int)
    ensures ParseInt(s) == Some(v) <==>
            && -0x8000_0000_0000_0000 <= v < 0x8000_0000_0000_0000
            && exists sign, digits :: IsNumber(s, sign, digits) && v == Signed(sign, digits)
  {
    if ParseInt(s) == Some(v) {
      var signed := s[0] == '-' || s[0] == '+';
      var sign, digits := if signed then s[..1] else "", if signed then s[1..] else s;
      assert signed ==> s[..1] == [s[0]];
      assert IsNumber(s, sign, digits) && v == Signed(sign, digits);
    }
    if sign, digits :| IsNumber(s, sign, digits) && v == Signed(sign, digits) {
      ParseSigned(s, sign, digits);
    }
  }

  lemma ParseSigned(s: string, sign: string, digits: string)
    requires IsNumber(s, sign, digits)
    ensures ParseInt(s) == if IsInt64(Signed(sign, digits)) then Some(Signed(sign, digits)) else None
  {
    if sign == "" {
      assert s == digits && IsDigit(s[0]);
    } else {
      assert s[0] == sign[0] && s[1..] == digits;
    }
  }
}
