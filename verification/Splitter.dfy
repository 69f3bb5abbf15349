/** UTF-8 as section 4 of RFC 3629 defines it. */
module Utf8 {
  import opened Support

  predicate Tail(b: char) {
    0x80 <= b as int <= 0xBF
  }

  /** utf8.RuneStart: every byte that is not a continuation byte. */
  predicate RuneStart(b: char) {
    !Tail(b)
  }

  predicate Between(b: char, lo: int, hi: int) {
    lo <= b as int <= hi
  }

  /** The length of the well-formed character that s begins with, or 0 if there is none. */
  function CharLen(s: string): (n: nat)
    requires s != []
    ensures n <= 4 && n <= |s|
    ensures n > 0 ==> RuneStart(s[0])
    ensures forall i :: 0 < i < n ==> Tail(s[i])
  {
    if Between(s[0], 0, 0x7F) then 1
    else if |s| >= 2 && Between(s[0], 0xC2, 0xDF) && Tail(s[1]) then 2
    else if |s| >= 3 && Tail(s[2]) &&
      ( || (s[0] as int == 0xE0 && Between(s[1], 0xA0, 0xBF))
        || ((Between(s[0], 0xE1, 0xEC) || Between(s[0], 0xEE, 0xEF)) && Tail(s[1]))
        || (s[0] as int == 0xED && Between(s[1], 0x80, 0x9F))) then 3
    else if |s| >= 4 && Tail(s[2]) && Tail(s[3]) &&
      ( || (s[0] as int == 0xF0 && Between(s[1], 0x90, 0xBF))
        || (Between(s[0], 0xF1, 0xF3) && Tail(s[1]))
        || (s[0] as int == 0xF4 && Between(s[1], 0x80, 0x8F))) then 4
    else 0
  }

  predicate Valid(s: string)
    decreases |s|
  {
    s == [] || (CharLen(s) > 0 && Valid(s[CharLen(s)..]))
  }

  predicate IsScalar(cp: int) {
    0 <= cp < 0xD800 || 0xE000 <= cp < 0x11_0000
  }

  /** The UTF-8 form of a code point, section 3 of RFC 3629. */
  function Encode(cp: int): string
    requires IsScalar(cp)
  {
    if cp < 0x80 then [cp as char]
    else if cp < 0x800 then [(0xC0 + cp / 64) as char, (0x80 + cp % 64) as char]
    else if cp < 0x1_0000 then [(0xE0 + cp / 4096) as char, (0x80 + cp / 64 % 64) as char, (0x80 + cp % 64) as char]
    else [(0xF0 + cp / 262144) as char, (0x80 + cp / 4096 % 64) as char, (0x80 + cp / 64 % 64) as char, (0x80 + cp % 64) as char]
  }

  predicate StartsWith(s: string, cp: int) {
    IsScalar(cp) && Encode(cp) <= s
  }

  lemma EncodedIsChar(s: string, cp: int)
    requires s != [] && StartsWith(s, cp)
    ensures CharLen(s) == |Encode(cp)|
  {
    var e := Encode(cp);
    assert forall i :: 0 <= i < |e| ==> s[i] == e[i];
  }

  lemma By64(q: int, r: int)
    requires 0 <= r < 64
    ensures (64 * q + r) / 64 == q && (64 * q + r) % 64 == r
  {
  }

  lemma By4096(q: int, r: int)
    requires 0 <= r < 4096
    ensures (4096 * q + r) / 4096 == q
  {
  }

  lemma By262144(q: int, r: int)
    requires 0 <= r < 262144
    ensures (262144 * q + r) / 262144 == q
  {
  }

  lemma SixBitParts(a: int, b: int, c: int, d: int)
    requires 0 <= a && 0 <= b < 64 && 0 <= c < 64 && 0 <= d < 64
    ensures var cp := a * 262144 + b * 4096 + c * 64 + d;
      cp / 262144 == a && cp / 4096 == 64 * a + b && cp / 4096 % 64 == b && cp / 64 % 64 == c && cp % 64 == d
  {
    By64(4096 * a + 64 * b + c, d);
    By64(64 * a + b, c);
    By64(a, b);
    By4096(64 * a + b, 64 * c + d);
    By262144(a, 4096 * b + 64 * c + d);
  }

  /** What the bytes of a character carry besides their marks. */
  function Carried(s: string, i: nat): int
    requires i < |s|
  {
    s[i] as int - 0x80
  }

  lemma Decode(s: string) returns (cp: int)
    requires s != [] && CharLen(s) > 0
    ensures IsScalar(cp) && |Encode(cp)| == CharLen(s)
    ensures forall i :: 0 <= i < CharLen(s) ==> Encode(cp)[i] == s[i]
  {
    var n := CharLen(s);
    if n == 1 {
      cp := s[0] as int;
    } else if n == 2 {
      SixBitParts(0, 0, s[0] as int - 0xC0, Carried(s, 1));
      cp := (s[0] as int - 0xC0) * 64 + Carried(s, 1);
    } else if n == 3 {
      SixBitParts(0, s[0] as int - 0xE0, Carried(s, 1), Carried(s, 2));
      cp := (s[0] as int - 0xE0) * 4096 + Carried(s, 1) * 64 + Carried(s, 2);
    } else {
      SixBitParts(s[0] as int - 0xF0, Carried(s, 1), Carried(s, 2), Carried(s, 3));
      cp := (s[0] as int - 0xF0) * 262144 + Carried(s, 1) * 4096 + Carried(s, 2) * 64 + Carried(s, 3);
    }
  }

  lemma CharIsEncoded(s: string) returns (cp: int)
    requires s != [] && CharLen(s) > 0
    ensures StartsWith(s, cp)
  {
    cp := Decode(s);
    assert Encode(cp) == s[..CharLen(s)];
  }

  /** A text begins with a character exactly if it begins with the UTF-8 form of a code point. */
  lemma CharLenIff(s: string)
    requires s != []
    ensures CharLen(s) > 0 <==> exists cp :: StartsWith(s, cp)
    ensures forall cp :: StartsWith(s, cp) ==> CharLen(s) == |Encode(cp)|
  {
    if CharLen(s) > 0 {
      var cp := CharIsEncoded(s);
    }
    forall cp | StartsWith(s, cp)
      ensures CharLen(s) == |Encode(cp)|
    {
      EncodedIsChar(s, cp);
    }
  }

  lemma CharLenOfPrefix(s: string, cut: nat)
    requires s != [] && CharLen(s) > 0 && 0 < cut <= |s|
    requires cut < |s| ==> RuneStart(s[cut])
    ensures CharLen(s) <= cut && CharLen(s[..cut]) == CharLen(s)
  {
  }

  /** Valid text may be cut in two before any byte that starts a character. */
  lemma {:induction false} CutAtStart(s: string, cut: nat)
    requires Valid(s) && cut <= |s|
    requires cut < |s| ==> RuneStart(s[cut])
    ensures Valid(s[..cut]) && Valid(s[cut..])
    decreases |s|
  {
    if cut == 0 {
      assert s[0..] == s;
    } else {
      var n := CharLen(s);
      CharLenOfPrefix(s, cut);
      CutAtStart(s[n..], cut - n);
      assert s[..cut][n..] == s[n..][..cut - n];
      assert s[cut..] == s[n..][cut - n..];
    }
  }

  /** Going back at most three bytes from any position reaches the start of a character. */
  lemma {:induction false} StartNearby(s: string, cut: nat) returns (j: nat)
    requires Valid(s) && cut < |s|
    ensures cut - 3 <= j <= cut && RuneStart(s[j])
    decreases |s|
  {
    var n := CharLen(s);
    if cut < n {
      j := 0;
    } else {
      j := StartNearby(s[n..], cut - n);
      j := j + n;
    }
  }

  /** An ASCII byte is a whole character, so the byte after it starts another. */
  lemma {:induction false} StartAfterAscii(s: string, i: nat)
    requires Valid(s) && i + 1 < |s| && s[i] as int < 0x80
    ensures RuneStart(s[i + 1])
    decreases |s|
  {
    var n := CharLen(s);
    if i < n {
      assert i == 0 && n == 1;
      assert s[1] == s[1..][0];
    } else {
      StartAfterAscii(s[n..], i - n);
    }
  }

  // ----- text in the queue's file -----

  /** U+FFFD, the replacement character. */
  const REPLACEMENT := [0xEF as char, 0xBF as char, 0xBD as char]

  /** What a string has become after encoding/json has written it and read it back: every byte that
      begins no well-formed character is replaced. */
  function JsonText(s: string): string
    decreases |s|
  {
    if s == [] then [] else
      var n := CharLen(s);
      if n > 0 then s[..n] + JsonText(s[n..]) else REPLACEMENT + JsonText(s[1..])
  }

  lemma {:induction false} CharLenStays(s: string, t: string)
    requires s != [] && CharLen(s) > 0 && s[..CharLen(s)] <= t
    ensures CharLen(t) == CharLen(s)
  {
    assert forall i :: 0 <= i < CharLen(s) ==> t[i] == s[..CharLen(s)][i];
  }

  lemma {:induction false} JsonIsValid(s: string)
    ensures Valid(JsonText(s)) && |JsonText(s)| >= |s|
    ensures if Valid(s) then JsonText(s) == s else |JsonText(s)| > |s|
    decreases |s|
  {
    if s != [] {
      var n, r := CharLen(s), JsonText(s);
      if n > 0 {
        JsonIsValid(s[n..]);
        CharLenStays(s, r);
        assert r[n..] == JsonText(s[n..]);
      } else {
        JsonIsValid(s[1..]);
        assert CharLen(r) == 3 && r[3..] == JsonText(s[1..]);
      }
    }
  }

  /** So the file gives back exactly the recipients that are valid UTF-8. What becomes of the others
      is valid, so that later restarts change nothing more. */
  lemma {:induction false} JsonKeepsIff(s: string)
    ensures JsonText(s) == s <==> Valid(s)
    ensures JsonText(JsonText(s)) == JsonText(s)
  {
    JsonIsValid(s);
    JsonIsValid(JsonText(s));
  }
}

/** Splitting a long text into messages: splitTextMessage and bestTextSplit of
    internal/relay/service.go. */
module Splitter {
  import opened Support
  import opened Utf8

  predicate IsSpace(b: char) {
    b == '\n' || b == '\r' || b == '\t' || b == ' '
  }

  /** strings.LastIndexAny(text[:n], "\n\r\t "), or -1. */
  function LastSpace(text: string, n: nat): (i: int)
    requires n <= |text|
    ensures -1 <= i < n
  {
    if n == 0 then -1
    else if IsSpace(text[n - 1]) then n - 1
    else LastSpace(text, n - 1)
  }

  lemma {:induction false} LastSpaceIs(text: string, n: nat)
    requires n <= |text|
    ensures var i := LastSpace(text, n);
            (i >= 0 ==> IsSpace(text[i])) && forall j :: i < j < n ==> !IsSpace(text[j])
  {
    if n > 0 && !IsSpace(text[n - 1]) {
      LastSpaceIs(text, n - 1);
    }
  }

  function BackOff(text: string, cut: nat): (c: nat)
    requires cut < |text|
    ensures c <= cut
  {
    if cut == 0 || RuneStart(text[cut]) then cut else BackOff(text, cut - 1)
  }

  lemma {:induction false} BackOffIs(text: string, cut: nat)
    requires cut < |text|
    ensures var c := BackOff(text, cut);
            (c > 0 ==> RuneStart(text[c])) && forall j :: c < j <= cut ==> !RuneStart(text[j])
  {
    if cut > 0 && !RuneStart(text[cut]) {
      BackOffIs(text, cut - 1);
    }
  }

  /** Where a text longer than maxBytes is cut. */
  function BestCut(text: string, maxBytes: nat): (cut: nat)
    requires 0 < maxBytes < |text|
    ensures 0 < cut <= maxBytes
  {
    var c := BackOff(text, maxBytes);
    var hard := if c == 0 then maxBytes else c;
    var i := LastSpace(text, hard);
    if i >= maxBytes / 2 then i + 1 else hard
  }

  method BestTextSplit(text: string, maxBytes: nat) returns (cut: nat)
    requires maxBytes > 0
    ensures cut == if |text| <= maxBytes then |text| else BestCut(text, maxBytes)
  {
    if |text| <= maxBytes {
      return |text|;
    }
    cut := maxBytes;
    while cut > 0 && cut < |text| && !RuneStart(text[cut])
      invariant cut <= maxBytes
      invariant BackOff(text, cut) == BackOff(text, maxBytes)
    {
      cut := cut - 1;
    }
    if cut == 0 {
      cut := maxBytes;
    }
    var idx := LastSpace(text, cut);
    if idx >= maxBytes / 2 {
      cut := idx + 1;
    }
  }

  function Split(text: string, maxBytes: int): (parts: seq<string>)
    decreases |text|
  {
    if maxBytes <= 0 || |text| <= maxBytes then [text]
    else
      var cut := BestCut(text, maxBytes);
      [text[..cut]] + Split(text[cut..], maxBytes)
  }

  method SplitTextMessage(message: string, maxBytes: int) returns (parts: seq<string>)
    ensures parts == Split(message, maxBytes)
  {
    if maxBytes <= 0 || |message| <= maxBytes {
      return [message];
    }
    var text := message;
    parts := [];
    while |text| > maxBytes
      invariant text != []
      invariant parts + Split(text, maxBytes) == Split(message, maxBytes)
    {
      var cut := BestTextSplit(text, maxBytes);
      parts := parts + [text[..cut]];
      text := text[cut..];
    }
    if text != [] {
      parts := parts + [text];
    }
  }

  lemma SplitStep(text: string, maxBytes: nat) returns (cut: nat)
    requires 0 < maxBytes < |text|
    ensures 0 < cut <= maxBytes
    ensures Split(text, maxBytes) == [text[..cut]] + Split(text[cut..], maxBytes)
  {
    cut := BestCut(text, maxBytes);
  }

  /** Nothing is lost, added or reordered. */
  lemma {:induction false} SplitConcat(text: string, maxBytes: int)
    ensures Flatten(Split(text, maxBytes)) == text
    decreases |text|
  {
    if maxBytes <= 0 || |text| <= maxBytes {
      FlattenCons(text, []);
    } else {
      var cut := SplitStep(text, maxBytes);
      var head, tail := text[..cut], text[cut..];
      SplitConcat(tail, maxBytes);
      calc {
        Flatten(Split(text, maxBytes));
        Flatten([head] + Split(tail, maxBytes));
        { FlattenCons(head, Split(tail, maxBytes)); }
        head + tail;
        text;
      }
    }
  }

  /** Every part fits, and only an empty text gives an empty part. */
  lemma {:induction false} SplitFits(text: string, maxBytes: nat)
    requires maxBytes > 0
    ensures forall p :: p in Split(text, maxBytes) ==> |p| <= maxBytes && (text != [] ==> p != [])
    decreases |text|
  {
    if |text| > maxBytes {
      SplitFits(text[BestCut(text, maxBytes)..], maxBytes);
    }
  }

  lemma {:induction false} CutKeepsCharacters(text: string, maxBytes: nat)
    requires Valid(text) && 4 <= maxBytes < |text|
    ensures var cut := BestCut(text, maxBytes); Valid(text[..cut]) && Valid(text[cut..])
    ensures maxBytes >= 7 ==> BestCut(text, maxBytes) > maxBytes / 2
  {
    var cut, c := BestCut(text, maxBytes), BackOff(text, maxBytes);
    BackOffIs(text, maxBytes);
    LastSpaceIs(text, if c == 0 then maxBytes else c);
    assert c >= maxBytes - 3 by {
      var j := StartNearby(text, maxBytes);
    }
    if cut != c {
      assert IsSpace(text[cut - 1]);
      StartAfterAscii(text, cut - 1);
    }
    CutAtStart(text, cut);
  }

  ghost predicate AllValid(parts: seq<string>) {
    forall p :: p in parts ==> Valid(p)
  }

  ghost predicate AllButLastLong(parts: seq<string>, maxBytes: nat) {
    forall i :: 0 <= i < |parts| - 1 ==> |parts[i]| > maxBytes / 2
  }

  lemma {:induction false} SplitKeepsCharacters(text: string, maxBytes: nat)
    requires Valid(text) && maxBytes >= 4
    ensures AllValid(Split(text, maxBytes))
    ensures maxBytes >= 7 ==> AllButLastLong(Split(text, maxBytes), maxBytes)
    decreases |text|
  {
    if |text| > maxBytes {
      var cut := BestCut(text, maxBytes);
      CutKeepsCharacters(text, maxBytes);
      SplitKeepsCharacters(text[cut..], maxBytes);
      var rest := Split(text[cut..], maxBytes);
      assert forall i :: 0 < i < |rest| + 1 ==> Split(text, maxBytes)[i] == rest[i - 1];
    }
  }

  /** The limit splits valid text into valid texts, whatever the text, exactly from 4 bytes on. */
  lemma ValidPartsIff(maxBytes: nat)
    requires maxBytes > 0
    ensures (forall text :: Valid(text) ==> AllValid(Split(text, maxBytes))) <==> maxBytes >= 4
  {
    if maxBytes >= 4 {
      forall text | Valid(text)
        ensures AllValid(Split(text, maxBytes))
      {
        SplitKeepsCharacters(text, maxBytes);
      }
    } else {
      BrokenCharacter(maxBytes);
    }
  }

  lemma BrokenCharacter(maxBytes: nat)
    requires 0 < maxBytes < 4
    ensures exists text :: Valid(text) && !AllValid(Split(text, maxBytes))
  {
    var text := ['\U{F0}', '\U{90}', '\U{80}', '\U{80}'];
    assert Valid(text) by {
      assert CharLen(text) == 4 && text[4..] == [];
    }
    NoBackOff(text, maxBytes);
    var head := text[..maxBytes];
    assert Split(text, maxBytes) == [head] + Split(text[maxBytes..], maxBytes);
    assert CharLen(head) == 0;
    assert head in Split(text, maxBytes) && !Valid(head);
  }

  lemma {:induction false} NoBackOff(text: string, cut: nat)
    requires cut < |text| && forall j :: 0 < j <= cut ==> Tail(text[j])
    ensures BackOff(text, cut) == 0
  {
    if cut > 0 {
      NoBackOff(text, cut - 1);
    }
  }

  /** And from 7 bytes on every part but the last is longer than half the limit; between 2 and 6
      some valid text breaks that. */
  lemma LongPartsIff(maxBytes: nat)
    requires maxBytes >= 2
    ensures (forall text :: Valid(text) ==> AllButLastLong(Split(text, maxBytes), maxBytes)) <==> maxBytes >= 7
  {
    if maxBytes >= 7 {
      forall text | Valid(text)
        ensures AllButLastLong(Split(text, maxBytes), maxBytes)
      {
        SplitKeepsCharacters(text, maxBytes);
      }
    } else {
      ShortPart(maxBytes);
    }
  }

  lemma ShortPart(maxBytes: nat)
    requires 2 <= maxBytes <= 6
    ensures exists text :: Valid(text) && !AllButLastLong(Split(text, maxBytes), maxBytes)
  {
    var wide: string :=
      if maxBytes == 2 then ['\U{C2}', '\U{80}']
      else if maxBytes == 3 then ['\U{E1}', '\U{80}', '\U{80}']
      else ['\U{F1}', '\U{80}', '\U{80}', '\U{80}'];
    var lead: string := if maxBytes <= 4 then ['a'] else if maxBytes == 5 then ['a', 'a'] else ['a', 'a', 'a'];
    var text := lead + wide;
    assert Valid(text) by {
      assert CharLen(wide) == |wide| && wide[|wide|..] == [];
      LeadingAscii(lead, wide);
    }
    assert |text| == maxBytes + 1;
    BackOffTo(text, |lead|, maxBytes);
    assert BestCut(text, maxBytes) == |lead|;
    var parts := Split(text, maxBytes);
    assert parts == [text[..|lead|]] + Split(text[|lead|..], maxBytes);
    assert |parts[0]| == |lead| <= maxBytes / 2;
    assert |Split(text[|lead|..], maxBytes)| >= 1;
    assert !AllButLastLong(parts, maxBytes);
  }

  lemma {:induction false} LeadingAscii(lead: string, s: string)
    requires Valid(s) && forall i :: 0 <= i < |lead| ==> lead[i] == 'a'
    ensures Valid(lead + s)
  {
    if lead == [] {
      assert lead + s == s;
    } else {
      LeadingAscii(lead[1..], s);
      assert (lead + s)[1..] == lead[1..] + s;
    }
  }

  lemma {:induction false} BackOffTo(text: string, c: nat, cut: nat)
    requires 0 < c <= cut < |text| && RuneStart(text[c])
    requires forall j :: c < j <= cut ==> Tail(text[j])
    ensures BackOff(text, cut) == c
  {
    if c < cut {
      BackOffTo(text, c, cut - 1);
    }
  }

  lemma {:induction false} LongPartsCount(parts: seq<string>, maxBytes: nat)
    requires parts != [] && parts[|parts| - 1] != [] && AllButLastLong(parts, maxBytes)
    ensures (|parts| - 1) * (maxBytes / 2 + 1) < |Flatten(parts)|
  {
    var rest := parts[1..];
    if rest != [] {
      LongPartsCount(rest, maxBytes);
      OneMore(|rest| - 1, maxBytes / 2 + 1);
      assert |parts[0]| > maxBytes / 2;
    }
  }

  lemma OneMore(n: int, w: int)
    ensures (n + 1) * w == n * w + w
  {
  }

  /** So the number of messages is bounded: (parts - 1) * (maxBytes/2 + 1) < len(text). */
  lemma {:induction false} PartCount(text: string, maxBytes: nat)
    requires Valid(text) && text != [] && maxBytes >= 7
    ensures (|Split(text, maxBytes)| - 1) * (maxBytes / 2 + 1) < |text|
  {
    SplitKeepsCharacters(text, maxBytes);
    SplitFits(text, maxBytes);
    SplitConcat(text, maxBytes);
    var parts := Split(text, maxBytes);
    assert parts[|parts| - 1] in parts;
    LongPartsCount(parts, maxBytes);
  }

  /** The last place up to the limit that is no continuation byte, or the limit if there is none. */
  predicate IsHardCut(text: string, maxBytes: nat, hard: nat)
    requires maxBytes < |text|
  {
    && 0 < hard <= maxBytes
    && ((hard < maxBytes || !(0x80 <= text[maxBytes] as int <= 0xBF)) ==>
          !(0x80 <= text[hard] as int <= 0xBF) && forall j :: hard < j <= maxBytes ==> 0x80 <= text[j] as int <= 0xBF)
    && (hard == maxBytes && 0x80 <= text[maxBytes] as int <= 0xBF ==>
          forall j :: 0 < j <= maxBytes ==> 0x80 <= text[j] as int <= 0xBF)
  }

  lemma {:induction false} HardCutIs(text: string, maxBytes: nat)
    requires 0 < maxBytes < |text|
    ensures var c := BackOff(text, maxBytes); IsHardCut(text, maxBytes, if c == 0 then maxBytes else c)
  {
    BackOffIs(text, maxBytes);
  }

  lemma OneHardCut(text: string, maxBytes: nat, a: nat, b: nat)
    requires 0 < maxBytes < |text| && IsHardCut(text, maxBytes, a) && IsHardCut(text, maxBytes, b)
    ensures a == b
  {
  }

  /** The cut is behind the last white space of the second half of the window, or at its end if there is
      none there. */
  lemma {:induction false} CutIs(text: string, maxBytes: nat, hard: nat)
    requires 0 < maxBytes < |text| && IsHardCut(text, maxBytes, hard)
    ensures var cut := BestCut(text, maxBytes);
      && 0 < cut <= hard && (forall j :: cut <= j < hard && maxBytes / 2 <= j ==> text[j] !in {' ', '\t', '\n', '\r'})
      && (cut != hard ==> cut > maxBytes / 2 && text[cut - 1] in {' ', '\t', '\n', '\r'})
  {
    HardCutIs(text, maxBytes);
    var c := BackOff(text, maxBytes);
    OneHardCut(text, maxBytes, hard, if c == 0 then maxBytes else c);
    LastSpaceIs(text, hard);
  }

  /** The cut prefers white space: if any lies in the second half of the window, the part ends
      with the last one there and no white space is between it and the hard limit. */
  lemma {:induction false} PrefersSpace(text: string, maxBytes: nat, i: nat)
    requires 0 < maxBytes < |text|
    requires maxBytes / 2 <= i < BackOff(text, maxBytes) && IsSpace(text[i])
    ensures var cut := BestCut(text, maxBytes);
            && IsSpace(text[cut - 1]) && i < cut <= BackOff(text, maxBytes)
            && forall j :: cut <= j < BackOff(text, maxBytes) ==> !IsSpace(text[j])
  {
    LastSpaceIs(text, BackOff(text, maxBytes));
  }
}
