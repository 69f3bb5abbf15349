/** Recipient addresses: internal/recipient/parser.go, and the printer of
    internal/max/bot_help.go as its inverse. */
module Addresses {
  import opened Support
  import opened Text

  datatype AddressError = BadFormat | WrongDomain | EmptyChatId | BadChatId | ThreadAddress | NotChatId | NoTargets

  datatype Target = Target(chatId: string, silent: bool, local: string)

  datatype Parsed = Parsed(targets: seq<Target>, rawLocal: string, rawAddr: string, sourceLocal: string, aliasUsed: bool)

  type Aliases = map<string, seq<string>>

  const PREFIX := "chatid"

  function ParsePrefixedChatId(text: string): (r: Result<string, AddressError>)
    ensures r.Ok? ==> r.value != ""
  {
    var value := TrimSpace(text);
    if value == "" then Err(EmptyChatId)
    else if value[0] == '-' then
      if value == "-" then Err(EmptyChatId)
      else if AllDigits(value[1..]) then Ok("-" + value[1..]) else Err(BadChatId)
    else if AllDigits(value) then Ok(value) else Err(BadChatId)
  }

  function ParseChatIdBase(base: string): (r: Result<string, AddressError>)
    ensures r.Ok? ==> r.value != ""
  {
    if HasPrefix(base, PREFIX) then ParsePrefixedChatId(base[|PREFIX|..])
    else if '!' in base || '_' in base then Err(ThreadAddress)
    else Err(NotChatId)
  }

  predicate HasFlag(flags: string, target: string) {
    flags != "" && exists f :: f in SplitOn(flags, '.') && TrimSpace(f) == target
  }

  function BaseOf(local: string): string {
    var i := Index(local, '.');
    if i >= 0 then local[..i] else local
  }

  function FlagsOf(local: string): string {
    var i := Index(local, '.');
    if i >= 0 then local[i + 1..] else ""
  }

  function ParseTarget(local: string): Result<Target, AddressError> {
    match ParseChatIdBase(BaseOf(local))
    case Ok(id) => Ok(Target(id, HasFlag(FlagsOf(local), "silent"), local))
    case Err(e) => Err(e)
  }

  /** All targets in order, or the first error. */
  function ParseTargets(locals: seq<string>): (r: Result<seq<Target>, AddressError>)
    ensures r.Ok? ==> |r.value| == |locals|
  {
    if locals == [] then Ok([]) else
      var n := |locals| - 1;
      match ParseTargets(locals[..n])
      case Err(e) => Err(e)
      case Ok(ts) =>
        match ParseTarget(locals[n])
        case Err(e) => Err(e)
        case Ok(t) => Ok(ts + [t])
  }

  function Locals(aliases: Aliases, local: string): seq<string> {
    if local in aliases then aliases[local] else [local]
  }

  /** strings.Join(locals, ","). */
  function Join(locals: seq<string>): string {
    if locals == [] then "" else if |locals| == 1 then locals[0] else locals[0] + "," + Join(locals[1..])
  }

  /** What Parse answers; allowedDomain is as the constructor normalized it. */
  function ParseAddress(allowedDomain: string, aliases: Aliases, address: string): Result<Parsed, AddressError> {
    var parts := SplitOn(Norm(address), '@');
    if |parts| != 2 then Err(BadFormat)
    else if parts[1] != allowedDomain then Err(WrongDomain)
    else
      match ParseTargets(Locals(aliases, parts[0]))
      case Err(e) => Err(e)
      case Ok(ts) =>
        if ts == [] then Err(NoTargets)
        else Ok(Parsed(ts, Join(Locals(aliases, parts[0])), address, parts[0], parts[0] in aliases))
  }

  // ----- the printer -----

  function ChatAddressLocalPart(id: string): string {
    var value := TrimSpace(id);
    if value == "" || value == "<unknown>" then "chatidunknown" else PREFIX + value
  }

  /** The two addresses of BuildChatInfoReply. */
  function PrintedAddress(chatId: string, configuredDomain: string, silent: bool): string {
    var trimmed := TrimSpace(chatId);
    var id := if trimmed == "" then "<unknown>" else trimmed;
    ChatAddressLocalPart(id) + (if silent then ".silent" else "") + "@" + ShownDomain(configuredDomain)
  }

  function ShownDomain(configuredDomain: string): string {
    var domain := TrimSpace(configuredDomain);
    if domain == "" then "relay.local" else domain
  }

  function LocalOf(id: int, silent: bool): string {
    PREFIX + FormatInt(id) + (if silent then ".silent" else "")
  }

  ghost predicate ChatIdChar(c: char) {
    IsDigit(c) || c == '-'
  }

  lemma FormatChars(id: int)
    ensures FormatInt(id) != ""
    ensures forall c :: c in FormatInt(id) ==> ChatIdChar(c)
    ensures TrimSpace(FormatInt(id)) == FormatInt(id)
  {
  }

  lemma BaseShape(id: int)
    ensures var base := PREFIX + FormatInt(id);
      forall i :: 0 <= i < |base| ==> base[i] != '@' && base[i] != '.' && LowerChar(base[i]) == base[i] && !IsSpace(base[i])
  {
  }

  lemma LocalIsNormal(id: int, silent: bool)
    ensures IsNormal(LocalOf(id, silent)) && '@' !in LocalOf(id, silent)
  {
    BaseShape(id);
    var base, s := PREFIX + FormatInt(id), LocalOf(id, silent);
    if silent {
      assert s == base + ".silent";
    } else {
      assert s == base;
    }
  }

  lemma LocalParts(id: int, silent: bool)
    ensures BaseOf(LocalOf(id, silent)) == PREFIX + FormatInt(id)
    ensures FlagsOf(LocalOf(id, silent)) == if silent then "silent" else ""
  {
    BaseShape(id);
    var base, s := PREFIX + FormatInt(id), LocalOf(id, silent);
    if silent {
      assert s == base + ".silent";
      IndexIs(s, '.', |base|);
      assert s[..|base|] == base && s[|base| + 1..] == "silent";
    } else {
      assert s == base;
      IndexIs(s, '.', -1);
    }
  }

  lemma ParsePrefixedFormat(id: int)
    ensures ParsePrefixedChatId(FormatInt(id)) == Ok(FormatInt(id))
  {
  }

  lemma ParsePrintedTarget(id: int, silent: bool)
    ensures ParseTarget(LocalOf(id, silent)) == Ok(Target(FormatInt(id), silent, LocalOf(id, silent)))
  {
    LocalParts(id, silent);
    ParsePrefixedFormat(id);
    PrefixedBase(FormatInt(id));
    SilentFlag();
  }

  lemma PrefixedBase(id: string)
    ensures ParseChatIdBase(PREFIX + id) == ParsePrefixedChatId(id)
  {
  }

  lemma SilentFlag()
    ensures HasFlag("silent", "silent") && !HasFlag("", "silent")
  {
    IndexIs("silent", '.', -1);
    assert "silent" in SplitOn("silent", '.');
  }

  lemma {:induction false} SplitAtSign(local: string, domain: string)
    requires '@' !in local
    ensures |SplitOn(local + "@" + domain, '@')| == 2 <==> '@' !in domain
    ensures '@' !in domain ==> SplitOn(local + "@" + domain, '@') == [local, domain]
  {
    var s := local + "@" + domain;
    assert s[|local|] == '@' && forall i :: 0 <= i < |local| ==> s[i] == local[i] && local[i] in local;
    assert Index(s, '@') == |local|;
    assert s[..|local|] == local && s[|local| + 1..] == domain;
    if '@' in domain {
      assert Index(domain, '@') >= 0;
    } else {
      assert Index(domain, '@') < 0;
    }
  }

  lemma JoinNormal(local: string, domain: string)
    requires IsNormal(local) && local != "" && IsNormal(domain)
    ensures IsNormal(local + "@" + domain)
  {
  }

  lemma {:induction false} TrimKeepsAt(s: string)
    ensures '@' in TrimSpace(s) <==> '@' in s
    decreases |s|
  {
    if s != "" {
      if IsSpace(s[0]) {
        TrimKeepsAt(s[1..]);
        assert s == [s[0]] + s[1..];
      } else if IsSpace(s[|s| - 1]) {
        TrimKeepsAt(s[..|s| - 1]);
        assert s == s[..|s| - 1] + [s[|s| - 1]];
      }
    }
  }

  lemma LowerKeepsAt(s: string)
    ensures '@' in Lower(s) <==> '@' in s
  {
  }

  /** The address the bot prints for a chat leads back to that chat with the right silent flag,
      under every configured domain that is not blank and has no '@', and under no other; if its
      local part has been taken as an alias, it leads to what the alias stands for instead. */
  lemma {:induction false} PrintedAddressResolvesIff(id: int, silent: bool, configuredDomain: string, aliases: Aliases)
    requires IsInt64(id)
    ensures
      var r := ParseAddress(Norm(configuredDomain), aliases, PrintedAddress(FormatInt(id), configuredDomain, silent));
      var local := LocalOf(id, silent);
      var ts := if local in aliases then ParseTargets(aliases[local]) else Ok([Target(FormatInt(id), silent, local)]);
      && (r.Ok? <==> TrimSpace(configuredDomain) != "" && '@' !in configuredDomain && ts.Ok? && ts.value != [])
      && (r.Ok? ==> r.value.targets == ts.value && (r.value.aliasUsed <==> local in aliases))
    ensures ParseInt(TrimSpace(FormatInt(id))) == Some(id)
  {
    var domain := Lower(ShownDomain(configuredDomain));
    PrintedShape(id, silent, configuredDomain);
    var address := PrintedAddress(FormatInt(id), configuredDomain, silent);
    ParseLocal(LocalOf(id, silent), domain, Norm(configuredDomain), aliases, address);
    OneTarget(LocalOf(id, silent));
    ParsePrintedTarget(id, silent);
    DomainMatches(configuredDomain);
    PrintedIdParses(id);
  }

  lemma PrintedIdParses(id: int)
    requires IsInt64(id)
    ensures ParseInt(TrimSpace(FormatInt(id))) == Some(id)
  {
    FormatChars(id);
    ParseFormat(id);
  }

  /** Parsing an address that normalizes to local@domain. */
  lemma ParseLocal(local: string, domain: string, allowedDomain: string, aliases: Aliases, address: string)
    requires Norm(address) == local + "@" + domain && '@' !in local
    ensures var locals := if local in aliases then aliases[local] else [local];
            ParseAddress(allowedDomain, aliases, address) ==
            if '@' in domain then Err(BadFormat)
            else if domain != allowedDomain then Err(WrongDomain)
            else match ParseTargets(locals) {
              case Err(e) => Err(e)
              case Ok(ts) => if ts == [] then Err(NoTargets) else Ok(Parsed(ts, Join(locals), address, local, local in aliases))
            }
  {
    SplitAtSign(local, domain);
  }

  /** The same where local is no alias. */
  lemma ParseOneLocal(local: string, domain: string, allowedDomain: string, aliases: Aliases, address: string)
    requires Norm(address) == local + "@" + domain && '@' !in local && local !in aliases
    ensures ParseAddress(allowedDomain, aliases, address) ==
            if '@' in domain then Err(BadFormat)
            else if domain != allowedDomain then Err(WrongDomain)
            else match ParseTarget(local) { case Err(e) => Err(e) case Ok(t) => Ok(Parsed([t], local, address, local, false)) }
  {
    ParseLocal(local, domain, allowedDomain, aliases, address);
    OneTarget(local);
  }

  lemma OneTarget(local: string)
    ensures ParseTargets([local]) ==
            match ParseTarget(local) { case Ok(t) => Ok([t]) case Err(e) => Err(e) }
  {
    var locals := [local];
    assert locals[..0] == [];
    assert ParseTargets(locals[..0]) == Ok([]);
    if ParseTarget(local).Ok? {
      var t := ParseTarget(local).value;
      assert [] + [t] == [t];
    }
  }

  lemma {:induction false} DomainMatches(configuredDomain: string)
    ensures Lower(ShownDomain(configuredDomain)) == Norm(configuredDomain) <==> TrimSpace(configuredDomain) != ""
    ensures TrimSpace(configuredDomain) != "" ==> ('@' in Lower(ShownDomain(configuredDomain)) <==> '@' in configuredDomain)
  {
    LowerKeepsAt(ShownDomain(configuredDomain));
    LowerTrimCommute(configuredDomain);
    TrimKeepsAt(configuredDomain);
  }

  lemma {:induction false} PrintedShape(id: int, silent: bool, configuredDomain: string)
    ensures '@' !in LocalOf(id, silent)
    ensures Norm(PrintedAddress(FormatInt(id), configuredDomain, silent)) ==
            LocalOf(id, silent) + "@" + Lower(ShownDomain(configuredDomain))
  {
    FormatChars(id);
    var s := FormatInt(id);
    assert ChatAddressLocalPart(s) == PREFIX + s by {
      assert s != "<unknown>" by {
        assert s[0] in s;
      }
    }
    LocalIsNormal(id, silent);
    PrintedNorm(LocalOf(id, silent), ShownDomain(configuredDomain));
  }

  lemma PrintedNorm(local: string, shown: string)
    requires IsNormal(local) && local != "" && shown != "" && !IsSpace(shown[|shown| - 1]) && !IsSpace(shown[0])
    ensures Norm(local + "@" + shown) == local + "@" + Lower(shown)
  {
  }

  // ----- what an address means -----

  /** A base stands for a chat exactly if it is "chatid" and the id, perhaps with white space around
      it: digits, perhaps behind a minus sign. */
  lemma ChatIdIff(base: string, id: string)
    ensures ParseChatIdBase(base) == Ok(id) <==>
            && "chatid" <= base && TrimSpace(base[6..]) == id && id != ""
            && var digits := if id[0] == '-' then id[1..] else id;
               digits != "" && forall i :: 0 <= i < |digits| ==> '0' <= digits[i] <= '9'
  {
    assert PREFIX == "chatid";
    if ParseChatIdBase(base) == Ok(id) && id[0] == '-' {
      assert TrimSpace(base[6..]) == ['-'] + TrimSpace(base[6..])[1..];
    }
    if "chatid" <= base && TrimSpace(base[6..]) == id && id != "" && id[0] == '-' {
      assert id == ['-'] + id[1..];
    }
  }

  /** And otherwise it is one of four errors. */
  lemma ChatIdError(base: string)
    ensures ParseChatIdBase(base).Err? ==>
      ParseChatIdBase(base).error ==
        if "chatid" <= base then if TrimSpace(base[6..]) in {"", "-"} then EmptyChatId else BadChatId
        else if exists i :: 0 <= i < |base| && (base[i] == '!' || base[i] == '_') then ThreadAddress else NotChatId
  {
    assert PREFIX == "chatid";
  }

  /** The field before the first dot names the chat, and it is to be posted to silently exactly if one
      of the others is "silent", white space aside. */
  lemma {:induction false} TargetIs(base: string, flags: seq<string>)
    requires '.' !in base && forall f :: f in flags ==> '.' !in f
    ensures var local := Glue([base] + flags, '.');
            ParseTarget(local) ==
            match ParseChatIdBase(base)
            case Ok(id) => Ok(Target(id, exists f :: f in flags && TrimSpace(f) == "silent", local))
            case Err(e) => Err(e)
  {
    var local := Glue([base] + flags, '.');
    if flags == [] {
      IndexIs(local, '.', -1);
    } else {
      assert ([base] + flags)[1..] == flags;
      assert local == base + ['.'] + Glue(flags, '.');
      IndexIs(local, '.', |base|);
      GlueSplits(Glue(flags, '.'), '.', flags);
      assert BaseOf(local) == base && FlagsOf(local) == Glue(flags, '.');
      if Glue(flags, '.') == "" {
        NoEmptyFlag(flags);
      }
    }
  }

  lemma {:induction false} NoEmptyFlag(flags: seq<string>)
    requires flags != [] && Glue(flags, '.') == ""
    ensures flags == [""]
  {
  }

  predicate FirstBad(locals: seq<string>, i: int, e: AddressError) {
    0 <= i < |locals| && ParseTarget(locals[i]) == Err(e) && forall k :: 0 <= k < i ==> ParseTarget(locals[k]).Ok?
  }

  lemma {:induction false} FirstBadLonger(locals: seq<string>, n: nat, i: int, e: AddressError)
    requires n <= |locals| && FirstBad(locals[..n], i, e)
    ensures FirstBad(locals, i, e)
  {
    forall k | 0 <= k <= i
      ensures locals[k] == locals[..n][k]
    {
    }
  }

  lemma {:induction false} LastTarget(locals: seq<string>)
    requires locals != [] && ParseTargets(locals).Ok?
    ensures var n, ts := |locals| - 1, ParseTargets(locals).value;
      |ts| == |locals| && ParseTargets(locals[..n]) == Ok(ts[..n]) && ParseTarget(locals[n]) == Ok(ts[n])
  {
  }

  /** Several targets are taken in order. */
  lemma {:induction false} TargetsInOrder(locals: seq<string>, i: nat)
    requires ParseTargets(locals).Ok? && i < |locals|
    ensures ParseTarget(locals[i]) == Ok(ParseTargets(locals).value[i])
    decreases |locals|
  {
    LastTarget(locals);
    if i < |locals| - 1 {
      TargetsInOrder(locals[..|locals| - 1], i);
    }
  }

  /** And the first that means nothing decides. */
  lemma {:induction false} FirstBadDecides(locals: seq<string>) returns (i: nat)
    requires ParseTargets(locals).Err?
    ensures FirstBad(locals, i, ParseTargets(locals).error)
    decreases |locals|
  {
    var n := |locals| - 1;
    if ParseTargets(locals[..n]).Err? {
      i := FirstBadDecides(locals[..n]);
      FirstBadLonger(locals, n, i, ParseTargets(locals).error);
    } else {
      i := n;
      forall k | 0 <= k < n
        ensures ParseTarget(locals[k]).Ok?
      {
        TargetsInOrder(locals[..n], k);
      }
    }
  }

  /** Without a sign there is no address. */
  lemma {:induction false} ParseNoSign(allowedDomain: string, aliases: Aliases, address: string)
    requires '@' !in address
    ensures ParseAddress(allowedDomain, aliases, address) == Err(BadFormat)
  {
    LowerKeepsAt(address);
    TrimKeepsAt(Lower(address));
    var s := Norm(address);
    assert forall j :: 0 <= j < |s| ==> s[j] in s;
    IndexIs(s, '@', -1);
  }

  /** The case of letters in an address makes no difference. */
  lemma CaseMakesNoDifference(allowedDomain: string, aliases: Aliases, a: string, b: string)
    requires SameText(a, b)
    ensures ParseAddress(allowedDomain, aliases, b) ==
            match ParseAddress(allowedDomain, aliases, a)
            case Ok(p) => Ok(p.(rawAddr := b))
            case Err(e) => Err(e)
  {
    LowerIff(a, b);
  }

  lemma JoinSample()
    ensures Join(["a"]) == "a" && Join(["a", "b", "c"]) == "a,b,c"
  {
    assert ["a", "b", "c"][1..] == ["b", "c"] && ["b", "c"][1..] == ["c"];
  }

  // ----- chat ids and int64 -----

  /** Digits, perhaps behind a minus sign. */
  predicate IsChatId(id: string) {
    id != "" && if id[0] == '-' then |id| > 1 && AllDigits(id[1..]) else AllDigits(id)
  }

  function IdValue(id: string): int
    requires IsChatId(id)
  {
    if id[0] == '-' then 0 - Value(id[1..]) else Value(id)
  }

  lemma {:induction false} ChatIdChars(id: string)
    requires IsChatId(id)
    ensures TrimSpace(id) == id && id[0] != '+'
  {
    assert forall i :: 1 <= i < |id| && id[0] == '-' ==> id[i] == id[1..][i - 1];
    assert !IsSpace(id[0]) && !IsSpace(id[|id| - 1]);
  }

  /** A chat id that the parser accepts is one the sender can use exactly when its number fits
      int64, and then it is used as that number. */
  lemma AcceptedIdUsableIff(base: string)
    requires ParseChatIdBase(base).Ok?
    ensures var id := ParseChatIdBase(base).value;
            IsChatId(id) && ParseInt(TrimSpace(id)) == if IsInt64(IdValue(id)) then Some(IdValue(id)) else None
  {
    ChatIdChars(ParseChatIdBase(base).value);
  }

  // ----- a short address -----

  const SAMPLE := "chatid1@d"

  lemma SampleIsNormal()
    ensures IsNormal(SAMPLE) && '@' !in "chatid1"
  {
  }

  lemma ChatOne()
    ensures ParseTarget("chatid1") == Ok(Target("1", false, "chatid1"))
  {
    assert FormatInt(1) == "1";
    assert LocalOf(1, false) == "chatid1";
    ParsePrintedTarget(1, false);
  }

  lemma SampleResolves()
    ensures ParseAddress("d", map[], SAMPLE) == Ok(Parsed([Target("1", false, "chatid1")], "chatid1", SAMPLE, "chatid1", false))
  {
    SampleIsNormal();
    NormalIsFixed(SAMPLE);
    assert SAMPLE == "chatid1" + "@" + "d";
    ParseOneLocal("chatid1", "d", "d", map[], SAMPLE);
    ChatOne();
  }
}
