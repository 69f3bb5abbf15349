/** The mutable alias table of internal/recipient/parser.go and the parser over it. */
module AliasStore {
  import opened Support
  import opened Text
  import opened Addresses

  // ----- the intended meaning of the operations -----

  /** A list the store may hold: non-empty entries in normal form, none twice. */
  ghost predicate GoodList(ts: seq<string>) {
    Distinct(ts) && forall t :: t in ts ==> t != "" && IsNormal(t)
  }

  ghost predicate GoodStore(m: Aliases) {
    forall k :: k in m ==> k != "" && IsNormal(k) && m[k] != [] && GoodList(m[k])
  }

  /** Ordered union: what is missing goes to the end, in order, once. */
  function Union(ts: seq<string>, more: seq<string>): (r: seq<string>)
    ensures ts <= r
    ensures forall t :: t in r <==> t in ts || t in more
    ensures Distinct(ts) ==> Distinct(r)
  {
    if more == [] then ts else
      var n := |more| - 1;
      assert more == more[..n] + [more[n]];
      var u := Union(ts, more[..n]);
      if more[n] in u then u else u + [more[n]]
  }

  /** Ordered difference. */
  function Minus(ts: seq<string>, less: seq<string>): (r: seq<string>)
    ensures forall t :: t in r <==> t in ts && t !in less
    ensures Distinct(ts) ==> Distinct(r)
  {
    if ts == [] then [] else
      var n := |ts| - 1;
      assert ts == ts[..n] + [ts[n]];
      var rest := Minus(ts[..n], less);
      if ts[n] in less then rest else rest + [ts[n]]
  }

  /** The normal forms of the targets, without blanks and repetitions. */
  function Normalize(targets: seq<string>): (r: seq<string>)
    ensures forall t :: t in r <==> t != "" && exists s :: s in targets && Norm(s) == t
    ensures Distinct(r)
  {
    if targets == [] then [] else
      var n := |targets| - 1;
      assert targets == targets[..n] + [targets[n]];
      var rest := Normalize(targets[..n]);
      var t := Norm(targets[n]);
      if t == "" || t in rest then rest else rest + [t]
  }

  lemma {:induction false} NormalizeIsGood(targets: seq<string>)
    ensures GoodList(Normalize(targets))
  {
    forall t | t in Normalize(targets)
      ensures t != "" && IsNormal(t)
    {
      var s :| s in targets && Norm(s) == t;
      NormIsNormal(s);
    }
  }

  function Entry(m: Aliases, key: string): seq<string> {
    if key in m then m[key] else []
  }

  function Without(m: Aliases, key: string): Aliases {
    map k | k in m && k != key :: m[k]
  }

  predicate Ignored(alias: string, targets: seq<string>) {
    Norm(alias) == "" || Normalize(targets) == []
  }

  function SetGroup(m: Aliases, alias: string, targets: seq<string>): Aliases {
    if Ignored(alias, targets) then m else m[Norm(alias) := Normalize(targets)]
  }

  function AddAt(m: Aliases, key: string, ts: seq<string>): Aliases {
    m[key := Union(Union([], Entry(m, key)), ts)]
  }

  function RemoveAt(m: Aliases, key: string, ts: seq<string>): Aliases {
    if Entry(m, key) == [] then m
    else
      var left := Minus(m[key], ts);
      if left == [] then Without(m, key) else m[key := left]
  }

  function AddTargets(m: Aliases, alias: string, targets: seq<string>): Aliases {
    if Ignored(alias, targets) then m else AddAt(m, Norm(alias), Normalize(targets))
  }

  function RemoveTargets(m: Aliases, alias: string, targets: seq<string>): Aliases {
    if Ignored(alias, targets) then m else RemoveAt(m, Norm(alias), Normalize(targets))
  }

  function Delete(m: Aliases, alias: string): Aliases {
    if Norm(alias) == "" then m else Without(m, Norm(alias))
  }

  datatype Edit = SetTo(alias: string, targets: seq<string>) | Add(alias: string, targets: seq<string>)
                | Remove(alias: string, targets: seq<string>) | Drop(alias: string)

  function Apply(m: Aliases, e: Edit): Aliases {
    match e
    case SetTo(a, ts) => SetGroup(m, a, ts)
    case Add(a, ts) => AddTargets(m, a, ts)
    case Remove(a, ts) => RemoveTargets(m, a, ts)
    case Drop(a) => Delete(m, a)
  }

  function ApplyAll(m: Aliases, es: seq<Edit>): Aliases {
    if es == [] then m else Apply(ApplyAll(m, es[..|es| - 1]), es[|es| - 1])
  }

  lemma StoreGood(m: Aliases, key: string, ts: seq<string>)
    requires GoodStore(m) && key != "" && IsNormal(key) && GoodList(ts)
    ensures ts != [] ==> GoodStore(m[key := ts])
    ensures GoodStore(Without(m, key))
  {
  }

  lemma EditKeepsGood(m: Aliases, e: Edit)
    requires GoodStore(m)
    ensures GoodStore(Apply(m, e))
  {
    var key := Norm(e.alias);
    NormIsNormal(e.alias);
    if key != "" {
      if e.Drop? {
        StoreGood(m, key, []);
      } else {
        var ts := Normalize(e.targets);
        NormalizeIsGood(e.targets);
        StoreGood(m, key, ts);
        StoreGood(m, key, Union(Union([], Entry(m, key)), ts));
        StoreGood(m, key, Minus(Entry(m, key), ts));
      }
    }
  }

  /** Whatever is edited, in whatever order, every key keeps a non-empty list of distinct
      normal targets. */
  lemma {:induction false} EditsKeepGood(m: Aliases, es: seq<Edit>)
    requires GoodStore(m)
    ensures GoodStore(ApplyAll(m, es))
  {
    if es != [] {
      EditsKeepGood(m, es[..|es| - 1]);
      EditKeepsGood(ApplyAll(m, es[..|es| - 1]), es[|es| - 1]);
    }
  }

  /** The edit names this target. */
  predicate Names(e: Edit, t: string)
    requires !e.Drop?
  {
    t != "" && exists s :: s in e.targets && TrimSpace(Lower(s)) == t
  }

  /** What an edit does, target by target: it touches the entry of its name only, and that entry holds
      what was named, or gains or loses it; a name or a list of nothing but blanks does nothing. */
  lemma EditMeans(m: Aliases, e: Edit, k: string, t: string)
    ensures var m', key := Apply(m, e), TrimSpace(Lower(e.alias));
      && (key == "" ==> m' == m)
      && (k != key ==> (k in m' <==> k in m) && Entry(m', k) == Entry(m, k))
      && (k == key != "" ==>
            match e
            case SetTo(_, _) =>
              if exists u :: Names(e, u) then t in Entry(m', k) <==> Names(e, t) else Entry(m', k) == Entry(m, k)
            case Add(_, _) => t in Entry(m', k) <==> t in Entry(m, k) || Names(e, t)
            case Remove(_, _) => t in Entry(m', k) <==> t in Entry(m, k) && !Names(e, t)
            case Drop(_) => k !in m')
  {
    if !e.Drop? {
      var ts := Normalize(e.targets);
      assert forall u :: u in ts <==> Names(e, u);
      if ts != [] {
        assert Names(e, ts[0]);
      }
    }
  }

  /** In the list u comes before v. */
  predicate Before(r: seq<string>, u: string, v: string) {
    exists i, j :: 0 <= i < j < |r| && r[i] == u && r[j] == v
  }

  lemma BeforeStays(r: seq<string>, x: string, u: string, v: string)
    requires Before(r, u, v)
    ensures Before(r + [x], u, v)
  {
    var i, j :| 0 <= i < j < |r| && r[i] == u && r[j] == v;
    assert (r + [x])[i] == u && (r + [x])[j] == v;
  }

  lemma LastIsBehind(r: seq<string>, u: string, v: string)
    requires u in r
    ensures Before(r + [v], u, v)
  {
    var i :| 0 <= i < |r| && r[i] == u;
    assert (r + [v])[i] == u && (r + [v])[|r|] == v;
  }

  function Norms(targets: seq<string>): (ns: seq<string>)
    ensures |ns| == |targets| && forall i :: 0 <= i < |ns| ==> ns[i] == Norm(targets[i])
  {
    seq(|targets|, i requires 0 <= i < |targets| => Norm(targets[i]))
  }

  /** The list without blanks and repetitions. */
  function Kept(ns: seq<string>): (r: seq<string>)
    ensures forall t :: t in r <==> t != "" && t in ns
  {
    if ns == [] then [] else
      var n := |ns| - 1;
      assert ns == ns[..n] + [ns[n]];
      var rest := Kept(ns[..n]);
      if ns[n] == "" || ns[n] in rest then rest else rest + [ns[n]]
  }

  lemma {:induction false} NormalizeKeeps(targets: seq<string>)
    ensures Normalize(targets) == Kept(Norms(targets))
  {
    if targets != [] {
      var n := |targets| - 1;
      NormalizeKeeps(targets[..n]);
      assert Norms(targets)[..n] == Norms(targets[..n]);
    }
  }

  lemma {:induction false} KeptOrder(ns: seq<string>, p: nat, q: nat)
    requires p < q < |ns| && ns[p] != "" && ns[q] != "" && ns[q] !in ns[..q]
    ensures Before(Kept(ns), ns[p], ns[q])
    decreases |ns|
  {
    var n := |ns| - 1;
    var rest := Kept(ns[..n]);
    if q < n {
      assert ns[..n][..q] == ns[..q];
      KeptOrder(ns[..n], p, q);
      BeforeStays(rest, ns[n], ns[p], ns[q]);
    } else {
      assert ns[..n][p] in ns[..n];
      LastIsBehind(rest, ns[p], ns[q]);
    }
  }

  /** What is named first comes first. */
  lemma {:induction false} NormalizeOrder(targets: seq<string>, p: nat, q: nat)
    requires p < q < |targets| && Norm(targets[p]) != "" && Norm(targets[q]) != ""
    requires forall k :: 0 <= k < q ==> Norm(targets[k]) != Norm(targets[q])
    ensures Before(Normalize(targets), Norm(targets[p]), Norm(targets[q]))
  {
    NormalizeKeeps(targets);
    KeptOrder(Norms(targets), p, q);
  }

  /** New targets go to the end, in their order. */
  lemma {:induction false} UnionOrder(ts: seq<string>, more: seq<string>, p: nat, q: nat)
    requires p < q < |more| && more[q] !in ts && more[q] !in more[..q]
    ensures Before(Union(ts, more), more[p], more[q])
    decreases |more|
  {
    var n := |more| - 1;
    var u := Union(ts, more[..n]);
    if q < n {
      assert more[..n][..q] == more[..q];
      UnionOrder(ts, more[..n], p, q);
      if more[n] !in u {
        BeforeStays(u, more[n], more[p], more[q]);
      }
    } else {
      assert more[..n][p] in more[..n];
      LastIsBehind(u, more[p], more[q]);
    }
  }

  /** What is left keeps its order. */
  lemma {:induction false} MinusOrder(ts: seq<string>, less: seq<string>, p: nat, q: nat)
    requires p < q < |ts| && ts[p] !in less && ts[q] !in less
    ensures Before(Minus(ts, less), ts[p], ts[q])
    decreases |ts|
  {
    var n := |ts| - 1;
    var rest := Minus(ts[..n], less);
    if q < n {
      MinusOrder(ts[..n], less, p, q);
      if ts[n] !in less {
        BeforeStays(rest, ts[n], ts[p], ts[q]);
      }
    } else {
      assert ts[..n][p] in ts[..n];
      LastIsBehind(rest, ts[p], ts[q]);
    }
  }

  lemma {:induction false} UnionFromEmpty(ts: seq<string>)
    requires Distinct(ts)
    ensures Union([], ts) == ts
  {
    if ts != [] {
      var n := |ts| - 1;
      UnionFromEmpty(ts[..n]);
      assert ts[n] !in ts[..n];
      assert ts == ts[..n] + [ts[n]];
    }
  }

  lemma {:induction false} MinusOfUnion(ts: seq<string>, more: seq<string>, less: seq<string>)
    requires forall t :: t in more ==> t in less
    ensures Minus(Union(ts, more), less) == Minus(ts, less)
  {
    if more != [] {
      var n := |more| - 1;
      assert more == more[..n] + [more[n]];
      MinusOfUnion(ts, more[..n], less);
      var u := Union(ts, more[..n]);
      assert (u + [more[n]])[..|u|] == u;
    }
  }

  lemma {:induction false} MinusAll(ts: seq<string>, less: seq<string>)
    ensures Minus(ts, less) == ts <==> forall t :: t in ts ==> t !in less
  {
    if ts != [] {
      var n := |ts| - 1;
      assert ts == ts[..n] + [ts[n]];
      MinusAll(ts[..n], less);
      MinusShorter(ts[..n], less);
    }
  }

  lemma {:induction false} MinusShorter(ts: seq<string>, less: seq<string>)
    ensures |Minus(ts, less)| <= |ts|
  {
    if ts != [] {
      MinusShorter(ts[..|ts| - 1], less);
    }
  }

  lemma {:induction false} RemoveAtStored(m: Aliases, key: string, u: seq<string>, ts: seq<string>)
    requires u != []
    ensures RemoveAt(m[key := u], key, ts) == if Minus(u, ts) == [] then Without(m, key) else m[key := Minus(u, ts)]
  {
  }

  lemma {:induction false} RemoveAfterAdd(m: Aliases, key: string, ts: seq<string>)
    requires Distinct(Entry(m, key)) && ts != []
    ensures var left := Minus(Entry(m, key), ts);
            RemoveAt(AddAt(m, key, ts), key, ts) == if left == [] then Without(m, key) else m[key := left]
  {
    var u := Union(Entry(m, key), ts);
    assert u != [] by {
      assert ts[0] in ts;
      assert ts[0] in u;
    }
    UnionFromEmpty(Entry(m, key));
    RemoveAtStored(m, key, u, ts);
    MinusOfUnion(Entry(m, key), ts, ts);
  }

  /** Removing what was just added restores the exact store, the order of its lists included,
      exactly when the edit is ignored or none of the targets was there before. */
  lemma {:induction false} AddRemoveRestoresIff(m: Aliases, alias: string, targets: seq<string>)
    requires GoodStore(m)
    ensures RemoveTargets(AddTargets(m, alias, targets), alias, targets) == m <==>
            || Ignored(alias, targets)
            || forall t :: t in Normalize(targets) ==> t !in Entry(m, Norm(alias))
  {
    if !Ignored(alias, targets) {
      var key, ts := Norm(alias), Normalize(targets);
      var left := Minus(Entry(m, key), ts);
      RemoveAfterAdd(m, key, ts);
      MinusAll(Entry(m, key), ts);
      assert left == [] ==> key !in Without(m, key);
      assert left == Entry(m, key) ==> (if left == [] then Without(m, key) else m[key := left]) == m;
    }
  }

  predicate TargetAccepted(local: string) {
    var value := Norm(local);
    value != "" && ParseChatIdBase(BaseOf(value)).Ok?
  }

  /** A target is accepted exactly if its base is a chat's, whatever its flags. */
  lemma {:induction false} AcceptedIff(local: string, base: string, flags: seq<string>)
    requires TrimSpace(Lower(local)) == Glue([base] + flags, '.') && '.' !in base && forall f :: f in flags ==> '.' !in f
    ensures TargetAccepted(local) <==> exists id :: ParseChatIdBase(base) == Ok(id)
  {
    TargetIs(base, flags);
    if ParseChatIdBase(base).Ok? {
      ChatIdIff(base, ParseChatIdBase(base).value);
      assert flags != [] ==> ([base] + flags)[1..] == flags;
    }
    BaseFirst(base, flags);
  }

  lemma {:induction false} BaseFirst(base: string, flags: seq<string>)
    requires '.' !in base
    ensures BaseOf(Glue([base] + flags, '.')) == base
  {
    var local := Glue([base] + flags, '.');
    if flags == [] {
      IndexIs(local, '.', -1);
    } else {
      assert ([base] + flags)[1..] == flags;
      IndexIs(local, '.', |base|);
    }
  }

  ghost predicate AllAccepted(ts: seq<string>) {
    forall t :: t in ts ==> TargetAccepted(t)
  }

  /** What a stored target means: its chat and whether to post silently. */
  function TargetOf(local: string): Target
    requires ParseChatIdBase(BaseOf(local)).Ok?
  {
    Target(ParseChatIdBase(BaseOf(local)).value, HasFlag(FlagsOf(local), "silent"), local)
  }

  ghost predicate Means(targets: seq<Target>, locals: seq<string>) {
    |targets| == |locals| &&
    forall i :: 0 <= i < |locals| ==> ParseChatIdBase(BaseOf(locals[i])).Ok? && targets[i] == TargetOf(locals[i])
  }

  lemma {:induction false} AcceptedListParses(ts: seq<string>)
    requires AllAccepted(ts) && forall t :: t in ts ==> IsNormal(t)
    ensures ParseTargets(ts).Ok? && Means(ParseTargets(ts).value, ts)
  {
    if ts != [] {
      var n := |ts| - 1;
      assert ts == ts[..n] + [ts[n]];
      AcceptedListParses(ts[..n]);
      assert ts[n] in ts;
      NormalIsFixed(ts[n]);
    }
  }

  /** A name with accepted targets resolves for mail to it, to exactly the chats and flags its
      targets mean, exactly when neither the name nor the served domain contains an '@'. */
  lemma NameResolvesIff(m: Aliases, key: string, domain: string)
    requires key in m && key != "" && IsNormal(key) && m[key] != [] && AllAccepted(m[key])
    requires forall t :: t in m[key] ==> IsNormal(t)
    ensures var r := ParseAddress(Norm(domain), m, key + "@" + Norm(domain));
            && (r.Ok? <==> '@' !in key && '@' !in Norm(domain))
            && (r.Ok? ==> Means(r.value.targets, m[key]) && r.value.sourceLocal == key && r.value.aliasUsed)
  {
    var d := Norm(domain);
    NormIsNormal(domain);
    JoinNormal(key, d);
    NormalIsFixed(key + "@" + d);
    AcceptedListParses(m[key]);
    if '@' !in key {
      SplitAtSign(key, d);
    } else {
      TwoSigns(key, d);
    }
  }

  lemma {:induction false} NormalizedAccepted(targets: seq<string>)
    requires AllAccepted(targets)
    ensures AllAccepted(Normalize(targets))
  {
    forall t | t in Normalize(targets)
      ensures TargetAccepted(t)
    {
      var s :| s in targets && Norm(s) == t;
      NormIsNormal(s);
      NormalIsFixed(t);
    }
  }

  lemma {:induction false} NormalizeSomething(targets: seq<string>)
    requires targets != [] && AllAccepted(targets)
    ensures Normalize(targets) != []
  {
    assert targets[0] in targets;
    assert Norm(targets[0]) in Normalize(targets);
  }

  /** A group of accepted targets, set under a name, resolves for mail to that name exactly when
      neither the name nor the served domain contains an '@'. */
  lemma {:induction false} AcceptedGroupResolvesIff(m: Aliases, alias: string, targets: seq<string>, domain: string)
    requires targets != [] && AllAccepted(targets) && Norm(alias) != ""
    ensures var r := ParseAddress(Norm(domain), SetGroup(m, alias, targets), Norm(alias) + "@" + Norm(domain));
            && (r.Ok? <==> '@' !in Norm(alias) && '@' !in Norm(domain))
            && (r.Ok? ==> Means(r.value.targets, Normalize(targets)) && r.value.aliasUsed)
  {
    NormIsNormal(alias);
    NormalizeSomething(targets);
    NormalizedAccepted(targets);
    NormalizeIsGood(targets);
    NameResolvesIff(SetGroup(m, alias, targets), Norm(alias), domain);
  }

  /** Mail to an accepted target can be sent exactly when the number in it fits int64. */
  lemma AcceptedTargetUsableIff(local: string)
    requires TargetAccepted(local)
    ensures var id := TargetOf(Norm(local)).chatId;
            IsChatId(id) && (ParseInt(TrimSpace(id)).Some? <==> IsInt64(IdValue(id)))
  {
    AcceptedIdUsableIff(BaseOf(Norm(local)));
  }

  /** Every number beyond int64 is accepted as a target all the same. */
  lemma HugeIdAccepted(id: int)
    requires !IsInt64(id)
    ensures var local := LocalOf(id, false);
            && TargetAccepted(local) && ParseTarget(local) == Ok(Target(FormatInt(id), false, local))
            && ParseInt(TrimSpace(FormatInt(id))).None?
  {
    LocalIsNormal(id, false);
    NormalIsFixed(LocalOf(id, false));
    ParsePrintedTarget(id, false);
    FormatChars(id);
    ValueOfDigits(if id < 0 then 0 - id else id);
    if id < 0 {
      assert FormatInt(id)[1..] == Digits(0 - id);
    } else {
      assert IsDigit(FormatInt(id)[0]);
    }
  }

  /** A table all of whose targets have been accepted. */
  ghost predicate AcceptedStore(m: Aliases) {
    GoodStore(m) && EveryAccepted(m)
  }

  ghost predicate EveryAccepted(m: Aliases) {
    forall k :: k in m ==> AllAccepted(m[k])
  }

  lemma EveryAcceptedStays(m: Aliases, key: string, ts: seq<string>)
    requires EveryAccepted(m)
    ensures EveryAccepted(Without(m, key))
    ensures AllAccepted(ts) ==> EveryAccepted(m[key := ts])
  {
  }

  lemma {:induction false} EntryAccepted(m: Aliases, key: string, ts: seq<string>)
    requires EveryAccepted(m)
    ensures AllAccepted(Minus(Entry(m, key), ts))
    ensures AllAccepted(ts) ==> AllAccepted(Union(Union([], Entry(m, key)), ts))
  {
  }

  predicate Stores(e: Edit) {
    e.SetTo? || e.Add?
  }

  lemma EditKeepsAccepted(m: Aliases, e: Edit)
    requires AcceptedStore(m) && (Stores(e) ==> AllAccepted(e.targets))
    ensures AcceptedStore(Apply(m, e))
  {
    EditKeepsGood(m, e);
    var key := Norm(e.alias);
    if e.Drop? {
      EveryAcceptedStays(m, key, []);
    } else {
      var ts := Normalize(e.targets);
      if Stores(e) {
        NormalizedAccepted(e.targets);
      }
      EntryAccepted(m, key, ts);
      EveryAcceptedStays(m, key, ts);
      EveryAcceptedStays(m, key, Union(Union([], Entry(m, key)), ts));
      EveryAcceptedStays(m, key, Minus(Entry(m, key), ts));
    }
  }

  /** However the table is edited with accepted targets, every name in it that has no '@' keeps
      resolving, under every served domain without one. */
  lemma {:induction false} EditsKeepResolving(m: Aliases, es: seq<Edit>, key: string, domain: string)
    requires AcceptedStore(m) && forall i :: 0 <= i < |es| && Stores(es[i]) ==> AllAccepted(es[i].targets)
    ensures AcceptedStore(ApplyAll(m, es))
    ensures key in ApplyAll(m, es) ==>
      var r := ParseAddress(Norm(domain), ApplyAll(m, es), key + "@" + Norm(domain));
      && (r.Ok? <==> '@' !in key && '@' !in Norm(domain))
      && (r.Ok? ==> Means(r.value.targets, ApplyAll(m, es)[key]))
  {
    if es != [] {
      EditsKeepResolving(m, es[..|es| - 1], key, domain);
      EditKeepsAccepted(ApplyAll(m, es[..|es| - 1]), es[|es| - 1]);
    }
    if key in ApplyAll(m, es) {
      NameResolvesIff(ApplyAll(m, es), key, domain);
    }
  }

  lemma {:induction false} TwoSigns(key: string, d: string)
    requires '@' in key
    ensures |SplitOn(key + "@" + d, '@')| > 2
  {
    var s, i := key + "@" + d, Index(key, '@');
    IndexIs(s, '@', i);
    var rest := s[i + 1..];
    assert rest[|key| - i - 1] == '@';
    assert Index(rest, '@') >= 0;
    assert |SplitOn(rest, '@')| >= 2;
  }

  // ----- the table itself -----

  class Parser {
    const allowedDomain: string
    var aliases: Aliases

    constructor (domain: string, initial: Aliases)
      ensures allowedDomain == Norm(domain) && aliases == initial
    {
      allowedDomain := Norm(domain);
      aliases := initial;
    }

    method Parse(address: string) returns (r: Result<Parsed, AddressError>)
      ensures r == ParseAddress(allowedDomain, aliases, address)
    {
      var parts := SplitOn(Norm(address), '@');
      if |parts| != 2 {
        return Err(BadFormat);
      }
      var local, domain := parts[0], parts[1];
      if domain != allowedDomain {
        return Err(WrongDomain);
      }
      var ok := local in aliases;
      var locals := [local];
      if ok {
        locals := aliases[local];
      }
      var resolved := ResolveTargets(locals);
      if resolved.Err? {
        return Err(resolved.error);
      }
      var targets := resolved.value;
      if |targets| == 0 {
        return Err(NoTargets);
      }
      return Ok(Parsed(targets, Join(locals), address, local, ok));
    }

    method ValidateAliasTarget(local: string) returns (ok: bool)
      ensures ok == TargetAccepted(local)
    {
      var value := Norm(local);
      if value == "" {
        return false;
      }
      var base := value;
      var idx := Index(value, '.');
      if idx >= 0 {
        base := value[..idx];
      }
      ok := ParseChatIdBase(base).Ok?;
    }

    method SetAliasGroup(alias: string, targets: seq<string>)
      modifies `aliases
      ensures aliases == SetGroup(old(aliases), alias, targets)
    {
      var key := Norm(alias);
      if key == "" || |targets| == 0 {
        return;
      }
      var normalized := NormalizeAliasTargets(targets);
      if |normalized| == 0 {
        return;
      }
      aliases := aliases[key := normalized];
    }

    method AddAliasTargets(alias: string, targets: seq<string>)
      modifies `aliases
      ensures aliases == AddTargets(old(aliases), alias, targets)
    {
      var key := Norm(alias);
      if key == "" || |targets| == 0 {
        return;
      }
      var toAdd := NormalizeAliasTargets(targets);
      if |toAdd| == 0 {
        return;
      }
      var existing := if key in aliases then aliases[key] else [];
      var merged := AppendMissing([], existing);
      merged := AppendMissing(merged, toAdd);
      assert toAdd[0] in merged;
      if |merged| == 0 {
        return;
      }
      aliases := aliases[key := merged];
    }

    method RemoveAliasTargets(alias: string, targets: seq<string>)
      modifies `aliases
      ensures aliases == RemoveTargets(old(aliases), alias, targets)
    {
      var key := Norm(alias);
      if key == "" || |targets| == 0 {
        return;
      }
      var toRemove := NormalizeAliasTargets(targets);
      if |toRemove| == 0 {
        return;
      }
      if key !in aliases || |aliases[key]| == 0 {
        return;
      }
      var updated := KeepOthers(aliases[key], toRemove);
      if |updated| == 0 {
        aliases := map k | k in aliases && k != key :: aliases[k];
        return;
      }
      aliases := aliases[key := updated];
    }

    method DeleteAlias(alias: string)
      modifies `aliases
      ensures aliases == Delete(old(aliases), alias)
    {
      var key := Norm(alias);
      if key == "" {
        return;
      }
      aliases := map k | k in aliases && k != key :: aliases[k];
    }
  }

  lemma {:induction false} FirstErrorStays(locals: seq<string>, n: nat)
    requires n <= |locals| && ParseTargets(locals[..n]).Err?
    ensures ParseTargets(locals) == ParseTargets(locals[..n])
    decreases |locals|
  {
    if n < |locals| {
      var k := |locals| - 1;
      assert locals[..k][..n] == locals[..n];
      FirstErrorStays(locals[..k], n);
    } else {
      assert locals[..n] == locals;
    }
  }

  /** The loop of Parse over the locals an address stands for. */
  method ResolveTargets(locals: seq<string>) returns (r: Result<seq<Target>, AddressError>)
    ensures r == ParseTargets(locals)
  {
    var targets := [];
    for i := 0 to |locals|
      invariant ParseTargets(locals[..i]) == Ok(targets)
    {
      assert locals[..i + 1][..i] == locals[..i];
      var targetLocal := locals[i];
      var id := ParseChatIdBase(BaseOf(targetLocal));
      if id.Err? {
        FirstErrorStays(locals, i + 1);
        return Err(id.error);
      }
      targets := targets + [Target(id.value, HasFlag(FlagsOf(targetLocal), "silent"), targetLocal)];
    }
    assert locals[..|locals|] == locals;
    r := Ok(targets);
  }

  /** The loop of RemoveAliasTargets. */
  method KeepOthers(existing: seq<string>, toRemove: seq<string>) returns (updated: seq<string>)
    ensures updated == Minus(existing, toRemove)
  {
    updated := [];
    for i := 0 to |existing|
      invariant updated == Minus(existing[..i], toRemove)
    {
      assert existing[..i + 1][..i] == existing[..i];
      if existing[i] in toRemove {
        continue;
      }
      updated := updated + [existing[i]];
    }
    assert existing[..|existing|] == existing;
  }

  /** The loop that AddAliasTargets runs twice over one `seen` set. */
  method AppendMissing(start: seq<string>, items: seq<string>) returns (merged: seq<string>)
    ensures merged == Union(start, items)
  {
    merged := start;
    var seen := set t | t in start;
    for i := 0 to |items|
      invariant merged == Union(start, items[..i])
      invariant forall t :: t in seen <==> t in merged
    {
      assert items[..i + 1][..i] == items[..i];
      if items[i] in seen {
        continue;
      }
      seen := seen + {items[i]};
      merged := merged + [items[i]];
    }
    assert items[..|items|] == items;
  }

  method NormalizeAliasTargets(targets: seq<string>) returns (out: seq<string>)
    ensures out == Normalize(targets)
  {
    out := [];
    var seen: set<string> := {};
    for i := 0 to |targets|
      invariant out == Normalize(targets[..i])
      invariant forall t :: t in seen <==> t in out
    {
      assert targets[..i + 1][..i] == targets[..i];
      var target := Norm(targets[i]);
      if target == "" {
        continue;
      }
      if target in seen {
        continue;
      }
      seen := seen + {target};
      out := out + [target];
    }
    assert targets[..|targets|] == targets;
  }
}
