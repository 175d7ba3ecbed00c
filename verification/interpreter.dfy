/**
 * The front of `FetchChannels`: which conversation types to request
 * (`ConstructTypeQuery`), and how a leading `#`, `^` or `@` in the search
 * text overrides the configured type toggles.
 */
module QueryInterpreter {
  import opened Text
  import opened Channels

  /** The four "include ..." settings, in the order of the plugin's fields. */
  datatype TypeToggles = TypeToggles(incPublic: bool, incPrivate: bool, incMpim: bool, incIm: bool)

  predicate Includes(t: TypeToggles, k: ChannelType) {
    match k
    case Public => t.incPublic
    case Private => t.incPrivate
    case Mpim => t.incMpim
    case Im => t.incIm
  }

  predicate AnyIncluded(t: TypeToggles) {
    t.incPublic || t.incPrivate || t.incMpim || t.incIm
  }

  /** Where a type stands in the `types` request parameter. */
  function TypeOrder(k: ChannelType): nat {
    match k
    case Public => 0
    case Private => 1
    case Mpim => 2
    case Im => 3
  }

  /** The name Slack's `types` parameter uses for a type. */
  function TypeName(k: ChannelType): string {
    match k
    case Public => "public_channel"
    case Private => "private_channel"
    case Mpim => "mpim"
    case Im => "im"
  }

  /** The included types, each once, in the fixed order public, private, mpim, im. */
  function EnabledTypes(t: TypeToggles): (r: seq<ChannelType>)
    ensures forall k :: k in r <==> Includes(t, k)
    ensures forall i, j :: 0 <= i < j < |r| ==> TypeOrder(r[i]) < TypeOrder(r[j])
  {
    (if t.incPublic then [Public] else []) + (if t.incPrivate then [Private] else [])
    + (if t.incMpim then [Mpim] else []) + (if t.incIm then [Im] else [])
  }

  function TypeNames(ks: seq<ChannelType>): (r: seq<string>)
    ensures |r| == |ks| && forall i :: 0 <= i < |ks| ==> r[i] == TypeName(ks[i])
  {
    seq(|ks|, i requires 0 <= i < |ks| => TypeName(ks[i]))
  }

  /** The `types` request parameter: the included type names joined with commas. */
  function TypeQuery(t: TypeToggles): string {
    Join(',', TypeNames(EnabledTypes(t)))
  }

  /** No type name holds a comma, and none is empty. */
  lemma TypeNamesSeparable(ks: seq<ChannelType>)
    ensures forall i :: 0 <= i < |ks| ==> ',' !in TypeNames(ks)[i] && TypeNames(ks)[i] != ""
  {
    forall i | 0 <= i < |ks| ensures ',' !in TypeNames(ks)[i] && TypeNames(ks)[i] != "" {
      match ks[i]
      case Public => assert TypeName(Public) == "public_channel";
      case Private => assert TypeName(Private) == "private_channel";
      case Mpim => assert TypeName(Mpim) == "mpim";
      case Im => assert TypeName(Im) == "im";
    }
  }

  /** Joining names none of which is empty gives "" only for no names. */
  lemma JoinEmpty(parts: seq<string>)
    requires forall i :: 0 <= i < |parts| ==> parts[i] != ""
    ensures Join(',', parts) == "" <==> parts == []
  {
    if |parts| > 1 {
      assert Join(',', parts) == parts[0] + [','] + Join(',', parts[1..]);
    }
  }

  /**
   * The `types` parameter lists exactly the included types: splitting it at
   * the commas gives their names in the fixed order, and it is empty exactly
   * when no type is included.
   */
  lemma {:induction false} TypeQueryListsIncludedTypes(t: TypeToggles)
    ensures TypeQuery(t) == "" <==> !AnyIncluded(t)
    ensures AnyIncluded(t) ==> Split(',', TypeQuery(t)) == TypeNames(EnabledTypes(t))
    ensures AnyIncluded(t) ==> forall k :: TypeName(k) in Split(',', TypeQuery(t)) <==> Includes(t, k)
  {
    var ks := EnabledTypes(t);
    var names := TypeNames(ks);
    TypeNamesSeparable(ks);
    JoinEmpty(names);
    assert ks == [] <==> !AnyIncluded(t) by {
      if ks != [] { assert Includes(t, ks[0]); }
      if t.incPublic { assert Public in ks; }
      if t.incPrivate { assert Private in ks; }
      if t.incMpim { assert Mpim in ks; }
      if t.incIm { assert Im in ks; }
    }
    if AnyIncluded(t) {
      SplitJoin(',', names);
      forall k ensures TypeName(k) in names <==> Includes(t, k) {
        TypeNameInNames(ks, k);
      }
    }
  }

  /** Type names tell the types apart. */
  lemma TypeNameInNames(ks: seq<ChannelType>, k: ChannelType)
    ensures TypeName(k) in TypeNames(ks) <==> k in ks
  {
    var names := TypeNames(ks);
    if TypeName(k) in names {
      var i :| 0 <= i < |names| && names[i] == TypeName(k);
      assert TypeName(ks[i]) == TypeName(k);
      assert ks[i] == k by {
        match ks[i]
        case Public => assert TypeName(Public)[0] == 'p' && |TypeName(Public)| == 14;
        case Private => assert TypeName(Private)[1] == 'r';
        case Mpim => assert TypeName(Mpim)[0] == 'm';
        case Im => assert TypeName(Im)[0] == 'i';
      }
    }
    if k in ks {
      var i :| 0 <= i < |ks| && ks[i] == k;
      assert names[i] == TypeName(k);
    }
  }

  lemma TypeNamesAppend(ks: seq<ChannelType>, k: ChannelType)
    ensures TypeNames(ks + [k]) == TypeNames(ks) + [TypeName(k)]
  {
  }

  /** `ConstructTypeQuery`: add the name of every included type to a list, then join it with commas. */
  method ConstructTypeQuery(incPublic: bool, incPrivate: bool, incMpim: bool, incIm: bool) returns (types: string)
    ensures types == TypeQuery(TypeToggles(incPublic, incPrivate, incMpim, incIm))
  {
    ghost var kinds: seq<ChannelType> := [];
    var names: seq<string> := [];
    if incPublic {
      TypeNamesAppend(kinds, Public);
      names, kinds := names + ["public_channel"], kinds + [Public];
    }
    if incPrivate {
      TypeNamesAppend(kinds, Private);
      names, kinds := names + ["private_channel"], kinds + [Private];
    }
    if incMpim {
      TypeNamesAppend(kinds, Mpim);
      names, kinds := names + ["mpim"], kinds + [Mpim];
    }
    if incIm {
      TypeNamesAppend(kinds, Im);
      names, kinds := names + ["im"], kinds + [Im];
    }
    assert kinds == EnabledTypes(TypeToggles(incPublic, incPrivate, incMpim, incIm));
    types := Join(',', names);
  }

  /** The order in which the sigil checks run: `#`, then `^`, then `@`; -1 for any other character. */
  function SigilRank(c: char): int {
    if c == '#' then 0 else if c == '^' then 1 else if c == '@' then 2 else -1
  }

  predicate IsSigil(c: char) {
    SigilRank(c) >= 0
  }

  /** Sigils in the order the checks look for them, each at most once. */
  predicate IsSigilRun(p: string) {
    && (forall i :: 0 <= i < |p| ==> IsSigil(p[i]))
    && (forall i, j :: 0 <= i < j < |p| ==> SigilRank(p[i]) < SigilRank(p[j]))
  }

  /** No later check can strip the first character of `rest` once the run `p` is stripped. */
  predicate EndsRun(p: string, rest: string) {
    rest == [] || !IsSigil(rest[0]) || (p != [] && SigilRank(rest[0]) <= SigilRank(p[|p| - 1]))
  }

  /**
   * The three `StartsWith` checks of `FetchChannels` and `SearchChannels`:
   * each strips one leading sigil, so the text loses the longest leading run
   * of sigils in the order `#`, `^`, `@`.
   */
  function StripLeadingSigils(s: string): (r: string)
    ensures |r| <= |s| && |s| - |r| <= 3
    ensures s == s[..|s| - |r|] + r
    ensures IsSigilRun(s[..|s| - |r|])
    ensures EndsRun(s[..|s| - |r|], r)
  {
    var a := if StartsWith(s, '#') then s[1..] else s;
    var b := if StartsWith(a, '^') then a[1..] else a;
    var r := if StartsWith(b, '@') then b[1..] else b;
    assert s[..|s| - |r|] + r == s;
    r
  }

  /** The sigils stripped from `s`. */
  function SigilPrefix(s: string): string {
    s[..|s| - |StripLeadingSigils(s)|]
  }

  /** Stripping is the only split of `s` into a sigil run and a rest that ends it. */
  lemma {:induction false} SigilSplitUnique(s: string, n: nat)
    requires n <= |s|
    requires IsSigilRun(s[..n]) && EndsRun(s[..n], s[n..])
    ensures s[n..] == StripLeadingSigils(s)
  {
    var p := s[..n];
    var a := if StartsWith(s, '#') then s[1..] else s;
    var b := if StartsWith(a, '^') then a[1..] else a;
    var r := if StartsWith(b, '@') then b[1..] else b;
    assert r == StripLeadingSigils(s);
    if n == 0 {
      assert EndsRun(p, s);
    } else if n == 1 {
      assert s[0] == p[0] && IsSigil(p[0]);
      assert s[1..] == s[n..];
    } else if n == 2 {
      assert s[0] == p[0] && s[1] == p[1];
      assert SigilRank(p[0]) < SigilRank(p[1]);
      assert s[2..] == s[n..];
    } else {
      assert s[0] == p[0] && s[1] == p[1] && s[2] == p[2];
      assert SigilRank(p[0]) < SigilRank(p[1]) < SigilRank(p[2]);
      assert s[3..] == s[n..];
    }
  }

  /** What a sigil does to the toggles: `#` public on, group DMs and DMs off; `^` group DMs only; `@` DMs only. */
  function Override(c: char, d: TypeToggles): TypeToggles {
    if c == '#' then d.(incPublic := true, incMpim := false, incIm := false)
    else if c == '^' then TypeToggles(false, false, true, false)
    else if c == '@' then TypeToggles(false, false, false, true)
    else d
  }

  /**
   * The toggles a search text leaves: the configured ones when it starts with
   * no sigil; otherwise each stripped sigil overrides them in turn, so `@`
   * wins over `^`, and `^` over `#`, and a lone `#` keeps the private toggle.
   */
  function SigilToggles(s: string, d: TypeToggles): (t: TypeToggles)
    ensures SigilPrefix(s) == "" ==> t == d
    ensures '@' in SigilPrefix(s) ==> t == TypeToggles(false, false, false, true)
    ensures '^' in SigilPrefix(s) && '@' !in SigilPrefix(s) ==> t == TypeToggles(false, false, true, false)
    ensures SigilPrefix(s) == "#" ==> t == TypeToggles(true, d.incPrivate, false, false)
  {
    var a := if StartsWith(s, '#') then s[1..] else s;
    var b := if StartsWith(a, '^') then a[1..] else a;
    var t1 := if StartsWith(s, '#') then Override('#', d) else d;
    var t2 := if StartsWith(a, '^') then Override('^', t1) else t1;
    if StartsWith(b, '@') then Override('@', t2) else t2
  }

  /**
   * The front of `FetchChannels`: trim the search text, then strip a leading
   * `#`, `^` and `@` in turn, each overriding the type toggles it started from.
   */
  method InterpretQuery(search: string, defaults: TypeToggles) returns (query: string, toggles: TypeToggles)
    ensures query == StripLeadingSigils(Trim(search))
    ensures toggles == SigilToggles(Trim(search), defaults)
  {
    var incPublic, incPrivate, incMpim, incIm := defaults.incPublic, defaults.incPrivate, defaults.incMpim, defaults.incIm;
    query := Trim(search);
    if StartsWith(query, '#') {
      query := query[1..];
      incPublic := true;
      incMpim := false;
      incIm := false;
    }
    if StartsWith(query, '^') {
      query := query[1..];
      incPublic := false;
      incPrivate := false;
      incMpim := true;
      incIm := false;
    }
    if StartsWith(query, '@') {
      query := query[1..];
      incPublic := false;
      incPrivate := false;
      incMpim := false;
      incIm := true;
    }
    toggles := TypeToggles(incPublic, incPrivate, incMpim, incIm);
  }
}
