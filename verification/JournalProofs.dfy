/**
  What the journal parser makes of what the journal writer prints.
 */
module JournalProofs {
  import opened Types
  import opened Journal

  // ---------------------------------------------------------------- lines and tokens

  lemma FindPrefix(a: string, c: char, b: string)
    requires forall i :: 0 <= i < |a| ==> a[i] != c
    ensures Find(a + [c] + b, c) == |a|
  {
    var s := a + [c] + b;
    assert s[|a|] == c;
    assert forall i :: 0 <= i < |a| ==> s[i] == a[i];
  }

  ghost predicate OneLine(s: string) { forall i :: 0 <= i < |s| ==> s[i] != '\n' }

  lemma {:induction false} TextLines(lines: seq<string>)
    requires forall i :: 0 <= i < |lines| ==> OneLine(lines[i])
    ensures Lines(Text(lines)) == lines
  {
    if lines != [] {
      var l, rest := lines[0], Text(lines[1..]);
      assert Text(lines) == l + ['\n'] + rest;
      FindPrefix(l, '\n', rest);
      assert Text(lines)[..|l|] == l && Text(lines)[|l|+1..] == rest;
      TextLines(lines[1..]);
    }
  }

  lemma TokenStep(w: string, rest: string)
    requires Word(w) && (rest == [] || White(rest[0]))
    ensures Tokens(w + rest) == [w] + Tokens(rest)
  {
    var s := w + rest;
    assert s[0] == w[0] && forall i :: 0 <= i < |w| ==> s[i] == w[i];
    assert rest != [] ==> s[|w|] == rest[0];
    assert WordLen(s) == |w|;
    assert s[..|w|] == w && s[|w|..] == rest;
  }

  ghost predicate Words(ts: seq<string>) { forall i :: 0 <= i < |ts| ==> Word(ts[i]) }

  lemma {:induction false} TailTokens(ts: seq<string>)
    requires Words(ts)
    ensures Tokens(Tail(ts)) == ts
  {
    if ts != [] {
      var rest := Tail(ts[1..]);
      assert Tail(ts) == [' '] + (ts[0] + rest);
      assert Tail(ts)[1..] == ts[0] + rest;
      TokenStep(ts[0], rest);
      TailTokens(ts[1..]);
    }
  }

  lemma LineTokens(ts: seq<string>)
    requires Words(ts)
    ensures Tokens(Line(ts)) == ts
  {
    if ts != [] {
      TokenStep(ts[0], Tail(ts[1..]));
      TailTokens(ts[1..]);
    }
  }

  /** A line of solid tokens has no white space but the blanks between them. */
  lemma {:induction false} TailChars(ts: seq<string>)
    requires forall i :: 0 <= i < |ts| ==> Solid(ts[i])
    ensures forall i :: 0 <= i < |Tail(ts)| ==> Tail(ts)[i] == ' ' || !White(Tail(ts)[i])
  {
    if ts != [] { TailChars(ts[1..]); }
  }

  /** Nothing about a line of tokens makes the parser skip it or cut it. */
  lemma LinePlain(ts: seq<string>)
    requires Words(ts) && ts != [] && ts[0][0] != '#'
    ensures Chomp(Line(ts)) == Line(ts) && !Skipped(Line(ts)) && OneLine(Line(ts))
  {
    TailChars(ts[1..]);
    var line := Line(ts);
    assert line[0] == ts[0][0];
    assert forall i :: 0 <= i < |ts[0]| ==> line[i] == ts[0][i];
    assert forall i :: |ts[0]| <= i < |line| ==> line[i] == Tail(ts[1..])[i - |ts[0]|];
  }

  // ---------------------------------------------------------------- fields

  ghost predicate CleanFields(f: Fields) {
    forall k :: k in f ==> Solid(k) && Solid(f[k]) && '=' !in k
  }

  lemma PairParts(k: string, v: string)
    requires '=' !in k && Solid(k) && Solid(v)
    ensures Word(Pair(k, v)) && Find(Pair(k, v), '=') == |k|
    ensures Pair(k, v)[..|k|] == k && Pair(k, v)[|k|+1..] == v && |Pair(k, v)| > |k|
  {
    assert Pair(k, v) == k + ['='] + v;
    FindPrefix(k, '=', v);
  }

  lemma {:induction false} PairsWords(ks: seq<string>, f: Fields)
    requires (forall k :: k in ks ==> k in f) && CleanFields(f)
    ensures Words(Pairs(ks, f))
  {
    if ks != [] {
      PairParts(ks[0], f[ks[0]]);
      PairsWords(ks[1..], f);
    }
  }

  ghost function Restrict(ks: seq<string>, f: Fields): Fields
    requires forall k :: k in ks ==> k in f
  { map k | k in ks :: f[k] }

  lemma {:induction false} ParsePairs(n: nat, ks: seq<string>, f: Fields, acc: Fields)
    requires (forall k :: k in ks ==> k in f) && CleanFields(f)
    ensures ParseKv(n, Pairs(ks, f), acc) == Ok(acc + Restrict(ks, f))
  {
    if ks == [] {
      assert acc + Restrict(ks, f) == acc;
    } else {
      var k := ks[0];
      PairParts(k, f[k]);
      assert Pairs(ks, f)[0] == Pair(k, f[k]) && Pairs(ks, f)[1..] == Pairs(ks[1..], f);
      ParsePairs(n, ks[1..], f, acc[k := f[k]]);
      assert acc[k := f[k]] + Restrict(ks[1..], f) == acc + Restrict(ks, f);
    }
  }

  /** Whatever the order of printing, the fields come back. */
  lemma FieldsBack(n: nat, ks: seq<string>, f: Fields)
    requires Lists(ks, f) && CleanFields(f)
    ensures ParseKv(n, Pairs(ks, f), map[]) == Ok(f)
  {
    ParsePairs(n, ks, f, map[]);
    assert map[] + Restrict(ks, f) == f;
  }

  // ---------------------------------------------------------------- numbers

  lemma {:induction false} DigitsBack(n: nat)
    ensures Value(Digits(n)) == n && Digits(n) != []
    ensures forall i :: 0 <= i < |Digits(n)| ==> IsDigit(Digits(n)[i])
  {
    if n >= 10 {
      DigitsBack(n / 10);
      var d := Digits(n);
      assert d[..|d| - 1] == Digits(n / 10);
    } else {
      assert Digits(n)[..0] == [];
    }
  }

  lemma IntBack(n: int)
    requires Int64(n)
    ensures StoLL(IntText(n)) == Some(n) && Solid(IntText(n))
  {
    hide Digits, Value;
    var m := if n < 0 then -n else n;
    DigitsBack(m);
    var t := IntText(n);
    assert SkipWhite(t) == t;
    var u := if n < 0 then t[1..] else t;
    assert u == Digits(m);
    assert DigitsLen(u) == |u| && u[..|u|] == u;
    assert n >= 0 ==> IsDigit(t[0]);
  }

  // ---------------------------------------------------------------- kinds

  /** Length, first and last character tell the names apart. */
  function Tag(s: string): int
    requires s != []
  { 40000 * |s| + 200 * s[0] as int + s[|s| - 1] as int }

  function KindTag(k: Kind): int {
    match k
    case NewOrder => 375682 case Cancel => 253476 case Modify => 255489
    case TriggerExpiry => 576889 case SetSessionState => 696669 case ExecuteAuction => 613878
    case PublishIndicative => 736069 case MassCancel => 455476 case MassCancelAll => 615476
    case RestoreOrder => 536482 case BustTrade => 413269 case ILink3NewOrder => 654682
    case ILink3Cancel => 534676 case ILink3Replace => 574669 case ILink3MassCancel => 734676
    case IceFixNewOrder => 694682 case IceFixCancel => 574676 case IceFixReplace => 614669
    case IceFixMassCancel => 774676 case KrxFixNewOrder => 695082 case KrxFixCancel => 575076
    case KrxFixReplace => 615069 case SessionStart => 536684 case SessionOpen => 496678
    case SessionClose => 536669
  }

  lemma NameTag(k: Kind)
    ensures Name(k) != [] && Tag(Name(k)) == KindTag(k)
  {
  }

  lemma NameUnique(a: Kind, b: Kind)
    requires Name(a) == Name(b)
    ensures a == b
  {
    hide Name;
    NameTag(a);
    NameTag(b);
  }

  lemma {:induction false} FirstIsIt(k: Kind, ks: seq<Kind>)
    requires k in ks
    ensures FirstNamed(Name(k), ks) == Some(k)
  {
    hide Name;
    if Name(ks[0]) == Name(k) { NameUnique(ks[0], k); } else { FirstIsIt(k, ks[1..]); }
  }

  lemma KindBack(k: Kind)
    ensures KindOf(Name(k)) == Some(k)
  {
    hide Name, FirstNamed;
    assert k in KINDS by { AllKinds(k); }
    FirstIsIt(k, KINDS);
  }

  lemma AllKinds(k: Kind)
    ensures k in KINDS
  {
  }

  // ---------------------------------------------------------------- known fields

  function FieldTag(f: Field): int {
    match f
    case FTs => 103315 case FClOrdId => 379900 case FAccountId => 419500 case FSide => 183101
    case FPrice => 222501 case FQty => 142721 case FType => 183301 case FTif => 143302
    case FStopPrice => 423101 case FGtdExpiry => 420721 case FOrdId => 262300 case FNewPrice => 382101
    case FNewQty => 302121 case FState => 223101 case FReferencePrice => 622901 case FFilledQty => 420521
    case FRemainingQty => 542921 case FDisplayQty => 460121 case FTotalQty => 383321 case FTradeId => 343300
    case FInstrument => 421116 case FAccount => 299516 case FOrigClOrdId => 582300 case FOriginatorUserId => 742300
    case FAccountCode => 499501 case FMemo => 181911 case FProgramTrading => 622503 case FInvestorType => 541101
    case FBoardId => 339700
  }

  lemma NameOfField(f: Field)
    ensures FieldName(f) != [] && Tag(FieldName(f)) == FieldTag(f)
  {
  }

  lemma FieldUnique(a: Field, b: Field)
    requires FieldName(a) == FieldName(b)
    ensures a == b
  {
    hide FieldName;
    NameOfField(a);
    NameOfField(b);
  }

  lemma FewOnce(k: Kind, i: nat, j: nat)
    requires i < j < |KnownFields(k)| <= 5
    ensures KnownFields(k)[i] != KnownFields(k)[j]
  {
  }

  lemma SomeOnce(k: Kind, i: nat, j: nat)
    requires i < j < |KnownFields(k)| && 5 < |KnownFields(k)| <= 7
    ensures KnownFields(k)[i] != KnownFields(k)[j]
  {
  }

  /** The order in which the long lists name their fields. */
  function Rank(f: Field): nat {
    match f
    case FTs => 0 case FOrdId => 1 case FInstrument => 1 case FClOrdId => 2 case FAccountId => 3 case FAccount => 3
    case FSide => 4 case FPrice => 5 case FQty => 6 case FFilledQty => 7 case FRemainingQty => 8 case FType => 9
    case FTif => 10 case FDisplayQty => 11 case FStopPrice => 12 case FTotalQty => 12 case FGtdExpiry => 13
    case FOriginatorUserId => 12 case FAccountCode => 13 case FMemo => 14
    case FProgramTrading => 12 case FInvestorType => 13 case FBoardId => 14
    case _ => 0
  }

  lemma RankShort(k: Kind, i: nat)
    requires i + 1 < |KnownFields(k)| && 7 < |KnownFields(k)| < 13
    ensures Rank(KnownFields(k)[i]) < Rank(KnownFields(k)[i+1])
  {
  }

  lemma RankLow(k: Kind, i: nat)
    requires i + 1 < |KnownFields(k)| && 13 <= |KnownFields(k)| && i < 6
    ensures Rank(KnownFields(k)[i]) < Rank(KnownFields(k)[i+1])
  {
  }

  lemma RankHigh(k: Kind, i: nat)
    requires i + 1 < |KnownFields(k)| && 13 <= |KnownFields(k)| && 6 <= i
    ensures Rank(KnownFields(k)[i]) < Rank(KnownFields(k)[i+1])
  {
  }

  lemma RankStep(k: Kind, i: nat)
    requires i + 1 < |KnownFields(k)| && 7 < |KnownFields(k)|
    ensures Rank(KnownFields(k)[i]) < Rank(KnownFields(k)[i+1])
  {
    hide KnownFields, Rank;
    if |KnownFields(k)| < 13 { RankShort(k, i); } else if i < 6 { RankLow(k, i); } else { RankHigh(k, i); }
  }

  lemma {:induction false} ManyOnce(k: Kind, i: nat, j: nat)
    requires i < j < |KnownFields(k)| && 7 < |KnownFields(k)|
    ensures Rank(KnownFields(k)[i]) < Rank(KnownFields(k)[j])
    decreases j
  {
    hide KnownFields, Rank;
    RankStep(k, j - 1);
    if i < j - 1 { ManyOnce(k, i, j - 1); }
  }

  /** No known field is named twice for a kind. */
  lemma KnownOnce(k: Kind)
    ensures Once(Known(k))
  {
    hide FieldName, KnownFields;
    var ks := KnownFields(k);
    forall i, j | 0 <= i < j < |ks| ensures Known(k)[i] != Known(k)[j] {
      if |ks| <= 5 { FewOnce(k, i, j); } else if |ks| <= 7 { SomeOnce(k, i, j); } else { ManyOnce(k, i, j); }
      if FieldName(ks[i]) == FieldName(ks[j]) { FieldUnique(ks[i], ks[j]); }
    }
  }

  lemma SolidChars(s: string)
    requires forall c :: c in s ==> !White(c)
    ensures Solid(s)
  {
    assert forall i :: 0 <= i < |s| ==> s[i] in s;
  }

  lemma KindWord(k: Kind)
    ensures Word(Name(k))
  {
    hide Name;
    if KindTag(k) < 560000 { ShortName(k); } else if KindTag(k) < 640000 { MidName(k); } else if KindTag(k) < 696000 { LongName(k); } else { LongestName(k); }
    SolidChars(Name(k));
    NameTag(k);
  }

  lemma ShortName(k: Kind)
    requires KindTag(k) < 560000
    ensures forall c :: c in Name(k) ==> !White(c)
  {
  }

  lemma MidName(k: Kind)
    requires 560000 <= KindTag(k) < 640000
    ensures forall c :: c in Name(k) ==> !White(c)
  {
  }

  lemma LongestName(k: Kind)
    requires 696000 <= KindTag(k)
    ensures forall c :: c in Name(k) ==> !White(c)
  {
  }

  lemma LongName(k: Kind)
    requires 640000 <= KindTag(k) < 696000
    ensures forall c :: c in Name(k) ==> !White(c)
  {
  }

  // ---------------------------------------------------------------- one line at a time

  ghost predicate CleanEntry(e: Entry) {
    && CleanFields(e.fields)
    && forall i :: 0 <= i < |e.expects| ==> Word(e.expects[i].event) && CleanFields(e.expects[i].fields)
  }

  lemma Keywords()
    ensures Word("CONFIG") && Word("ACTION") && Word("EXPECT")
    ensures "CONFIG"[0] == 'C' && "ACTION"[0] == 'A' && "EXPECT"[0] == 'E'
    ensures "CONFIG" != "ACTION" && "CONFIG" != "EXPECT" && "ACTION" != "EXPECT"
  {
    SolidChars("CONFIG");
    SolidChars("ACTION");
    SolidChars("EXPECT");
    assert "CONFIG"[0] != "ACTION"[0] && "CONFIG"[0] != "EXPECT"[0] && "ACTION"[0] != "EXPECT"[0];
  }

  /** A line of tokens is parsed as those tokens. */
  lemma ParsePrinted(n: nat, j: Journal, ts: seq<string>)
    requires Words(ts) && ts != [] && ts[0][0] != '#'
    ensures ParseLine(n, j, Line(ts)) ==
      if ts[0] == "CONFIG" then ParseConfig(n, j, ts)
      else if ts[0] == "ACTION" then ParseAction(n, j, ts)
      else if ts[0] == "EXPECT" then ParseExpect(n, j, ts)
      else Err(n, UnknownKeyword(ts[0]))
  {
    hide Line, Tokens, Chomp, Skipped;
    LinePlain(ts);
    LineTokens(ts);
  }

  lemma ActionBack(n: nat, j: Journal, e: Entry, line: string)
    requires IsAction(e, line) && CleanEntry(e)
    ensures ParseLine(n, j, line) == Ok(j.(entries := j.entries + [e.(expects := [])])) && OneLine(line)
  {
    hide Line, ParseLine, Name, KindOf, Known, Present;
    var ks :| Lists(ks, e.fields) && Present(Known(e.kind), e.fields) <= ks && line == Line(["ACTION", Name(e.kind)] + Pairs(ks, e.fields));
    var ts := ["ACTION", Name(e.kind)] + Pairs(ks, e.fields);
    Keywords();
    KindWord(e.kind);
    KindBack(e.kind);
    PairsWords(ks, e.fields);
    ParsePrinted(n, j, ts);
    LinePlain(ts);
    FieldsBack(n, ks, e.fields);
    assert ts[2..] == Pairs(ks, e.fields);
  }

  lemma ExpectBack(n: nat, j: Journal, x: Expectation, line: string)
    requires IsExpect(x, line) && Word(x.event) && CleanFields(x.fields) && j.entries != []
    ensures ParseLine(n, j, line) == Ok(j.(entries := AddExpectation(j.entries, x))) && OneLine(line)
  {
    hide Line, ParseLine;
    var ks :| Lists(ks, x.fields) && line == Line(["EXPECT", x.event] + Pairs(ks, x.fields));
    var ts := ["EXPECT", x.event] + Pairs(ks, x.fields);
    Keywords();
    PairsWords(ks, x.fields);
    ParsePrinted(n, j, ts);
    LinePlain(ts);
    FieldsBack(n, ks, x.fields);
    assert ts[2..] == Pairs(ks, x.fields);
  }

  // ---------------------------------------------------------------- the configuration line

  function PrintedInts(cfg: Config): map<string, int>
    requires forall k :: k in PRINTED ==> k in cfg.ints
  { map k | k in PRINTED :: cfg.ints[k] }

  /** What of a configuration survives: the settings that are printed. */
  function Surviving(cfg: Config): Config
    requires forall k :: k in PRINTED ==> k in cfg.ints
  { Config(cfg.matchAlgo, DEFAULTS.ints + PrintedInts(cfg)) }

  ghost predicate CleanConfig(cfg: Config) {
    && Solid(cfg.matchAlgo)
    && forall k :: k in PRINTED ==> k in cfg.ints && Int64(cfg.ints[k])
  }

  ghost function Only(ks: seq<string>, m: map<string, int>): map<string, int> { map k | k in ks && k in m :: m[k] }

  lemma {:induction false} IntsBack(n: nat, keys: seq<string>, kv: Fields, ints: map<string, int>, vals: map<string, int>)
    requires forall k :: k in keys ==> (k in kv <==> k in vals)
    requires forall k :: k in keys && k in kv ==> StoLL(kv[k]) == Some(vals[k])
    ensures ApplyInts(n, keys, kv, ints) == Ok(ints + Only(keys, vals))
  {
    hide StoLL, Only;
    if keys == [] {
      OnlyNone(ints, vals);
    } else {
      OnlyFirst(keys, ints, vals);
      IntsBack(n, keys[1..], kv, if keys[0] in kv then ints[keys[0] := vals[keys[0]]] else ints, vals);
    }
  }

  lemma OnlyNone(ints: map<string, int>, vals: map<string, int>)
    ensures ints + Only([], vals) == ints
  {
  }

  lemma OnlyFirst(keys: seq<string>, ints: map<string, int>, vals: map<string, int>)
    requires keys != []
    ensures ints + Only(keys, vals) == (if keys[0] in vals then ints[keys[0] := vals[keys[0]]] else ints) + Only(keys[1..], vals)
  {
  }

  lemma ConfigKeysSolid()
    ensures forall k :: k in ConfigKeys() ==> Solid(k) && '=' !in k
  {
    hide White, Solid;
    AlgoKeys();
    LevelKeys();
    BandKeys();
  }

  ghost predicate KeyOk(k: string) { Solid(k) && '=' !in k }

  lemma KeyIsOk(k: string)
    requires forall c :: c in k ==> !White(c) && c != '='
    ensures KeyOk(k)
  {
    SolidChars(k);
  }

  lemma AlgoKeys()
    ensures KeyOk("match_algo") && KeyOk("tick_size") && KeyOk("lot_size")
  {
    hide KeyOk;
    KeyIsOk("match_algo");
    KeyIsOk("tick_size");
    KeyIsOk("lot_size");
  }

  lemma LevelKeys()
    ensures KeyOk("max_orders") && KeyOk("max_levels") && KeyOk("max_order_ids")
  {
    hide KeyOk;
    KeyIsOk("max_orders");
    KeyIsOk("max_levels");
    KeyIsOk("max_order_ids");
  }

  lemma BandKeys()
    ensures KeyOk("price_band_low") && KeyOk("price_band_high")
  {
    hide KeyOk;
    KeyIsOk("price_band_low");
    KeyIsOk("price_band_high");
  }

  lemma KeysApart()
    ensures forall k :: k in UNPRINTED ==> k !in ConfigKeys()
    ensures forall k :: k in PRINTED ==> k != "match_algo"
    ensures forall k :: k in PRINTED ==> k in DEFAULTS.ints
  {
    assert forall k :: k in UNPRINTED ==> k != [] && (k[0] == 'r' || k[0] == 'd');
    assert forall k :: k in ConfigKeys() ==> k != [] && k[0] != 'r' && k[0] != 'd';
    assert forall k :: k in PRINTED ==> |k| != 10 || k[2] != 't';
    assert "match_algo"[2] == 't';
  }

  lemma ConfigFieldsClean(cfg: Config)
    requires CleanConfig(cfg)
    ensures CleanFields(ConfigFields(cfg)) && Lists(ConfigKeys(), ConfigFields(cfg))
    ensures ConfigFields(cfg)["match_algo"] == cfg.matchAlgo
    ensures forall k :: k in PRINTED ==> StoLL(ConfigFields(cfg)[k]) == Some(cfg.ints[k])
  {
    hide StoLL, IntText, Solid, Int64;
    ConfigKeysSolid();
    KeysApart();
    assert ConfigKeys()[0] == "match_algo";
    assert forall k :: k in ConfigKeys() <==> k == "match_algo" || k in PRINTED;
    hide ConfigKeys;
    forall k | k in PRINTED ensures StoLL(IntText(cfg.ints[k])) == Some(cfg.ints[k]) && Solid(IntText(cfg.ints[k])) {
      IntBack(cfg.ints[k]);
    }
  }

  lemma ConfigApplied(n: nat, cfg: Config)
    requires CleanConfig(cfg)
    ensures ApplyConfig(n, ConfigFields(cfg), DEFAULTS) == Ok(Surviving(cfg))
  {
    hide StoLL, ConfigKeys, ConfigFields, CleanConfig, ApplyInts, CleanFields;
    ConfigFieldsClean(cfg);
    KeysSplit();
    KeysApart();
    PrintedKnown(cfg);
    var kv, vals, ints := ConfigFields(cfg), PrintedInts(cfg), DEFAULTS.ints;
    SettingsBack(n, PRINTED, UNPRINTED, kv, ints, vals);
  }

  lemma PrintedKnown(cfg: Config)
    requires CleanConfig(cfg)
    ensures forall k :: k in PRINTED ==> k in cfg.ints
  {
  }

  lemma KeysSplit()
    ensures forall k :: k in ConfigKeys() <==> k == "match_algo" || k in PRINTED
  {
    assert ConfigKeys()[0] == "match_algo";
  }

  lemma SettingsBack(n: nat, a: seq<string>, b: seq<string>, kv: Fields, ints: map<string, int>, vals: map<string, int>)
    requires forall k :: k in vals <==> k in a
    requires forall k :: k in a ==> k in kv && StoLL(kv[k]) == Some(vals[k])
    requires forall k :: k in b ==> k !in kv
    ensures ApplyInts(n, a + b, kv, ints) == Ok(ints + vals)
  {
    hide StoLL, ApplyInts;
    IntsBack(n, a + b, kv, ints, vals);
    assert Only(a + b, vals) == vals;
  }

  lemma ConfigBack(cfg: Config)
    requires CleanConfig(cfg)
    ensures var line := Line(["CONFIG"] + Pairs(ConfigKeys(), ConfigFields(cfg)));
      ParseLine(1, Journal(DEFAULTS, []), line) == Ok(Journal(Surviving(cfg), [])) && OneLine(line)
  {
    hide Line, ParseLine, ConfigFields, ConfigKeys, ApplyConfig;
    var f, j := ConfigFields(cfg), Journal(DEFAULTS, []);
    ConfigFieldsClean(cfg);
    var ts := ["CONFIG"] + Pairs(ConfigKeys(), f);
    Keywords();
    PairsWords(ConfigKeys(), f);
    ParsePrinted(1, j, ts);
    LinePlain(ts);
    assert ts[1..] == Pairs(ConfigKeys(), f);
    FieldsBack(1, ConfigKeys(), f);
    ConfigApplied(1, cfg);
  }

  // ---------------------------------------------------------------- whole journals

  lemma {:induction false} ParseConcat(n: nat, j: Journal, a: seq<string>, b: seq<string>, j': Journal)
    requires ParseFrom(n, j, a) == Ok(j')
    ensures ParseFrom(n, j, a + b) == ParseFrom(n + |a|, j', b)
    decreases |a|
  {
    hide ParseLine;
    if a == [] {
      assert a + b == b;
    } else {
      assert (a + b)[1..] == a[1..] + b;
      ParseConcat(n + 1, ParseLine(n, j, a[0]).value, a[1..], b, j');
    }
  }

  /** The expectations from the i-th on. */
  lemma {:induction false} ExpectsBack(n: nat, j: Journal, e: Entry, lines: seq<string>, i: nat)
    requires CleanEntry(e) && i <= |e.expects| && |lines| == |e.expects| - i
    requires forall k :: 0 <= k < |lines| ==> IsExpect(e.expects[i + k], lines[k])
    ensures ParseFrom(n, j.(entries := j.entries + [e.(expects := e.expects[..i])]), lines) == Ok(j.(entries := j.entries + [e]))
    ensures forall k :: 0 <= k < |lines| ==> OneLine(lines[k])
    decreases |lines|
  {
    hide ParseLine, IsExpect, OneLine;
    var now := j.(entries := j.entries + [e.(expects := e.expects[..i])]);
    if lines == [] {
      assert e.expects[..i] == e.expects;
    } else {
      ExpectBack(n, now, e.expects[i], lines[0]);
      assert e.expects[..i] + [e.expects[i]] == e.expects[..i+1];
      assert AddExpectation(now.entries, e.expects[i]) == j.entries + [e.(expects := e.expects[..i+1])];
      ExpectsBack(n + 1, j, e, lines[1..], i + 1);
    }
  }

  lemma EntryBack(n: nat, j: Journal, e: Entry, lines: seq<string>)
    requires IsEntry(e, lines) && CleanEntry(e)
    ensures ParseFrom(n, j, lines) == Ok(j.(entries := j.entries + [e]))
    ensures forall k :: 0 <= k < |lines| ==> OneLine(lines[k])
  {
    hide IsAction, IsExpect, CleanEntry;
    ActionBack(n + 1, j, e, lines[1]);
    BlankLine(n, j);
    hide ParseLine, OneLine;
    var rest := lines[2..];
    assert forall k :: 0 <= k < |rest| ==> rest[k] == lines[2 + k];
    ExpectsBack(n + 2, j, e, rest, 0);
    assert e.expects[..0] == [];
    assert lines[1..][1..] == rest;
    assert ParseFrom(n, j, lines) == ParseFrom(n + 1, j, lines[1..]);
  }

  lemma BlankLine(n: nat, j: Journal)
    ensures ParseLine(n, j, "") == Ok(j) && OneLine("")
  {
  }

  lemma {:induction false} EntriesBack(n: nat, j: Journal, es: seq<Entry>, lines: seq<string>)
    requires IsEntries(es, lines) && forall i :: 0 <= i < |es| ==> CleanEntry(es[i])
    ensures ParseFrom(n, j, lines) == Ok(j.(entries := j.entries + es))
    ensures forall k :: 0 <= k < |lines| ==> OneLine(lines[k])
    decreases |es|
  {
    hide IsEntry, CleanEntry, OneLine, ParseLine;
    if es == [] {
      assert j.entries + es == j.entries;
    } else {
      var m := 2 + |es[0].expects|;
      var j1 := j.(entries := j.entries + [es[0]]);
      EntryBack(n, j, es[0], lines[..m]);
      assert lines == lines[..m] + lines[m..];
      ParseConcat(n, j, lines[..m], lines[m..], j1);
      EntriesBack(n + m, j1, es[1..], lines[m..]);
      assert j1.entries + es[1..] == j.entries + es;
    }
  }

  ghost predicate CleanJournal(j: Journal) {
    CleanConfig(j.config) && forall i :: 0 <= i < |j.entries| ==> CleanEntry(j.entries[i])
  }

  /** Printing and parsing gives back every entry, whatever the order of printing, and the printed
      settings; the others take their defaults. */
  lemma PrintedBack(j: Journal, text: string)
    requires Writes(j, text) && CleanJournal(j)
    ensures Parse(text) == Ok(Journal(Surviving(j.config), j.entries))
  {
    hide CleanEntry, IsEntries, OneLine, ParseLine, Line, ConfigKeys, ConfigFields, Text, CleanConfig;
    ConfigFieldsClean(j.config);
    var head := Line(["CONFIG"] + Pairs(ConfigKeys(), ConfigFields(j.config)));
    var lines :| IsEntries(j.entries, lines) && text == Text([head] + lines);
    var j1 := Journal(Surviving(j.config), []);
    ConfigBack(j.config);
    EntriesBack(2, j1, j.entries, lines);
    TextLines([head] + lines);
    assert ([head] + lines)[1..] == lines;
    assert [] + j.entries == j.entries;
  }

  // ---------------------------------------------------------------- only clean journals come back

  lemma {:induction false} TokensAreWords(line: string)
    ensures Words(Tokens(line))
    decreases |line|
  {
    if line != [] {
      if White(line[0]) { TokensAreWords(line[1..]); } else { TokensAreWords(line[WordLen(line)..]); }
    }
  }

  lemma {:induction false} KvClean(n: nat, tokens: seq<string>, acc: Fields)
    requires Words(tokens) && CleanFields(acc)
    ensures ParseKv(n, tokens, acc).Ok? ==> CleanFields(ParseKv(n, tokens, acc).value)
  {
    if tokens != [] {
      var t := tokens[0];
      var eq := Find(t, '=');
      if eq < |t| {
        assert Word(t);
        KvClean(n, tokens[1..], acc[t[..eq] := t[eq+1..]]);
      }
    }
  }

  lemma {:induction false} IntsClean(n: nat, keys: seq<string>, kv: Fields, ints: map<string, int>)
    requires forall k :: k in ints ==> Int64(ints[k])
    ensures var r := ApplyInts(n, keys, kv, ints);
      r.Ok? ==> ints.Keys <= r.value.Keys && forall k :: k in r.value ==> Int64(r.value[k])
  {
    hide Int64;
    if keys != [] {
      if keys[0] in kv {
        StoLLRange(kv[keys[0]]);
        var v := StoLL(kv[keys[0]]);
        hide StoLL;
        if v.Some? { IntsClean(n, keys[1..], kv, ints[keys[0] := v.value]); }
      } else {
        IntsClean(n, keys[1..], kv, ints);
      }
    }
  }

  lemma StoLLRange(s: string)
    ensures StoLL(s).Some? ==> Int64(StoLL(s).value)
  {
  }

  /** What a parse that goes on keeps. */
  ghost predicate Sound(j: Journal) {
    && Solid(j.config.matchAlgo)
    && (forall k :: k in DEFAULTS.ints ==> k in j.config.ints) && (forall k :: k in j.config.ints ==> Int64(j.config.ints[k]))
    && forall i :: 0 <= i < |j.entries| ==> CleanEntry(j.entries[i])
  }

  lemma ConfigSound(n: nat, j: Journal, tokens: seq<string>)
    requires Sound(j) && Words(tokens) && tokens != []
    ensures ParseConfig(n, j, tokens).Ok? ==> Sound(ParseConfig(n, j, tokens).value)
  {
    hide ApplyInts, CleanEntry, Int64, Solid;
    KvClean(n, tokens[1..], map[]);
    var kv := ParseKv(n, tokens[1..], map[]);
    if kv.Ok? { IntsClean(n, PRINTED + UNPRINTED, kv.value, j.config.ints); }
  }

  lemma ActionSound(n: nat, j: Journal, tokens: seq<string>)
    requires Sound(j) && Words(tokens) && tokens != []
    ensures ParseAction(n, j, tokens).Ok? ==> Sound(ParseAction(n, j, tokens).value)
  {
    hide KindOf, ParseKv;
    if |tokens| >= 2 { KvClean(n, tokens[2..], map[]); }
  }

  lemma ExpectSound(n: nat, j: Journal, tokens: seq<string>)
    requires Sound(j) && Words(tokens) && tokens != []
    ensures ParseExpect(n, j, tokens).Ok? ==> Sound(ParseExpect(n, j, tokens).value)
  {
    hide ParseKv, CleanFields, Word;
    if |tokens| >= 2 {
      KvNothing();
      KvClean(n, tokens[2..], map[]);
    }
  }

  lemma KvNothing()
    ensures CleanFields(map[])
  {
  }

  lemma {:induction false} ParseSound(n: nat, j: Journal, lines: seq<string>)
    requires Sound(j)
    ensures ParseFrom(n, j, lines).Ok? ==> Sound(ParseFrom(n, j, lines).value)
    decreases |lines|
  {
    hide Sound, ParseConfig, ParseAction, ParseExpect, Words, Skipped, Chomp, Tokens;
    if lines != [] {
      var tokens := Tokens(Chomp(lines[0]));
      TokensAreWords(Chomp(lines[0]));
      if tokens != [] {
        ConfigSound(n, j, tokens);
        ActionSound(n, j, tokens);
        ExpectSound(n, j, tokens);
      }
      var r := ParseLine(n, j, lines[0]);
      if r.Ok? { ParseSound(n + 1, r.value, lines[1..]); }
    }
  }

  lemma DefaultsSound()
    ensures Sound(Journal(DEFAULTS, []))
  {
    SolidChars("FIFO");
  }

  /** Whatever text is parsed, what comes out could be printed and parsed again. */
  lemma ParsedIsClean(text: string)
    ensures Parse(text).Ok? ==> CleanJournal(Parse(text).value)
  {
    hide CleanEntry, ParseFrom, Solid, Int64;
    DefaultsSound();
    ParseSound(1, Journal(DEFAULTS, []), Lines(text));
    KeysApart();
  }

  /** A journal survives being printed and parsed exactly when its tokens hold no white space, its
      keys no '=', its event types are not empty, its numbers fit, and the settings that are not
      printed have their defaults. */
  lemma RoundTrip(j: Journal, text: string)
    requires Writes(j, text)
    ensures Parse(text) == Ok(j) <==> CleanJournal(j) && j.config == Surviving(j.config)
  {
    hide CleanEntry, CleanConfig, Parse, Surviving;
    if CleanJournal(j) { PrintedBack(j, text); }
    if Parse(text) == Ok(j) { ParsedIsClean(text); }
  }
}
