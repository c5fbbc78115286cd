/**
  Journals (test-harness/journal_parser.cc and journal_writer.cc): a line-oriented text of
  configuration, actions and the events each action is to cause.  The parser as functions over
  text; module JournalText has the loops that compute them and the writer, module JournalProofs
  what the two make of each other.
 */
module Journal {
  import opened Types

  // ---------------------------------------------------------------- text

  /** What the stream extraction operator skips. */
  predicate White(c: char) { c == ' ' || c == '\t' || c == '\n' || c as int == 11 || c as int == 12 || c == '\r' }

  ghost predicate Solid(s: string) { forall i :: 0 <= i < |s| ==> !White(s[i]) }

  ghost predicate Word(s: string) { s != [] && Solid(s) }

  /** Position of the first c, or the length. */
  function Find(s: string, c: char): (n: nat)
    ensures n <= |s| && (forall i :: 0 <= i < n ==> s[i] != c) && (n < |s| ==> s[n] == c)
  {
    if s == [] || s[0] == c then 0 else 1 + Find(s[1..], c)
  }

  /** Position of the first white character, or the length. */
  function WordLen(s: string): (n: nat)
    ensures n <= |s| && (forall i :: 0 <= i < n ==> !White(s[i])) && (n < |s| ==> White(s[n]))
  {
    if s == [] || White(s[0]) then 0 else 1 + WordLen(s[1..])
  }

  /** std::getline until the end: a final newline ends the last line and starts none. */
  function Lines(text: string): seq<string> {
    if text == [] then []
    else
      var n := Find(text, '\n');
      [text[..n]] + if n < |text| then Lines(text[n+1..]) else []
  }

  /** JournalParser::split. */
  function Tokens(line: string): seq<string>
    decreases |line|
  {
    if line == [] then []
    else if White(line[0]) then Tokens(line[1..])
    else [line[..WordLen(line)]] + Tokens(line[WordLen(line)..])
  }

  function Chomp(line: string): string {
    if line != [] && line[|line| - 1] == '\r' then line[..|line| - 1] else line
  }

  /** Blank lines and comments. */
  predicate Skipped(line: string) {
    if line == [] then true
    else if line[0] == ' ' || line[0] == '\t' then Skipped(line[1..])
    else line[0] == '#'
  }

  // ---------------------------------------------------------------- numbers

  predicate IsDigit(c: char) { '0' <= c <= '9' }

  function DigitsLen(s: string): (n: nat)
    ensures n <= |s| && (forall i :: 0 <= i < n ==> IsDigit(s[i])) && (n < |s| ==> !IsDigit(s[n]))
  {
    if s == [] || !IsDigit(s[0]) then 0 else 1 + DigitsLen(s[1..])
  }

  function Value(ds: string): int {
    if ds == [] then 0 else 10 * Value(ds[..|ds| - 1]) + (ds[|ds| - 1] as int - '0' as int)
  }

  predicate Int64(n: int) { -0x8000_0000_0000_0000 <= n < 0x8000_0000_0000_0000 }

  function SkipWhite(s: string): string
    decreases |s|
  {
    if s == [] || !White(s[0]) then s else SkipWhite(s[1..])
  }

  /** std::stoll: white space, a sign, digits; what follows the digits is ignored.  None stands for
      its two exceptions, no digits and out of range. */
  function StoLL(s: string): Option<int> {
    var t := SkipWhite(s);
    var signed := t != [] && (t[0] == '-' || t[0] == '+');
    var u := if signed then t[1..] else t;
    var ds := u[..DigitsLen(u)];
    var n := if signed && t[0] == '-' then -Value(ds) else Value(ds);
    if ds == [] || !Int64(n) then None else Some(n)
  }

  // ---------------------------------------------------------------- entries

  type Fields = map<string, string>

  datatype Kind =
    | NewOrder | Cancel | Modify | TriggerExpiry | SetSessionState | ExecuteAuction | PublishIndicative
    | MassCancel | MassCancelAll | RestoreOrder | BustTrade
    | ILink3NewOrder | ILink3Cancel | ILink3Replace | ILink3MassCancel
    | IceFixNewOrder | IceFixCancel | IceFixReplace | IceFixMassCancel
    | KrxFixNewOrder | KrxFixCancel | KrxFixReplace
    | SessionStart | SessionOpen | SessionClose

  datatype Expectation = Expectation(event: string, fields: Fields)

  datatype Entry = Entry(kind: Kind, fields: Fields, expects: seq<Expectation>)

  /** The integer settings are kept by name. */
  datatype Config = Config(matchAlgo: string, ints: map<string, int>)

  datatype Journal = Journal(config: Config, entries: seq<Entry>)

  /** Settings the writer prints, and those only the parser knows. */
  const PRINTED: seq<string> :=
    ["tick_size", "lot_size", "max_orders", "max_levels", "max_order_ids", "price_band_low", "price_band_high"]
  const UNPRINTED: seq<string> := ["rate_limit", "rate_interval", "daily_limit_high", "daily_limit_low"]

  const DEFAULTS := Config("FIFO", map[
    "tick_size" := 100, "lot_size" := 10000, "max_orders" := 1000, "max_levels" := 100, "max_order_ids" := 10000,
    "price_band_low" := 0, "price_band_high" := 0,
    "rate_limit" := 0, "rate_interval" := 0, "daily_limit_high" := 0, "daily_limit_low" := 0])

  datatype Why =
    | MissingType | UnknownType(name: string) | TooEarly | MissingEvent | UnknownKeyword(word: string)
    | Malformed(token: string) | BadNumber(key: string)

  datatype Result<T> = Ok(value: T) | Err(line: nat, why: Why)

  function Name(k: Kind): string {
    match k
    case NewOrder => "NEW_ORDER" case Cancel => "CANCEL" case Modify => "MODIFY"
    case TriggerExpiry => "TRIGGER_EXPIRY" case SetSessionState => "SET_SESSION_STATE"
    case ExecuteAuction => "EXECUTE_AUCTION" case PublishIndicative => "PUBLISH_INDICATIVE"
    case MassCancel => "MASS_CANCEL" case MassCancelAll => "MASS_CANCEL_ALL"
    case RestoreOrder => "RESTORE_ORDER" case BustTrade => "BUST_TRADE"
    case ILink3NewOrder => "ILINK3_NEW_ORDER" case ILink3Cancel => "ILINK3_CANCEL"
    case ILink3Replace => "ILINK3_REPLACE" case ILink3MassCancel => "ILINK3_MASS_CANCEL"
    case IceFixNewOrder => "ICE_FIX_NEW_ORDER" case IceFixCancel => "ICE_FIX_CANCEL"
    case IceFixReplace => "ICE_FIX_REPLACE" case IceFixMassCancel => "ICE_FIX_MASS_CANCEL"
    case KrxFixNewOrder => "KRX_FIX_NEW_ORDER" case KrxFixCancel => "KRX_FIX_CANCEL"
    case KrxFixReplace => "KRX_FIX_REPLACE"
    case SessionStart => "SESSION_START" case SessionOpen => "SESSION_OPEN" case SessionClose => "SESSION_CLOSE"
  }

  /** The kinds in the order the parser compares their names. */
  const KINDS: seq<Kind> := [
    NewOrder, Cancel, Modify, TriggerExpiry, SetSessionState, ExecuteAuction, PublishIndicative, MassCancel, MassCancelAll,
    RestoreOrder, BustTrade, ILink3NewOrder, ILink3Cancel, ILink3Replace, ILink3MassCancel, IceFixNewOrder, IceFixCancel,
    IceFixReplace, IceFixMassCancel, KrxFixNewOrder, KrxFixCancel, KrxFixReplace, SessionStart, SessionOpen, SessionClose]

  function FirstNamed(s: string, ks: seq<Kind>): Option<Kind> {
    if ks == [] then None else if s == Name(ks[0]) then Some(ks[0]) else FirstNamed(s, ks[1..])
  }

  function KindOf(s: string): Option<Kind> { FirstNamed(s, KINDS) }

  /** The fields the writer knows by name. */
  datatype Field =
    | FTs | FClOrdId | FAccountId | FSide | FPrice | FQty | FType
    | FTif | FStopPrice | FGtdExpiry | FOrdId | FNewPrice | FNewQty | FState
    | FReferencePrice | FFilledQty | FRemainingQty | FDisplayQty | FTotalQty | FTradeId | FInstrument
    | FAccount | FOrigClOrdId | FOriginatorUserId | FAccountCode | FMemo | FProgramTrading | FInvestorType
    | FBoardId

  function FieldName(f: Field): string {
    match f
    case FTs => "ts" case FClOrdId => "cl_ord_id" case FAccountId => "account_id"
    case FSide => "side" case FPrice => "price" case FQty => "qty"
    case FType => "type" case FTif => "tif" case FStopPrice => "stop_price"
    case FGtdExpiry => "gtd_expiry" case FOrdId => "ord_id" case FNewPrice => "new_price"
    case FNewQty => "new_qty" case FState => "state" case FReferencePrice => "reference_price"
    case FFilledQty => "filled_qty" case FRemainingQty => "remaining_qty" case FDisplayQty => "display_qty"
    case FTotalQty => "total_qty" case FTradeId => "trade_id" case FInstrument => "instrument"
    case FAccount => "account" case FOrigClOrdId => "orig_cl_ord_id" case FOriginatorUserId => "originator_user_id"
    case FAccountCode => "account_code" case FMemo => "memo" case FProgramTrading => "program_trading"
    case FInvestorType => "investor_type" case FBoardId => "board_id"
  }

  /** The fields the writer puts first, in its order. */
  function KnownFields(k: Kind): seq<Field> {
    match k
    case NewOrder => [FTs, FClOrdId, FAccountId, FSide, FPrice, FQty, FType, FTif, FStopPrice, FGtdExpiry]
    case Cancel => [FTs, FOrdId]
    case Modify => [FTs, FOrdId, FClOrdId, FNewPrice, FNewQty]
    case TriggerExpiry => [FTs, FTif]
    case SetSessionState => [FTs, FState]
    case ExecuteAuction => [FTs, FReferencePrice]
    case PublishIndicative => [FTs, FReferencePrice]
    case MassCancel => [FTs, FAccountId]
    case MassCancelAll => [FTs]
    case RestoreOrder =>
      [FTs, FOrdId, FClOrdId, FAccountId, FSide, FPrice, FQty,
       FFilledQty, FRemainingQty, FType, FTif, FDisplayQty, FTotalQty]
    case BustTrade => [FTs, FTradeId]
    case ILink3NewOrder =>
      [FTs, FInstrument, FClOrdId, FAccount, FSide, FPrice, FQty, FType, FTif, FDisplayQty, FStopPrice]
    case ILink3Cancel => [FTs, FInstrument, FClOrdId, FOrigClOrdId]
    case ILink3Replace => [FTs, FInstrument, FClOrdId, FOrigClOrdId, FPrice, FQty]
    case ILink3MassCancel => [FTs, FInstrument, FAccount]
    case IceFixNewOrder =>
      [FTs, FInstrument, FClOrdId, FAccount, FSide, FPrice, FQty, FType, FTif, FDisplayQty,
       FOriginatorUserId, FAccountCode, FMemo]
    case IceFixCancel => [FTs, FInstrument, FClOrdId, FOrigClOrdId, FSide]
    case IceFixReplace => [FTs, FInstrument, FClOrdId, FOrigClOrdId, FPrice, FQty, FSide]
    case IceFixMassCancel => [FTs, FInstrument, FAccount]
    case KrxFixNewOrder =>
      [FTs, FInstrument, FClOrdId, FAccount, FSide, FPrice, FQty, FType, FTif, FDisplayQty,
       FProgramTrading, FInvestorType, FBoardId]
    case KrxFixCancel => [FTs, FInstrument, FClOrdId, FOrigClOrdId, FSide]
    case KrxFixReplace => [FTs, FInstrument, FClOrdId, FOrigClOrdId, FPrice, FQty, FSide]
    case SessionStart => [FTs, FState]
    case SessionOpen => [FTs]
    case SessionClose => [FTs]
  }

  function Known(k: Kind): seq<string> {
    seq(|KnownFields(k)|, i requires 0 <= i < |KnownFields(k)| => FieldName(KnownFields(k)[i]))
  }

  // ---------------------------------------------------------------- parsing

  /** parse_kv_tokens: the first '=' separates; a later token overrides an earlier one. */
  function ParseKv(line: nat, tokens: seq<string>, acc: Fields): Result<Fields> {
    if tokens == [] then Ok(acc)
    else
      var t := tokens[0];
      var eq := Find(t, '=');
      if eq == |t| then Err(line, Malformed(t))
      else ParseKv(line, tokens[1..], acc[t[..eq] := t[eq+1..]])
  }

  function ApplyInts(line: nat, keys: seq<string>, kv: Fields, ints: map<string, int>): Result<map<string, int>> {
    if keys == [] then Ok(ints)
    else if keys[0] !in kv then ApplyInts(line, keys[1..], kv, ints)
    else
      match StoLL(kv[keys[0]])
      case None => Err(line, BadNumber(keys[0]))
      case Some(n) => ApplyInts(line, keys[1..], kv, ints[keys[0] := n])
  }

  /** apply_config. */
  function ApplyConfig(line: nat, kv: Fields, cfg: Config): Result<Config> {
    var algo := if "match_algo" in kv then kv["match_algo"] else cfg.matchAlgo;
    match ApplyInts(line, PRINTED + UNPRINTED, kv, cfg.ints)
    case Ok(ints) => Ok(Config(algo, ints))
    case Err(l, w) => Err(l, w)
  }

  function ParseConfig(n: nat, j: Journal, tokens: seq<string>): Result<Journal>
    requires tokens != []
  {
    match ParseKv(n, tokens[1..], map[])
    case Err(l, w) => Err(l, w)
    case Ok(kv) =>
      match ApplyConfig(n, kv, j.config)
      case Ok(cfg) => Ok(j.(config := cfg))
      case Err(l, w) => Err(l, w)
  }

  function ParseAction(n: nat, j: Journal, tokens: seq<string>): Result<Journal>
    requires tokens != []
  {
    if |tokens| < 2 then Err(n, MissingType)
    else
      match KindOf(tokens[1])
      case None => Err(n, UnknownType(tokens[1]))
      case Some(kind) =>
        match ParseKv(n, tokens[2..], map[])
        case Ok(fields) => Ok(j.(entries := j.entries + [Entry(kind, fields, [])]))
        case Err(l, w) => Err(l, w)
  }

  /** An expectation goes to the last action. */
  function AddExpectation(entries: seq<Entry>, x: Expectation): seq<Entry>
    requires entries != []
  {
    var last := entries[|entries| - 1];
    entries[|entries| - 1 := last.(expects := last.expects + [x])]
  }

  function ParseExpect(n: nat, j: Journal, tokens: seq<string>): Result<Journal>
    requires tokens != []
  {
    if j.entries == [] then Err(n, TooEarly)
    else if |tokens| < 2 then Err(n, MissingEvent)
    else
      match ParseKv(n, tokens[2..], map[])
      case Ok(fields) => Ok(j.(entries := AddExpectation(j.entries, Expectation(tokens[1], fields))))
      case Err(l, w) => Err(l, w)
  }

  function ParseLine(n: nat, j: Journal, raw: string): Result<Journal> {
    var line := Chomp(raw);
    var tokens := Tokens(line);
    if Skipped(line) || tokens == [] then Ok(j)
    else if tokens[0] == "CONFIG" then ParseConfig(n, j, tokens)
    else if tokens[0] == "ACTION" then ParseAction(n, j, tokens)
    else if tokens[0] == "EXPECT" then ParseExpect(n, j, tokens)
    else Err(n, UnknownKeyword(tokens[0]))
  }

  function ParseFrom(n: nat, j: Journal, lines: seq<string>): Result<Journal>
    decreases |lines|
  {
    if lines == [] then Ok(j)
    else
      match ParseLine(n, j, lines[0])
      case Ok(j') => ParseFrom(n + 1, j', lines[1..])
      case Err(l, w) => Err(l, w)
  }

  /** parse_string. */
  function Parse(text: string): Result<Journal> { ParseFrom(1, Journal(DEFAULTS, []), Lines(text)) }

  // ---------------------------------------------------------------- printed forms

  function Digits(n: nat): string {
    if n < 10 then ['0' + n as char] else Digits(n / 10) + ['0' + (n % 10) as char]
  }

  function IntText(n: int): string { if n < 0 then "-" + Digits(-n) else Digits(n) }

  function Pair(k: string, v: string): string { k + "=" + v }

  function Pairs(ks: seq<string>, f: Fields): seq<string>
    requires forall k :: k in ks ==> k in f
  {
    if ks == [] then [] else [Pair(ks[0], f[ks[0]])] + Pairs(ks[1..], f)
  }

  /** Tokens each after a blank, and a line of tokens. */
  function Tail(ts: seq<string>): string { if ts == [] then "" else " " + ts[0] + Tail(ts[1..]) }

  function Line(ts: seq<string>): string { if ts == [] then "" else ts[0] + Tail(ts[1..]) }

  function Text(lines: seq<string>): string { if lines == [] then "" else lines[0] + "\n" + Text(lines[1..]) }

  ghost predicate Once(ks: seq<string>) { forall i, j :: 0 <= i < j < |ks| ==> ks[i] != ks[j] }

  /** An order of printing, every field once: the map's iteration order is not specified. */
  ghost predicate Lists(ks: seq<string>, f: Fields) { Once(ks) && forall k :: k in ks <==> k in f }

  /** Those of ks that are fields, in the order of ks. */
  function Present(ks: seq<string>, f: Fields): seq<string> {
    if ks == [] then []
    else Present(ks[..|ks| - 1], f) + if ks[|ks| - 1] in f then [ks[|ks| - 1]] else []
  }

  /** Known fields first, in their fixed order, then the others. */
  ghost predicate IsAction(e: Entry, line: string) {
    exists ks :: Lists(ks, e.fields) && Present(Known(e.kind), e.fields) <= ks &&
      line == Line(["ACTION", Name(e.kind)] + Pairs(ks, e.fields))
  }

  ghost predicate IsExpect(x: Expectation, line: string) {
    exists ks :: Lists(ks, x.fields) && line == Line(["EXPECT", x.event] + Pairs(ks, x.fields))
  }

  /** The lines of an entry: a blank one, the action, the expectations. */
  ghost predicate IsEntry(e: Entry, lines: seq<string>) {
    && |lines| == 2 + |e.expects| && lines[0] == "" && IsAction(e, lines[1])
    && forall i :: 0 <= i < |e.expects| ==> IsExpect(e.expects[i], lines[2 + i])
  }

  ghost predicate IsEntries(es: seq<Entry>, lines: seq<string>) {
    if es == [] then lines == []
    else
      var n := 2 + |es[0].expects|;
      n <= |lines| && IsEntry(es[0], lines[..n]) && IsEntries(es[1..], lines[n..])
  }

  function ConfigKeys(): seq<string> { ["match_algo"] + PRINTED }

  function ConfigFields(cfg: Config): Fields
    requires forall k :: k in PRINTED ==> k in cfg.ints
  {
    map k | k in ConfigKeys() :: if k == "match_algo" then cfg.matchAlgo else if k in cfg.ints then IntText(cfg.ints[k]) else ""
  }

  /** A text the writer may produce for a journal. */
  ghost predicate Writes(j: Journal, text: string) {
    && (forall k :: k in PRINTED ==> k in j.config.ints)
    && exists lines :: IsEntries(j.entries, lines) &&
         text == Text([Line(["CONFIG"] + Pairs(ConfigKeys(), ConfigFields(j.config)))] + lines)
  }
}
