/**
  The loops of the journal parser (test-harness/journal_parser.cc) and writer
  (test-harness/journal_writer.cc).
 */
module JournalText {
  import opened Types
  import opened Journal
  import opened JournalProofs

  // ---------------------------------------------------------------- the parser

  lemma NewlineStep(cur: string, rest: string)
    requires OneLine(cur)
    ensures Lines(cur + ['\n'] + rest) == [cur] + Lines(rest)
  {
    var s := cur + ['\n'] + rest;
    FindPrefix(cur, '\n', rest);
    assert s[..|cur|] == cur && s[|cur|+1..] == rest;
  }

  lemma LastLine(cur: string)
    requires OneLine(cur)
    ensures Lines(cur) == if cur == [] then [] else [cur]
  {
    assert Find(cur, '\n') == |cur| && cur[..|cur|] == cur;
  }

  /** The getline loop of parse_string. */
  method GetLines(text: string) returns (lines: seq<string>)
    ensures lines == Lines(text)
  {
    hide Lines;
    lines := [];
    var cur := "";
    assert [] + Lines(text) == Lines(text) && cur + text[0..] == text;
    for i := 0 to |text|
      invariant OneLine(cur) && lines + Lines(cur + text[i..]) == Lines(text)
    {
      if text[i] == '\n' {
        assert cur + text[i..] == cur + ['\n'] + text[i+1..];
        NewlineStep(cur, text[i+1..]);
        assert lines + ([cur] + Lines(text[i+1..])) == (lines + [cur]) + Lines(text[i+1..]);
        lines, cur := lines + [cur], "";
        assert cur + text[i+1..] == text[i+1..];
      } else {
        assert cur + text[i..] == (cur + [text[i]]) + text[i+1..];
        cur := cur + [text[i]];
      }
    }
    assert cur + text[|text|..] == cur;
    LastLine(cur);
    if cur != "" { lines := lines + [cur]; }
  }

  lemma WhiteStep(cur: string, c: char, rest: string)
    requires Solid(cur) && White(c)
    ensures Tokens(cur + [c] + rest) == (if cur == [] then [] else [cur]) + Tokens(rest)
  {
    var s := [c] + rest;
    assert s[1..] == rest;
    assert cur + [c] + rest == cur + s;
    if cur != [] { TokenStep(cur, s); }
  }

  lemma LastToken(cur: string)
    requires Solid(cur)
    ensures Tokens(cur) == if cur == [] then [] else [cur]
  {
    if cur != [] {
      TokenStep(cur, []);
      assert cur + [] == cur;
    }
  }

  lemma SolidSnoc(s: string, c: char)
    requires Solid(s) && !White(c)
    ensures Solid(s + [c])
  {
  }

  /** split. */
  method Split(line: string) returns (tokens: seq<string>)
    ensures tokens == Tokens(line)
  {
    hide Tokens, Solid, White;
    tokens := [];
    var cur := "";
    assert [] + Tokens(line) == Tokens(line) && cur + line[0..] == line;
    assert Solid(cur) by { SolidChars(cur); }
    for i := 0 to |line|
      invariant Solid(cur) && tokens + Tokens(cur + line[i..]) == Tokens(line)
    {
      ghost var rest := line[i+1..];
      assert cur + line[i..] == cur + [line[i]] + rest;
      if White(line[i]) {
        WhiteStep(cur, line[i], rest);
        ghost var done := if cur == [] then [] else [cur];
        assert tokens + (done + Tokens(rest)) == (tokens + done) + Tokens(rest);
        if cur != "" { tokens := tokens + [cur]; }
        cur := "";
        SolidChars(cur);
        assert cur + rest == rest;
      } else {
        SolidSnoc(cur, line[i]);
        cur := cur + [line[i]];
      }
    }
    assert cur + line[|line|..] == cur;
    LastToken(cur);
    if cur != "" { tokens := tokens + [cur]; }
  }

  /** parse_kv_tokens. */
  method ParseKvTokens(n: nat, tokens: seq<string>, offset: nat) returns (r: Result<Fields>)
    requires offset <= |tokens|
    ensures r == ParseKv(n, tokens[offset..], map[])
  {
    var out: Fields := map[];
    for i := offset to |tokens|
      invariant ParseKv(n, tokens[i..], out) == ParseKv(n, tokens[offset..], map[])
    {
      var t := tokens[i];
      assert tokens[i..][0] == t && tokens[i..][1..] == tokens[i+1..];
      var eq := Find(t, '=');
      if eq == |t| { return Err(n, Malformed(t)); }
      out := out[t[..eq] := t[eq+1..]];
    }
    return Ok(out);
  }

  /** One turn of the line loop. */
  method ParseOne(n: nat, j: Journal, raw: string) returns (r: Result<Journal>)
    ensures r == ParseLine(n, j, raw)
  {
    hide ParseKv, ApplyConfig, KindOf, Tokens, Skipped;
    var line := Chomp(raw);
    if Skipped(line) { return Ok(j); }
    var tokens := Split(line);
    if tokens == [] { return Ok(j); }
    if tokens[0] == "CONFIG" {
      var kv := ParseKvTokens(n, tokens, 1);
      if kv.Err? { return Err(kv.line, kv.why); }
      var cfg := ApplyConfig(n, kv.value, j.config);
      return if cfg.Ok? then Ok(j.(config := cfg.value)) else Err(cfg.line, cfg.why);
    } else if tokens[0] == "ACTION" {
      if |tokens| < 2 { return Err(n, MissingType); }
      var kind := KindOf(tokens[1]);
      if kind.None? { return Err(n, UnknownType(tokens[1])); }
      var kv := ParseKvTokens(n, tokens, 2);
      return if kv.Ok? then Ok(j.(entries := j.entries + [Entry(kind.value, kv.value, [])])) else Err(kv.line, kv.why);
    } else if tokens[0] == "EXPECT" {
      if j.entries == [] { return Err(n, TooEarly); }
      if |tokens| < 2 { return Err(n, MissingEvent); }
      var kv := ParseKvTokens(n, tokens, 2);
      return if kv.Ok? then Ok(j.(entries := AddExpectation(j.entries, Expectation(tokens[1], kv.value)))) else Err(kv.line, kv.why);
    }
    return Err(n, UnknownKeyword(tokens[0]));
  }

  /** parse_string and parse_lines. */
  method ParseText(text: string) returns (r: Result<Journal>)
    ensures r == Parse(text)
    ensures r.Ok? ==> CleanJournal(r.value)
  {
    hide ParseLine, CleanJournal;
    ParsedIsClean(text);
    var lines := GetLines(text);
    var j := Journal(DEFAULTS, []);
    for i := 0 to |lines|
      invariant ParseFrom(i + 1, j, lines[i..]) == Parse(text)
    {
      assert lines[i..][0] == lines[i] && lines[i..][1..] == lines[i+1..];
      var next := ParseOne(i + 1, j, lines[i]);
      if next.Err? { return Err(next.line, next.why); }
      j := next.value;
    }
    return Ok(j);
  }

  // ---------------------------------------------------------------- the writer

  lemma {:induction false} TailSnoc(ts: seq<string>, t: string)
    ensures Tail(ts + [t]) == Tail(ts) + " " + t
  {
    if ts == [] {
      assert [t][1..] == [] && ts + [t] == [t];
    } else {
      assert (ts + [t])[1..] == ts[1..] + [t];
      TailSnoc(ts[1..], t);
    }
  }

  lemma LineSnoc(ts: seq<string>, t: string)
    requires ts != []
    ensures Line(ts + [t]) == Line(ts) + " " + t
  {
    assert (ts + [t])[1..] == ts[1..] + [t];
    TailSnoc(ts[1..], t);
  }

  lemma {:induction false} PairsSnoc(ks: seq<string>, k: string, f: Fields)
    requires (forall x :: x in ks ==> x in f) && k in f
    ensures Pairs(ks + [k], f) == Pairs(ks, f) + [Pair(k, f[k])]
  {
    if ks == [] {
      assert ks + [k] == [k] && [k][1..] == [];
    } else {
      assert (ks + [k])[1..] == ks[1..] + [k];
      PairsSnoc(ks[1..], k, f);
    }
  }

  /** Append one field to a line. */
  method Emit(line: string, ghost start: seq<string>, ghost ks: seq<string>, k: string, f: Fields) returns (r: string)
    requires start != [] && (forall x :: x in ks ==> x in f) && k in f && line == Line(start + Pairs(ks, f))
    ensures r == Line(start + Pairs(ks + [k], f))
  {
    r := line + " " + (k + "=" + f[k]);
    PairsSnoc(ks, k, f);
    assert start + Pairs(ks + [k], f) == (start + Pairs(ks, f)) + [Pair(k, f[k])];
    LineSnoc(start + Pairs(ks, f), Pair(k, f[k]));
  }

  lemma OnceSnoc(ks: seq<string>, k: string)
    requires Once(ks) && k !in ks
    ensures Once(ks + [k])
  {
  }

  /** The known fields the entry has, in the writer's order. */
  method KnownPart(e: Entry) returns (line: string, ghost ks: seq<string>)
    ensures ks == Present(Known(e.kind), e.fields) && Once(ks) && (forall k :: k in ks <==> k in Known(e.kind) && k in e.fields)
    ensures line == Line(["ACTION", Name(e.kind)] + Pairs(ks, e.fields))
  {
    hide Line, Pairs, Known, Name;
    var known := Known(e.kind);
    KnownOnce(e.kind);
    hide Once;
    ks := [];
    line := "ACTION " + Name(e.kind);
    StartLine(e);
    assert known[..|known|] == known;
    NoneOnce();
    for i := 0 to |known|
      invariant Once(ks) && ks == Present(known[..i], e.fields) && (forall k :: k in ks <==> k in known[..i] && k in e.fields)
      invariant line == Line(["ACTION", Name(e.kind)] + Pairs(ks, e.fields))
    {
      assert known[..i+1] == known[..i] + [known[i]] && known[..i+1][..i] == known[..i];
      if known[i] in e.fields {
        NotBefore(known, i);
        line := Emit(line, ["ACTION", Name(e.kind)], ks, known[i], e.fields);
        OnceSnoc(ks, known[i]);
        ks := ks + [known[i]];
      }
    }
  }

  lemma NoneOnce()
    ensures Once([])
  {
  }

  lemma NotBefore(ks: seq<string>, i: nat)
    requires Once(ks) && i < |ks|
    ensures ks[i] !in ks[..i]
  {
  }

  /** action_to_action_line. */
  method ActionToLine(e: Entry) returns (line: string)
    ensures IsAction(e, line)
  {
    hide Line, Pairs, Known, Name, Once, Present;
    var known := Known(e.kind);
    ghost var start := ["ACTION", Name(e.kind)];
    ghost var ks;
    line, ks := KnownPart(e);
    ghost var first := ks;
    var rest := e.fields.Keys;
    while rest != {}
      invariant rest <= e.fields.Keys && first <= ks && Once(ks)
      invariant forall k :: k in ks <==> k in e.fields && (k in known || k !in rest)
      invariant line == Line(start + Pairs(ks, e.fields))
      decreases |rest|
    {
      var k :| k in rest;
      rest := rest - {k};
      if k !in known {
        line := Emit(line, start, ks, k, e.fields);
        OnceSnoc(ks, k);
        ks := ks + [k];
      }
    }
  }

  lemma StartLine(e: Entry)
    ensures "ACTION " + Name(e.kind) == Line(["ACTION", Name(e.kind)] + Pairs([], e.fields))
  {
    hide Name;
    var ts := ["ACTION", Name(e.kind)];
    assert ts + Pairs([], e.fields) == ts && ts[1..] == [Name(e.kind)] && ts[1..][1..] == [];
    assert Tail([Name(e.kind)]) == " " + Name(e.kind) && "ACTION " == "ACTION" + " ";
  }

  /** The expectation loop of to_string. */
  method ExpectToLine(x: Expectation) returns (line: string)
    ensures IsExpect(x, line)
  {
    hide Line, Pairs;
    ghost var start := ["EXPECT", x.event];
    ghost var ks: seq<string> := [];
    line := "EXPECT " + x.event;
    StartExpect(x);
    var rest := x.fields.Keys;
    while rest != {}
      invariant Once(ks) && rest <= x.fields.Keys && forall k :: k in ks <==> k in x.fields && k !in rest
      invariant line == Line(start + Pairs(ks, x.fields))
      decreases |rest|
    {
      var k :| k in rest;
      rest := rest - {k};
      line := Emit(line, start, ks, k, x.fields);
      ks := ks + [k];
    }
  }

  lemma StartExpect(x: Expectation)
    ensures "EXPECT " + x.event == Line(["EXPECT", x.event] + Pairs([], x.fields))
  {
    var ts := ["EXPECT", x.event];
    assert ts + Pairs([], x.fields) == ts && ts[1..] == [x.event] && ts[1..][1..] == [];
    assert Tail([x.event]) == " " + x.event && "EXPECT " == "EXPECT" + " ";
  }

  /** config_to_config_lines. */
  method ConfigToLine(cfg: Config) returns (line: string)
    requires forall k :: k in PRINTED ==> k in cfg.ints
    ensures line == Line(["CONFIG"] + Pairs(ConfigKeys(), ConfigFields(cfg)))
  {
    hide Line, Pairs, ConfigFields, ConfigKeys;
    var keys, f := ConfigKeys(), ConfigFields(cfg);
    ConfigDomain(cfg);
    line := "CONFIG";
    StartConfig(f);
    assert keys[..|keys|] == keys;
    for i := 0 to |keys|
      invariant line == Line(["CONFIG"] + Pairs(keys[..i], f))
    {
      assert keys[..i+1] == keys[..i] + [keys[i]];
      line := Emit(line, ["CONFIG"], keys[..i], keys[i], f);
    }
  }

  lemma ConfigDomain(cfg: Config)
    requires forall k :: k in PRINTED ==> k in cfg.ints
    ensures forall k :: k in ConfigKeys() ==> k in ConfigFields(cfg)
  {
  }

  lemma StartConfig(f: Fields)
    ensures "CONFIG" == Line(["CONFIG"] + Pairs([], f))
  {
    assert ["CONFIG"] + Pairs([], f) == ["CONFIG"] && ["CONFIG"][1..] == [];
  }

  lemma {:induction false} TextSnoc(ls: seq<string>, l: string)
    ensures Text(ls + [l]) == Text(ls) + l + "\n"
  {
    if ls == [] {
      assert ls + [l] == [l] && [l][1..] == [];
    } else {
      assert (ls + [l])[1..] == ls[1..] + [l];
      TextSnoc(ls[1..], l);
    }
  }

  lemma {:induction false} EntriesSnoc(es: seq<Entry>, ls: seq<string>, e: Entry, more: seq<string>)
    requires IsEntries(es, ls) && IsEntry(e, more)
    ensures IsEntries(es + [e], ls + more)
    decreases |es|
  {
    hide IsEntry;
    if es == [] {
      assert EntryLength(e, more);
      assert es + [e] == [e] && ls + more == more && [e][1..] == [];
      assert more[..|more|] == more && more[|more|..] == [];
    } else {
      var n := 2 + |es[0].expects|;
      assert (es + [e])[1..] == es[1..] + [e];
      assert (ls + more)[..n] == ls[..n] && (ls + more)[n..] == ls[n..] + more;
      EntriesSnoc(es[1..], ls[n..], e, more);
    }
  }

  ghost predicate EntryLength(e: Entry, lines: seq<string>)
    requires IsEntry(e, lines)
    ensures EntryLength(e, lines)
  { |lines| == 2 + |e.expects| }

  /** to_string. */
  method ToText(j: Journal) returns (text: string)
    requires forall k :: k in PRINTED ==> k in j.config.ints
    ensures Writes(j, text)
  {
    hide IsEntry, IsEntries, Text, Line, ConfigFields, ConfigKeys;
    ConfigDomain(j.config);
    var head := ConfigToLine(j.config);
    ghost var lines: seq<string> := [];
    text := head + "\n";
    StartText(head);
    for i := 0 to |j.entries|
      invariant IsEntries(j.entries[..i], lines) && text == Text([head] + lines)
    {
      ghost var more;
      text, more := EntryToText(text, [head] + lines, j.entries[i]);
      EntriesSnoc(j.entries[..i], lines, j.entries[i], more);
      assert j.entries[..i+1] == j.entries[..i] + [j.entries[i]];
      assert ([head] + lines) + more == [head] + (lines + more);
      lines := lines + more;
    }
    assert j.entries[..|j.entries|] == j.entries;
  }

  lemma StartText(head: string)
    ensures head + "\n" == Text([head] + []) && IsEntries([], [])
  {
    assert [head] + [] == [head] && [head][1..] == [];
  }

  method EntryToText(before: string, ghost ls: seq<string>, e: Entry) returns (text: string, ghost more: seq<string>)
    requires before == Text(ls)
    ensures IsEntry(e, more) && text == Text(ls + more)
  {
    hide Text, IsAction, IsExpect;
    var action := ActionToLine(e);
    text := before + "" + "\n";
    TextSnoc(ls, "");
    text := text + action + "\n";
    TextSnoc(ls + [""], action);
    more := ["", action];
    assert ls + [""] + [action] == ls + more;
    for i := 0 to |e.expects|
      invariant text == Text(ls + more) && |more| == 2 + i && more[0] == "" && IsAction(e, more[1])
      invariant forall k :: 0 <= k < i ==> IsExpect(e.expects[k], more[2 + k])
    {
      var line := ExpectToLine(e.expects[i]);
      text := text + line + "\n";
      TextSnoc(ls + more, line);
      assert ls + (more + [line]) == (ls + more) + [line];
      more := more + [line];
    }
  }
}
