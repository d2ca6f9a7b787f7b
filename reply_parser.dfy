/**
 * The INI-like reply of the fiscal gateway, as `enviar` reads it: the text is cut at
 * every line end (`\n` or `\r\n`), each line is trimmed, `[Name]` opens a section
 * (and empties it), `key=value` stores a trimmed value (or null when empty) in the
 * current section, or at the top level while no section (or one named `root`) is
 * open, and any other line is skipped.
 */
module ReplyParser {
  import opened Wrappers
  import opened JsText

  /** `s.split('\n')`: the pieces between line feeds, at least one. */
  function SplitLines(s: string): (pieces: seq<string>)
    ensures |pieces| >= 1
    ensures forall k :: 0 <= k < |pieces| ==> '\n' !in pieces[k]
  {
    if |s| == 0 then [""]
    else
      var rest := SplitLines(s[1..]);
      if s[0] == '\n' then [""] + rest
      else
        assert forall k :: 1 <= k < |rest| ==> rest[k] == rest[1..][k - 1];
        [[s[0]] + rest[0]] + rest[1..]
  }

  /** `pieces.join('\n')`. */
  function JoinLines(pieces: seq<string>): string
    requires |pieces| >= 1
  {
    if |pieces| == 1 then pieces[0] else pieces[0] + "\n" + JoinLines(pieces[1..])
  }

  /** Joining the pieces back with line feeds gives the text that was split. */
  lemma {:induction false} SplitThenJoin(s: string)
    ensures JoinLines(SplitLines(s)) == s
  {
    if |s| > 0 {
      SplitThenJoin(s[1..]);
      var rest := SplitLines(s[1..]);
      if s[0] == '\n' {
        assert SplitLines(s)[1..] == rest;
      } else {
        var p := SplitLines(s);
        assert p[0] == [s[0]] + rest[0];
        if |rest| == 1 {
          assert JoinLines(p) == [s[0]] + rest[0];
        } else {
          assert p[1..] == rest[1..];
          assert JoinLines(p) == [s[0]] + rest[0] + "\n" + JoinLines(rest[1..]);
        }
        assert s == [s[0]] + s[1..];
      }
    }
  }

  /** Splitting a join of pieces without line feeds gives the pieces back. */
  lemma {:induction false} JoinThenSplit(pieces: seq<string>)
    requires |pieces| >= 1
    requires forall k :: 0 <= k < |pieces| ==> '\n' !in pieces[k]
    ensures SplitLines(JoinLines(pieces)) == pieces
  {
    if |pieces| == 1 {
      NoBreakSplit(pieces[0]);
    } else {
      JoinThenSplit(pieces[1..]);
      SplitAfterPiece(pieces[0], JoinLines(pieces[1..]));
      assert [pieces[0]] + pieces[1..] == pieces;
    }
  }

  lemma {:induction false} NoBreakSplit(s: string)
    requires '\n' !in s
    ensures SplitLines(s) == [s]
  {
    if |s| > 0 {
      NoBreakSplit(s[1..]);
      assert [s[0]] + s[1..] == s;
    }
  }

  lemma {:induction false} SplitAfterPiece(a: string, b: string)
    requires '\n' !in a
    ensures SplitLines(a + "\n" + b) == [a] + SplitLines(b)
  {
    if |a| == 0 {
      assert a + "\n" + b == "\n" + b;
      assert ("\n" + b)[1..] == b;
    } else {
      var s := a + "\n" + b;
      assert s[0] == a[0] && s[1..] == a[1..] + "\n" + b;
      SplitAfterPiece(a[1..], b);
      assert [a[0]] + a[1..] == a;
    }
  }

  /** One carriage return before a line feed belongs to the line end (`/\r?\n/`). */
  function DropCR(line: string): string {
    if |line| > 0 && line[|line| - 1] == '\r' then line[..|line| - 1] else line
  }

  /** `resultado.split(/\r?\n/)`: every piece but the last loses one trailing carriage return. */
  function ReplyLines(resultado: string): (lines: seq<string>)
    ensures |lines| == |SplitLines(resultado)|
  {
    var pieces := SplitLines(resultado);
    seq(|pieces|, k requires 0 <= k < |pieces| => if k < |pieces| - 1 then DropCR(pieces[k]) else pieces[k])
  }

  /** What one entry of the parsed object holds: a value (null when empty) or a section object. */
  datatype Entry = Value(v: Option<string>) | Section(fields: map<string, Option<string>>)

  const Root := "root"

  /** The parsed object and the name of the section being read (`secaoAtual`). */
  datatype ParserState = ParserState(parsed: map<string, Entry>, section: string)

  function Init(): ParserState { ParserState(map[], Root) }

  /** `value || null`: a stored value is null or non-empty. */
  function StoredValue(v: string): (o: Option<string>)
    ensures o.Some? ==> o.value != ""
    ensures o.None? <==> v == ""
  {
    if v == "" then None else Some(v)
  }

  /** The section being read is an object of the parsed result. */
  predicate WellFormed(st: ParserState) {
    st.section != Root ==> st.section in st.parsed && st.parsed[st.section].Section?
  }

  /** `value || null` leaves no empty text behind: every stored value is null or non-empty. */
  predicate NoEmptyValues(parsed: map<string, Entry>) {
    forall k :: k in parsed ==> EntryOk(parsed[k])
  }

  predicate EntryOk(e: Entry) {
    match e
    case Value(v) => NonEmptyOrNull(v)
    case Section(fields) => NoEmptyField(fields)
  }

  predicate NonEmptyOrNull(o: Option<string>) { o.Some? ==> o.value != "" }

  predicate NoEmptyField(m: map<string, Option<string>>) {
    forall k :: k in m ==> NonEmptyOrNull(m[k])
  }

  /** `startsWith('[') && endsWith(']')`. */
  predicate IsHeader(t: string) { |t| >= 2 && t[0] == '[' && t[|t| - 1] == ']' }

  /** `slice(1, -1)`. */
  function HeaderName(t: string): string
    requires IsHeader(t)
  {
    t[1..|t| - 1]
  }

  /** The index of the first `=`. */
  function FirstEquals(t: string): (i: nat)
    requires '=' in t
    ensures i < |t| && t[i] == '=' && '=' !in t[..i]
  {
    if t[0] == '=' then 0
    else
      var i := FirstEquals(t[1..]) + 1;
      assert t[..i] == [t[0]] + t[1..][..i - 1];
      i
  }

  /** A trimmed line that is stored: not empty, not a header, and with an `=`. */
  predicate IsPair(t: string) { t != "" && !IsHeader(t) && '=' in t }

  /** The trimmed text before the first `=`. */
  function PairKey(t: string): string
    requires '=' in t
  {
    Trim(t[..FirstEquals(t)])
  }

  /** Everything after the first `=` (later `=` kept), trimmed, null when empty. */
  function PairValue(t: string): Option<string>
    requires '=' in t
  {
    StoredValue(Trim(t[FirstEquals(t) + 1..]))
  }

  /**
   * A line `k=v` whose `k` holds no `=` splits at that first `=`: the key is `k` trimmed
   * and the value is all of `v`, any `=` in it kept, trimmed and null when empty.
   */
  lemma PairSplitsAtFirstEquals(k: string, v: string)
    requires '=' !in k
    ensures var t := k + "=" + v;
      '=' in t && PairKey(t) == Trim(k) && PairValue(t) == StoredValue(Trim(v))
  {
    var t := k + "=" + v;
    assert t[|k|] == '=';
    var i := FirstEquals(t);
    assert i == |k|;
    assert t[..i] == k;
    assert t[i + 1..] == v;
  }

  /** The effect of one trimmed line. */
  function StepTrimmed(st: ParserState, t: string): (r: ParserState)
    requires WellFormed(st)
    ensures WellFormed(r)
  {
    if t == "" then st
    else if IsHeader(t) then ParserState(st.parsed[HeaderName(t) := Section(map[])], HeaderName(t))
    else if '=' in t then
      if st.section == Root then ParserState(st.parsed[PairKey(t) := Value(PairValue(t))], st.section)
      else
        var fields := st.parsed[st.section].fields[PairKey(t) := PairValue(t)];
        ParserState(st.parsed[st.section := Section(fields)], st.section)
    else st
  }

  /** The effect of one line. */
  function Step(st: ParserState, line: string): (r: ParserState)
    requires WellFormed(st)
    ensures WellFormed(r)
  {
    StepTrimmed(st, Trim(line))
  }

  /** The state after reading `lines` in order from `st`. */
  function Run(st: ParserState, lines: seq<string>): (r: ParserState)
    requires WellFormed(st)
    ensures WellFormed(r)
  {
    if |lines| == 0 then st else Step(Run(st, lines[..|lines| - 1]), lines[|lines| - 1])
  }

  /** The parsed object for a whole reply. */
  function Parse(resultado: string): map<string, Entry> {
    Run(Init(), ReplyLines(resultado)).parsed
  }

  /**
   * The parsing loop of `enviar`: one pass over the lines, updating the current section
   * and the parsed object in place.
   */
  method ParseReply(resultado: string) returns (parsed: map<string, Entry>)
    ensures parsed == Parse(resultado)
  {
    var linhas := ReplyLines(resultado);
    parsed := map[];
    var secaoAtual := Root;
    var i := 0;
    while i < |linhas|
      invariant 0 <= i <= |linhas|
      invariant ParserState(parsed, secaoAtual) == Run(Init(), linhas[..i])
    {
      assert linhas[..i + 1][..i] == linhas[..i];
      parsed, secaoAtual := ReadLine(parsed, secaoAtual, linhas[i]);
      i := i + 1;
    }
    assert linhas[..i] == linhas;
  }

  /** The body of the parsing loop for one line. */
  method ReadLine(parsed: map<string, Entry>, secaoAtual: string, linha: string)
    returns (parsed': map<string, Entry>, secao': string)
    requires WellFormed(ParserState(parsed, secaoAtual))
    ensures ParserState(parsed', secao') == Step(ParserState(parsed, secaoAtual), linha)
  {
    ghost var st := ParserState(parsed, secaoAtual);
    parsed', secao' := parsed, secaoAtual;
    var trimmed := Trim(linha);
    assert Step(st, linha) == StepTrimmed(st, trimmed);
    if trimmed == "" {
      return;
    }
    if IsHeader(trimmed) {
      secao' := trimmed[1..|trimmed| - 1];
      parsed' := parsed[secao' := Section(map[])];
    } else if '=' in trimmed {
      var eq := FirstEquals(trimmed);
      var key := Trim(trimmed[..eq]);
      var value := Trim(trimmed[eq + 1..]);
      assert key == PairKey(trimmed) && StoredValue(value) == PairValue(trimmed);
      if secaoAtual == Root {
        parsed' := parsed[key := Value(StoredValue(value))];
      } else {
        var section := parsed[secaoAtual].fields;
        parsed' := parsed[secaoAtual := Section(section[key := StoredValue(value)])];
      }
    }
  }

  /** Reading `a` then `b` is reading `a + b`. */
  lemma {:induction false} RunAppend(st: ParserState, a: seq<string>, b: seq<string>)
    requires WellFormed(st)
    ensures Run(st, a + b) == Run(Run(st, a), b)
  {
    if |b| == 0 {
      assert a + b == a;
    } else {
      var b' := b[..|b| - 1];
      assert (a + b)[..|a + b| - 1] == a + b';
      RunAppend(st, a, b');
    }
  }

  /** Every value the parser stores is null or non-empty. */
  lemma {:induction false} RunKeepsNoEmptyValues(st: ParserState, lines: seq<string>)
    requires WellFormed(st) && NoEmptyValues(st.parsed)
    ensures NoEmptyValues(Run(st, lines).parsed)
  {
    if |lines| > 0 {
      var prev := Run(st, lines[..|lines| - 1]);
      RunKeepsNoEmptyValues(st, lines[..|lines| - 1]);
      StepKeepsNoEmptyValues(prev, lines[|lines| - 1]);
    }
  }

  lemma StepKeepsNoEmptyValues(st: ParserState, line: string)
    requires WellFormed(st) && NoEmptyValues(st.parsed)
    ensures NoEmptyValues(Step(st, line).parsed)
  {
    assert Step(st, line) == StepTrimmed(st, Trim(line));
    StepTrimmedKeepsNoEmptyValues(st, Trim(line));
  }

  lemma StepTrimmedKeepsNoEmptyValues(st: ParserState, t: string)
    requires WellFormed(st) && NoEmptyValues(st.parsed)
    ensures NoEmptyValues(StepTrimmed(st, t).parsed)
  {
    if t != "" && IsHeader(t) {
      StoreKeeps(st.parsed, HeaderName(t), Section(map[]));
    } else if t != "" && '=' in t {
      PairStoreKeeps(st, PairKey(t), PairValue(t));
    }
  }

  /** Storing a pair whose value is null or non-empty, at the top level or in the section. */
  lemma PairStoreKeeps(st: ParserState, k: string, v: Option<string>)
    requires WellFormed(st) && NoEmptyValues(st.parsed) && NonEmptyOrNull(v)
    ensures st.section == Root ==> NoEmptyValues(st.parsed[k := Value(v)])
    ensures st.section != Root ==> NoEmptyValues(st.parsed[st.section := Section(st.parsed[st.section].fields[k := v])])
  {
    if st.section == Root {
      StoreKeeps(st.parsed, k, Value(v));
    } else {
      var f := st.parsed[st.section].fields;
      assert EntryOk(st.parsed[st.section]);
      assert NoEmptyField(f[k := v]);
      StoreKeeps(st.parsed, st.section, Section(f[k := v]));
    }
  }

  lemma StoreKeeps(parsed: map<string, Entry>, key: string, e: Entry)
    requires NoEmptyValues(parsed) && EntryOk(e)
    ensures NoEmptyValues(parsed[key := e])
  {
  }

  lemma ParseHasNoEmptyValues(resultado: string)
    ensures NoEmptyValues(Parse(resultado))
  {
    RunKeepsNoEmptyValues(Init(), ReplyLines(resultado));
  }

  /** A line that is blank, or neither a header nor a pair, changes nothing. */
  lemma SkippedLine(st: ParserState, a: seq<string>, line: string, b: seq<string>)
    requires WellFormed(st)
    requires !IsHeader(Trim(line)) && '=' !in Trim(line)
    ensures Run(st, a + [line] + b) == Run(st, a + b)
  {
    RunAppend(st, a + [line], b);
    RunAppend(st, a, b);
    assert (a + [line])[..|a|] == a;
  }

  /** The pairs of a run of lines without headers, a later key overriding an earlier one. */
  function Pairs(lines: seq<string>): map<string, Option<string>> {
    if |lines| == 0 then map[]
    else
      var t := Trim(lines[|lines| - 1]);
      var m := Pairs(lines[..|lines| - 1]);
      if IsPair(t) then m[PairKey(t) := PairValue(t)] else m
  }

  /** Pairs stored as top-level values. */
  function AsValues(m: map<string, Option<string>>): map<string, Entry> {
    map k | k in m :: Value(m[k])
  }

  predicate NoHeader(lines: seq<string>) {
    forall k :: 0 <= k < |lines| ==> !IsHeader(Trim(lines[k]))
  }

  /** Inside a section, lines without headers add their pairs to that section and touch nothing else. */
  lemma {:induction false} SectionCollects(st: ParserState, lines: seq<string>)
    requires WellFormed(st) && st.section != Root && NoHeader(lines)
    ensures Run(st, lines).section == st.section
    ensures Run(st, lines).parsed
         == st.parsed[st.section := Section(st.parsed[st.section].fields + Pairs(lines))]
  {
    var s, f := st.section, st.parsed[st.section].fields;
    if |lines| == 0 {
      assert f + map[] == f;
      assert st.parsed[s := Section(f)] == st.parsed;
    } else {
      var init := lines[..|lines| - 1];
      assert NoHeader(init) by {
        forall k | 0 <= k < |init| ensures !IsHeader(Trim(init[k])) {
          assert init[k] == lines[k];
        }
      }
      SectionCollects(st, init);
      var prev := Run(st, init);
      var t := Trim(lines[|lines| - 1]);
      assert Run(st, lines) == Step(prev, lines[|lines| - 1]);
      assert Run(st, lines) == StepTrimmed(prev, t);
      assert !IsHeader(t);
      if IsPair(t) {
        var k, v := PairKey(t), PairValue(t);
        assert Pairs(lines) == Pairs(init)[k := v];
        UpdateUnion(f, Pairs(init), k, v);
        assert prev.parsed[s].fields == f + Pairs(init);
        UpdateTwice(st.parsed, s, Section(f + Pairs(init)), Section(f + Pairs(lines)));
      } else {
        assert Pairs(lines) == Pairs(init);
      }
    }
  }

  lemma AsValuesUpdate(m: map<string, Option<string>>, k: string, v: Option<string>)
    ensures AsValues(m[k := v]) == AsValues(m)[k := Value(v)]
  {
  }

  lemma EmptyUnion<K, V>(m: map<K, V>)
    ensures map[] + m == m
  {
  }

  lemma UpdateUnion<K, V>(f: map<K, V>, p: map<K, V>, k: K, v: V)
    ensures (f + p)[k := v] == f + p[k := v]
  {
  }

  lemma UpdateTwice<K, V>(m: map<K, V>, k: K, a: V, b: V)
    ensures m[k := a][k := b] == m[k := b]
  {
  }

  /** A header opens its section afresh: what follows, up to the next header, is its content. */
  lemma SectionReads(st: ParserState, header: string, lines: seq<string>)
    requires WellFormed(st) && IsHeader(Trim(header)) && HeaderName(Trim(header)) != Root
    requires NoHeader(lines)
    ensures Run(st, [header] + lines).section == HeaderName(Trim(header))
    ensures Run(st, [header] + lines).parsed
         == st.parsed[HeaderName(Trim(header)) := Section(Pairs(lines))]
  {
    var name := HeaderName(Trim(header));
    RunAppend(st, [header], lines);
    assert [header][..0] == [];
    assert Run(st, [header]) == Step(st, header);
    var started := Run(st, [header]);
    assert started == ParserState(st.parsed[name := Section(map[])], name);
    SectionCollects(started, lines);
    EmptyUnion(Pairs(lines));
    UpdateTwice(st.parsed, name, Section(map[]), Section(Pairs(lines)));
  }

  /** Before any header, pairs become top-level values, a later key overriding an earlier one. */
  lemma {:induction false} RootCollects(st: ParserState, lines: seq<string>)
    requires st.section == Root && NoHeader(lines)
    ensures Run(st, lines).section == Root
    ensures Run(st, lines).parsed == st.parsed + AsValues(Pairs(lines))
  {
    if |lines| == 0 {
      assert AsValues(map[]) == map[];
      assert st.parsed + map[] == st.parsed;
    } else {
      var init := lines[..|lines| - 1];
      assert NoHeader(init) by {
        forall k | 0 <= k < |init| ensures !IsHeader(Trim(init[k])) {
          assert init[k] == lines[k];
        }
      }
      RootCollects(st, init);
      var prev := Run(st, init);
      var q := Pairs(init);
      var t := Trim(lines[|lines| - 1]);
      assert Run(st, lines) == Step(prev, lines[|lines| - 1]);
      assert Run(st, lines) == StepTrimmed(prev, t);
      assert !IsHeader(t);
      if IsPair(t) {
        var k, v := PairKey(t), PairValue(t);
        assert Pairs(lines) == q[k := v];
        AsValuesUpdate(q, k, v);
        UpdateUnion(st.parsed, AsValues(q), k, Value(v));
      } else {
        assert Pairs(lines) == q;
      }
    }
  }

  /**
   * A header literally named `root` stores an empty object under `root` but sends the
   * pairs after it to the top level, as if no section were open.
   */
  lemma RootHeaderIsTopLevel(st: ParserState, header: string, lines: seq<string>)
    requires WellFormed(st) && IsHeader(Trim(header)) && HeaderName(Trim(header)) == Root
    requires NoHeader(lines)
    ensures Run(st, [header] + lines).section == Root
    ensures Run(st, [header] + lines).parsed == st.parsed[Root := Section(map[])] + AsValues(Pairs(lines))
  {
    RunAppend(st, [header], lines);
    assert [header][..0] == [];
    assert Run(st, [header]) == Step(st, header);
    var started := Run(st, [header]);
    assert started == ParserState(st.parsed[Root := Section(map[])], Root);
    RootCollects(started, lines);
  }

  /** A trailing carriage return never changes a trimmed line. */
  lemma DropCRTrim(line: string)
    ensures Trim(DropCR(line)) == Trim(line)
  {
    if |line| > 0 && line[|line| - 1] == '\r' {
      var y := line[..|line| - 1];
      assert line == y + ['\r'];
      if AllSpace(y) {
        AllSpaceSplit(line, |y|);
        assert line[|y|..] == ['\r'];
      } else {
        TrimStartAppendSpace(y, '\r');
        TrimEndSpace(TrimStart(y), '\r');
      }
    }
  }

  lemma TrimEndSpace(t: string, c: char)
    requires IsJsSpace(c)
    ensures TrimEnd(t + [c]) == TrimEnd(t)
  {
    assert (t + [c])[..|t|] == t;
  }

  lemma {:induction false} TrimStartAppendSpace(s: string, c: char)
    requires !AllSpace(s)
    ensures TrimStart(s + [c]) == TrimStart(s) + [c]
  {
    if IsJsSpace(s[0]) {
      assert (s + [c])[1..] == s[1..] + [c];
      assert !AllSpace(s[1..]) by {
        var j :| 0 <= j < |s| && !IsJsSpace(s[j]);
        assert s[1..][j - 1] == s[j];
      }
      TrimStartAppendSpace(s[1..], c);
    }
  }

  /** The parser only looks at lines trimmed. */
  lemma {:induction false} RunSameTrim(st: ParserState, a: seq<string>, b: seq<string>)
    requires WellFormed(st) && |a| == |b|
    requires forall k :: 0 <= k < |a| ==> Trim(a[k]) == Trim(b[k])
    ensures Run(st, a) == Run(st, b)
  {
    if |a| > 0 {
      RunSameTrim(st, a[..|a| - 1], b[..|b| - 1]);
    }
  }

  /** Line ends `\r\n` and `\n` read alike: the reply parses as its plain line-feed pieces. */
  lemma CarriageReturnsIgnored(resultado: string)
    ensures Parse(resultado) == Run(Init(), SplitLines(resultado)).parsed
  {
    var pieces := SplitLines(resultado);
    var lines := ReplyLines(resultado);
    forall k | 0 <= k < |lines| ensures Trim(lines[k]) == Trim(pieces[k]) {
      if k < |pieces| - 1 {
        assert lines[k] == DropCR(pieces[k]);
        DropCRTrim(pieces[k]);
      } else {
        assert lines[k] == pieces[k];
      }
    }
    RunSameTrim(Init(), lines, pieces);
  }
}
