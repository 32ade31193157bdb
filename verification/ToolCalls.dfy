/** The `@@tool(k="v",...)@@` lines a model response may hold: the parser of
    internal/daemon/handlers.go, and a printer to state what the parser inverts. */
module ToolCalls {
  import opened Text

  datatype ToolCall = ToolCall(tool: string, args: map<string, string>)

  /** `SliceError` is the run-time panic of a slice expression whose bounds cross. */
  datatype LineResult = NoCall | Call(call: ToolCall) | LineError

  datatype Parsed = Calls(calls: seq<ToolCall>) | SliceError

  // ---------- The parser ----------

  predicate IsMarker(trimmed: string) {
    HasPrefix(trimmed, "@@") && HasSuffix(trimmed, "@@")
  }

  datatype Binding = Binding(key: string, value: string) | Skipped

  /** One `k="v"` piece: cut at the first `=`, both sides trimmed, quotes stripped from the value. */
  function ParsePair(pair: string): Binding {
    var p := TrimSpace(pair);
    var eq := Index(p, '=');
    if eq < 0 then Skipped else Binding(TrimSpace(p[..eq]), TrimQuotes(TrimSpace(p[eq + 1..])))
  }

  function ParsePairs(pairs: seq<string>): seq<Binding> {
    seq(|pairs|, i requires 0 <= i < |pairs| => ParsePair(pairs[i]))
  }

  function Assign(args: map<string, string>, b: Binding): map<string, string> {
    if b.Skipped? then args else args[b.key := b.value]
  }

  function AssignAll(args: map<string, string>, bs: seq<Binding>): map<string, string>
    decreases |bs|
  {
    if bs == [] then args else AssignAll(Assign(args, bs[0]), bs[1..])
  }

  function ParseArgs(s: string): map<string, string> {
    if s == "" then map[] else AssignAll(map[], ParsePairs(Split(s, ',')))
  }

  /** What stands between the two pairs of `@`: the name up to the first parenthesis, then the
      arguments up to the last character, whatever that character is. */
  function ParseInner(inner: string): LineResult {
    var paren := Index(inner, '(');
    if paren < 0 then NoCall
    else if |inner| - 1 < paren + 1 then LineError
    else Call(ToolCall(inner[..paren], ParseArgs(inner[paren + 1..|inner| - 1])))
  }

  function ParseLine(line: string): LineResult {
    var t := TrimSpace(line);
    if !IsMarker(t) then NoCall else if |t| < 4 then LineError else ParseInner(t[2..|t| - 2])
  }

  function Prepend(first: LineResult, rest: Parsed): Parsed {
    match first
    case NoCall => rest
    case LineError => SliceError
    case Call(c) => if rest.SliceError? then rest else Calls([c] + rest.calls)
  }

  function Collect(results: seq<LineResult>): Parsed {
    if results == [] then Calls([]) else Prepend(results[0], Collect(results[1..]))
  }

  function ParseLines(lines: seq<string>): seq<LineResult> {
    seq(|lines|, i requires 0 <= i < |lines| => ParseLine(lines[i]))
  }

  function Parse(response: string): Parsed {
    Collect(ParseLines(Split(response, '\n')))
  }

  /** What two texts parse to one after the other. */
  function Then(a: Parsed, b: Parsed): Parsed {
    if a.SliceError? || b.SliceError? then SliceError else Calls(a.calls + b.calls)
  }

  method ParseArguments(argsStr: string) returns (args: map<string, string>)
    ensures args == ParseArgs(argsStr)
  {
    args := map[];
    if argsStr != "" {
      var pairs := Split(argsStr, ',');
      ghost var bs := ParsePairs(pairs);
      for i := 0 to |pairs|
        invariant AssignAll(args, bs[i..]) == AssignAll(map[], bs)
      {
        assert bs[i..][1..] == bs[i + 1..] && bs[i] == ParsePair(pairs[i]);
        var pair := TrimSpace(pairs[i]);
        var eq := Index(pair, '=');
        if eq >= 0 {
          var k := TrimSpace(pair[..eq]);
          var v := TrimQuotes(TrimSpace(pair[eq + 1..]));
          args := args[k := v];
        }
      }
    }
  }

  /** The body of the loop over lines. */
  method ParseToolCall(text: string) returns (r: LineResult)
    ensures r == ParseLine(text)
  {
    hide ParseArgs, TrimSpace, Index;
    var line := TrimSpace(text);
    if !HasPrefix(line, "@@") || !HasSuffix(line, "@@") {
      return NoCall;
    }
    if |line| < 4 {
      return LineError;
    }
    var inner := line[2..|line| - 2];
    var paren := Index(inner, '(');
    if paren < 0 {
      return NoCall;
    }
    var toolName := inner[..paren];
    if |inner| - 1 < paren + 1 {
      return LineError;
    }
    var args := ParseArguments(inner[paren + 1..|inner| - 1]);
    r := Call(ToolCall(toolName, args));
  }

  lemma {:induction false} ThenPrepend(calls: seq<ToolCall>, first: LineResult, rest: Parsed)
    ensures Then(Calls(calls), Prepend(first, rest))
         == if first.LineError? then SliceError
            else Then(Calls(calls + if first.Call? then [first.call] else []), rest)
  {
    if first.Call? && rest.Calls? {
      assert calls + ([first.call] + rest.calls) == (calls + [first.call]) + rest.calls;
    }
    assert calls + [] == calls;
  }

  /** parseToolCalls, stopping where Go would panic. */
  method ParseToolCalls(response: string) returns (r: Parsed)
    ensures r == Parse(response)
  {
    hide ParseLine, Split, Then, Prepend;
    var calls: seq<ToolCall> := [];
    var lines := Split(response, '\n');
    ghost var results := ParseLines(lines);
    StartThen(Collect(results));
    for i := 0 to |lines|
      invariant Then(Calls(calls), Collect(results[i..])) == Collect(results)
    {
      assert results[i..][1..] == results[i + 1..];
      var line := ParseToolCall(lines[i]);
      ThenPrepend(calls, line, Collect(results[i + 1..]));
      if line.LineError? {
        return SliceError;
      }
      calls := calls + if line.Call? then [line.call] else [];
    }
    EndThen(calls);
    r := Calls(calls);
  }

  lemma {:induction false} StartThen(p: Parsed)
    ensures Then(Calls([]), p) == p
  {
    if p.Calls? {
      assert [] + p.calls == p.calls;
    }
  }

  lemma {:induction false} EndThen(calls: seq<ToolCall>)
    ensures Then(Calls(calls), Calls([])) == Calls(calls)
  {
    assert calls + [] == calls;
  }

  // ---------- Compositionality and definedness ----------

  lemma {:induction false} PrependThen(first: LineResult, x: Parsed, y: Parsed)
    ensures Prepend(first, Then(x, y)) == Then(Prepend(first, x), y)
  {
    if first.Call? && x.Calls? && y.Calls? {
      assert [first.call] + (x.calls + y.calls) == ([first.call] + x.calls) + y.calls;
    }
  }

  lemma {:induction false} CollectAppend(a: seq<LineResult>, b: seq<LineResult>)
    ensures Collect(a + b) == Then(Collect(a), Collect(b))
  {
    if a == [] {
      assert a + b == b;
    } else {
      hide Then, Prepend;
      CollectAppend(a[1..], b);
      assert (a + b)[1..] == a[1..] + b && (a + b)[0] == a[0];
      PrependThen(a[0], Collect(a[1..]), Collect(b));
    }
  }

  /** Parsing two texts put on separate lines is parsing each of them; one slice error spoils both. */
  lemma {:induction false} ParseAppend(a: string, b: string)
    ensures Parse(a + "\n" + b) == Then(Parse(a), Parse(b))
  {
    hide Then, Collect, Split, ParseLine;
    SplitAppend(a, '\n', b);
    var la, lb := Split(a, '\n'), Split(b, '\n');
    assert ParseLines(la + lb) == ParseLines(la) + ParseLines(lb);
    CollectAppend(ParseLines(la), ParseLines(lb));
  }

  /** A trimmed line whose slice bounds cross. */
  ghost predicate Crosses(t: string) {
    t == "@@" || t == "@@@" || exists u: string :: '(' !in u && t == "@@" + u + "(@@"
  }

  lemma {:induction false} FirstParenIsLast(inner: string)
    ensures inner != "" && Index(inner, '(') == |inner| - 1 <==> exists u: string :: '(' !in u && inner == u + ['(']
  {
    IndexFirst(inner, '(');
    if inner != "" && Index(inner, '(') == |inner| - 1 {
      assert inner == inner[..|inner| - 1] + ['('];
    }
    forall u: string | '(' !in u && inner == u + ['(']
      ensures Index(inner, '(') == |inner| - 1
    {
      IndexAt(u, '(', "");
      assert u + ['('] + "" == inner;
    }
  }

  lemma {:induction false} CrossingParen(t: string)
    requires IsMarker(t) && |t| >= 4
    ensures var inner := t[2..|t| - 2];
      inner != "" && Index(inner, '(') == |inner| - 1 <==> exists u: string :: '(' !in u && t == "@@" + u + "(@@"
  {
    var inner := t[2..|t| - 2];
    assert t == "@@" + inner + "@@";
    FirstParenIsLast(inner);
    forall u: string
      ensures inner == u + ['('] <==> t == "@@" + u + "(@@"
    {
      assert "(@@" == ['('] + "@@";
      assert "@@" + u + "(@@" == "@@" + (u + ['(']) + "@@";
      assert ("@@" + (u + ['(']) + "@@")[2..|u| + 3] == u + ['('];
    }
  }

  lemma {:induction false} CrossesOnlyMarkers(t: string)
    ensures Crosses(t) ==> IsMarker(t)
    ensures IsMarker(t) && |t| < 4 ==> Crosses(t)
  {
    if u: string :| t == "@@" + u + "(@@" {
      assert t[..2] == "@@";
      assert t[|t| - 2..] == "@@";
    }
    if IsMarker(t) && |t| == 3 {
      assert t[2] == t[1..][1];
      assert t == t[..2] + [t[2]];
    }
  }

  lemma {:induction false} LineErrorExactly(line: string)
    ensures ParseLine(line).LineError? <==> Crosses(TrimSpace(line))
  {
    var t := TrimSpace(line);
    CrossesOnlyMarkers(t);
    if IsMarker(t) && |t| >= 4 {
      CrossingParen(t);
    }
  }

  lemma {:induction false} CollectErrorExactly(results: seq<LineResult>)
    ensures Collect(results).SliceError? <==> LineError in results
  {
    if results != [] {
      CollectErrorExactly(results[1..]);
      assert results == [results[0]] + results[1..];
    }
  }

  /** The parser panics exactly on a response with a line that trims to `@@`, `@@@` or `@@u(@@`,
      u free of `(`. */
  lemma {:induction false} SliceErrorExactly(response: string)
    ensures Parse(response).SliceError? <==> exists l :: l in Split(response, '\n') && Crosses(TrimSpace(l))
  {
    hide Crosses, ParseLine, TrimSpace, Split;
    var lines := Split(response, '\n');
    var results := ParseLines(lines);
    CollectErrorExactly(results);
    forall l | l in lines
      ensures ParseLine(l).LineError? <==> Crosses(TrimSpace(l))
    {
      LineErrorExactly(l);
    }
    if i :| 0 <= i < |lines| && results[i].LineError? {
      assert Crosses(TrimSpace(lines[i]));
    }
    if l :| l in lines && Crosses(TrimSpace(l)) {
      var i :| 0 <= i < |lines| && lines[i] == l;
      assert results[i].LineError?;
    }
  }

  // ---------- Arguments: the last pair of a key wins ----------

  /** Binding i of bs gives k the value v and no later one names k. */
  ghost predicate LastBinding(bs: seq<Binding>, i: int, k: string, v: string) {
    0 <= i < |bs| && bs[i] == Binding(k, v) && forall j | i < j < |bs| :: bs[j].Binding? ==> bs[j].key != k
  }

  ghost predicate Names(bs: seq<Binding>, k: string) {
    exists i :: 0 <= i < |bs| && bs[i].Binding? && bs[i].key == k
  }

  lemma {:induction false} AssignAllLastWins(args: map<string, string>, bs: seq<Binding>, k: string)
    ensures Names(bs, k) ==> k in AssignAll(args, bs) && exists i :: LastBinding(bs, i, k, AssignAll(args, bs)[k])
    ensures !Names(bs, k) ==> (k in AssignAll(args, bs) <==> k in args)
    ensures !Names(bs, k) && k in args ==> AssignAll(args, bs)[k] == args[k]
    decreases |bs|
  {
    if bs != [] {
      var rest := bs[1..];
      AssignAllLastWins(Assign(args, bs[0]), rest, k);
      assert forall j | 0 < j < |bs| :: bs[j] == rest[j - 1];
      if Names(rest, k) {
        var i :| LastBinding(rest, i, k, AssignAll(args, bs)[k]);
        assert LastBinding(bs, i + 1, k, AssignAll(args, bs)[k]);
      } else if Names(bs, k) {
        assert LastBinding(bs, 0, k, bs[0].value);
      }
    }
  }

  /** An argument has value v exactly when v is what the last pair naming it says. */
  lemma {:induction false} RepeatedKeysLastWins(argsStr: string, k: string, v: string)
    requires argsStr != ""
    ensures k in ParseArgs(argsStr) && ParseArgs(argsStr)[k] == v
            <==> exists i :: LastBinding(ParsePairs(Split(argsStr, ',')), i, k, v)
  {
    var bs := ParsePairs(Split(argsStr, ','));
    AssignAllLastWins(map[], bs, k);
    if i :| LastBinding(bs, i, k, v) {
      assert Names(bs, k);
      var j :| LastBinding(bs, j, k, ParseArgs(argsStr)[k]);
      assert i == j;
    }
  }

  // ---------- The printer ----------

  function PrintPair(k: string, v: string): string {
    k + ['='] + (['"'] + v + ['"'])
  }

  function PrintPairs(args: map<string, string>, order: seq<string>): seq<string>
    requires forall k | k in order :: k in args
  {
    seq(|order|, i requires 0 <= i < |order| => PrintPair(order[i], args[order[i]]))
  }

  /** The arguments in the order given, as Go's map iteration may choose it. */
  function PrintArgs(args: map<string, string>, order: seq<string>): string
    requires forall k | k in order :: k in args
  {
    Join(PrintPairs(args, order), ",")
  }

  function PrintCall(call: ToolCall, order: seq<string>): string
    requires forall k | k in order :: k in call.args
  {
    "@@" + (call.tool + ['('] + PrintArgs(call.args, order) + [')']) + "@@"
  }

  /** order lists every key of args and nothing else. */
  predicate IsOrder(args: map<string, string>, order: seq<string>) {
    (forall k | k in order :: k in args) && forall k | k in args :: k in order
  }

  predicate PrintableName(tool: string) {
    '(' !in tool && '\n' !in tool
  }

  predicate PrintableKey(k: string) {
    ',' !in k && '=' !in k && '\n' !in k && Trimmed(k, Space)
  }

  /** Values may hold `=`, parentheses, inner quotes and spaces at their edges. */
  predicate PrintableValue(v: string) {
    ',' !in v && '\n' !in v && Trimmed(v, Quote)
  }

  predicate PrintableArgs(args: map<string, string>) {
    forall k | k in args :: PrintableKey(k) && PrintableValue(args[k])
  }

  predicate Printable(call: ToolCall) {
    PrintableName(call.tool) && PrintableArgs(call.args)
  }

  // ---------- Whatever is printable parses back ----------

  lemma {:induction false} PairRoundTrip(k: string, v: string)
    requires PrintableKey(k) && PrintableValue(v)
    ensures ParsePair(PrintPair(k, v)) == Binding(k, v)
    ensures PrintPair(k, v) != "" && ',' !in PrintPair(k, v)
  {
    hide Trim, Index;
    var quoted := ['"'] + v + ['"'];
    var p := PrintPair(k, v);
    assert p == k + ['='] + quoted;
    assert Trimmed(p, Space) && Trimmed(quoted, Space);
    TrimKeeps(p, Space);
    TrimKeeps(k, Space);
    TrimKeeps(quoted, Space);
    IndexAt(k, '=', quoted);
    assert p[..|k|] == k && p[|k| + 1..] == quoted;
    TrimQuoted(v);
  }

  lemma {:induction false} AssignPrinted(acc: map<string, string>, args: map<string, string>, order: seq<string>,
      bs: seq<Binding>)
    requires forall k | k in order :: k in args
    requires |bs| == |order| && forall i | 0 <= i < |bs| :: bs[i] == Binding(order[i], args[order[i]])
    ensures forall k :: k in AssignAll(acc, bs) <==> k in acc || k in order
    ensures forall k | k in AssignAll(acc, bs) :: AssignAll(acc, bs)[k] == if k in order then args[k] else acc[k]
    decreases |bs|
  {
    hide PrintableKey;
    if bs != [] {
      AssignPrinted(Assign(acc, bs[0]), args, order[1..], bs[1..]);
      assert order == [order[0]] + order[1..];
    }
  }

  lemma {:induction false} ArgsRoundTrip(args: map<string, string>, order: seq<string>)
    requires IsOrder(args, order) && PrintableArgs(args)
    ensures ParseArgs(PrintArgs(args, order)) == args
  {
    hide ParsePair, Split, PrintPair, PrintableKey, PrintableValue, AssignAll;
    var pairs := PrintPairs(args, order);
    if order != [] {
      forall i | 0 <= i < |pairs|
        ensures ParsePair(pairs[i]) == Binding(order[i], args[order[i]]) && ',' !in pairs[i] && pairs[i] != ""
      {
        PairRoundTrip(order[i], args[order[i]]);
      }
      SplitJoin(pairs, ',');
      AssignPrinted(map[], args, order, ParsePairs(pairs));
      assert PrintArgs(args, order) != "";
    } else {
      assert args == map[];
    }
  }

  lemma {:induction false} JoinAvoids(parts: seq<string>, sep: string, c: char)
    requires c !in sep && forall p | p in parts :: c !in p
    ensures c !in Join(parts, sep)
  {
    if |parts| > 1 {
      JoinAvoids(parts[1..], sep, c);
    }
  }

  lemma {:induction false} PrintedOnOneLine(call: ToolCall, order: seq<string>)
    requires IsOrder(call.args, order) && Printable(call)
    ensures '\n' !in PrintCall(call, order)
  {
    JoinAvoids(PrintPairs(call.args, order), ",", '\n');
  }

  lemma {:induction false} CallRoundTrip(call: ToolCall, order: seq<string>)
    requires IsOrder(call.args, order) && Printable(call)
    ensures ParseLine(PrintCall(call, order)) == Call(call)
  {
    hide ParseArgs, PrintArgs, Index, Trim, PrintableArgs;
    var args := PrintArgs(call.args, order);
    var inner := call.tool + ['('] + args + [')'];
    var line := PrintCall(call, order);
    assert line == "@@" + inner + "@@";
    assert line[..2] == "@@" && line[|line| - 2..] == "@@" && line[2..|line| - 2] == inner;
    TrimKeeps(line, Space);
    assert inner == call.tool + ['('] + (args + [')']);
    IndexAt(call.tool, '(', args + [')']);
    assert inner[..|call.tool|] == call.tool && inner[|call.tool| + 1..|inner| - 1] == args;
    ArgsRoundTrip(call.args, order);
  }

  // ---------- Whatever the parser returns is printable ----------

  lemma {:induction false} ParsedPairPrintable(pair: string)
    requires ',' !in pair && '\n' !in pair
    ensures ParsePair(pair).Binding? ==> PrintableKey(ParsePair(pair).key) && PrintableValue(ParsePair(pair).value)
  {
    hide Trim, Index;
    var p := TrimSpace(pair);
    TrimKeeps(pair, Space);
    IndexFirst(p, '=');
    var eq := Index(p, '=');
    if eq >= 0 {
      TrimKeeps(p[..eq], Space);
      TrimKeeps(p[eq + 1..], Space);
      TrimKeeps(TrimSpace(p[eq + 1..]), Quote);
    }
  }

  lemma {:induction false} AssignAllPrintable(args: map<string, string>, bs: seq<Binding>)
    requires PrintableArgs(args)
    requires forall b | b in bs :: b.Binding? ==> PrintableKey(b.key) && PrintableValue(b.value)
    ensures PrintableArgs(AssignAll(args, bs))
    decreases |bs|
  {
    hide PrintableKey, PrintableValue;
    if bs != [] {
      AssignAllPrintable(Assign(args, bs[0]), bs[1..]);
    }
  }

  lemma {:induction false} ParsedArgsPrintable(s: string)
    requires '\n' !in s
    ensures PrintableArgs(ParseArgs(s))
  {
    hide Split, PrintableKey, PrintableValue, ParsePair;
    if s != "" {
      SplitPieces(s, ',');
      var pairs := Split(s, ',');
      forall p | p in pairs
        ensures ParsePair(p).Binding? ==> PrintableKey(ParsePair(p).key) && PrintableValue(ParsePair(p).value)
      {
        ParsedPairPrintable(p);
      }
      AssignAllPrintable(map[], ParsePairs(pairs));
    }
  }

  lemma {:induction false} ParsedLinePrintable(line: string)
    requires '\n' !in line
    ensures ParseLine(line).Call? ==> Printable(ParseLine(line).call)
  {
    hide Trim, Index, ParseArgs, PrintableArgs;
    TrimKeeps(line, Space);
    var t := TrimSpace(line);
    if IsMarker(t) && |t| >= 4 {
      var inner := t[2..|t| - 2];
      IndexFirst(inner, '(');
      var paren := Index(inner, '(');
      if 0 <= paren < |inner| - 1 {
        ParsedArgsPrintable(inner[paren + 1..|inner| - 1]);
      }
    }
  }

  lemma {:induction false} CollectedPrintable(results: seq<LineResult>)
    requires forall r | r in results :: r.Call? ==> Printable(r.call)
    ensures Collect(results).Calls? ==> forall c | c in Collect(results).calls :: Printable(c)
  {
    hide Printable;
    if results != [] {
      CollectedPrintable(results[1..]);
    }
  }

  lemma {:induction false} ParsedPrintable(response: string)
    ensures Parse(response).Calls? ==> forall c | c in Parse(response).calls :: Printable(c)
  {
    hide Split, ParseLine, Printable;
    SplitPieces(response, '\n');
    var lines := Split(response, '\n');
    forall l | l in lines
      ensures ParseLine(l).Call? ==> Printable(ParseLine(l).call)
    {
      ParsedLinePrintable(l);
    }
    CollectedPrintable(ParseLines(lines));
  }

  // ---------- A line as a text ----------

  /** The white space a line may hold. */
  predicate IsBlank(c: char) {
    c == ' ' || c == '\t' || c == '\U{0B}' || c == '\U{0C}' || c == '\r'
  }

  predicate Blank(w: string) {
    forall c | c in w :: IsBlank(c)
  }

  predicate Quotes(q: string) {
    forall c | c in q :: c == '"'
  }

  /** Neither the first nor the last character is blank. */
  predicate Bare(s: string) {
    s == "" || (!IsBlank(s[0]) && !IsBlank(s[|s| - 1]))
  }

  /** What stands between two commas: a key, `=` and a value, with blanks around either and the value in
      quotes or not; or a text without `=`. */
  datatype Piece =
    | Pair(before: string, key: string, beforeEq: string, afterEq: string, open: string, value: string,
           close: string, after: string)
    | Scrap(text: string)

  function PieceText(p: Piece): string {
    match p
    case Pair(before, key, beforeEq, afterEq, open, value, close, after) =>
      before + key + beforeEq + ['='] + (afterEq + (open + value + close) + after)
    case Scrap(text) => text
  }

  predicate OnePiece(s: string) {
    ',' !in s && '\n' !in s
  }

  predicate WellFormed(p: Piece) {
    match p
    case Pair(before, key, beforeEq, afterEq, open, value, close, after) =>
      Blank(before) && Blank(beforeEq) && Blank(afterEq) && Blank(after) && Quotes(open) && Quotes(close)
      && OnePiece(key) && '=' !in key && Bare(key)
      && OnePiece(value) && (value == "" || (value[0] != '"' && value[|value| - 1] != '"'))
      && Bare(open + value + close)
    case Scrap(text) => OnePiece(text) && '=' !in text
  }

  lemma {:induction false} BlanksAreSpace(w: string)
    requires Blank(w)
    ensures forall c | c in w :: Space.Has(c)
  {
  }

  lemma {:induction false} QuotesAreQuote(q: string)
    requires Quotes(q)
    ensures forall c | c in q :: Quote.Has(c)
  {
  }

  lemma {:induction false} BareIsTrimmed(s: string)
    requires '\n' !in s && Bare(s)
    ensures Trimmed(s, Space)
  {
    if s != "" {
      assert s[0] in s && s[|s| - 1] in s;
    }
  }

  /** The first `=` cuts, and what is trimmed off the piece is trimmed off its two sides. */
  lemma {:induction false} PairCuts(x: string, y: string)
    requires '=' !in x
    ensures ParsePair(x + ['='] + y)
         == Binding(TrimSpace(TrimLeft(x, Space)), TrimQuotes(TrimSpace(TrimRight(y, Space))))
  {
    hide TrimLeft, TrimRight, Trim, TrimQuotes, Index;
    var l, r := TrimLeft(x, Space), TrimRight(y, Space);
    TrimBoth(x, '=', y, Space);
    IndexAt(l, '=', r);
    var p := l + ['='] + r;
    assert p[..|l|] == l && p[|l| + 1..] == r;
  }

  lemma {:induction false} PairBinds(x: string, y: string, key: string, quoted: string, value: string)
    requires '=' !in x && TrimSpace(TrimLeft(x, Space)) == key
    requires TrimSpace(TrimRight(y, Space)) == quoted && TrimQuotes(quoted) == value
    ensures ParsePair(x + ['='] + y) == Binding(key, value)
  {
    hide ParsePair, Trim, TrimLeft, TrimRight;
    PairCuts(x, y);
  }

  lemma {:induction false} KeyTrims(before: string, key: string, beforeEq: string)
    requires Blank(before) && Blank(beforeEq) && '\n' !in key && Bare(key)
    ensures TrimSpace(TrimLeft(before + key + beforeEq, Space)) == key
  {
    hide Trim, TrimLeft, TrimRight;
    BlanksAreSpace(before);
    BlanksAreSpace(beforeEq);
    BareIsTrimmed(key);
    TrimLeftFirst(before, key, beforeEq, Space);
  }

  lemma {:induction false} ValueTrims(afterEq: string, quoted: string, after: string)
    requires Blank(afterEq) && Blank(after) && '\n' !in quoted && Bare(quoted)
    ensures TrimSpace(TrimRight(afterEq + quoted + after, Space)) == quoted
  {
    hide Trim, TrimLeft, TrimRight;
    BlanksAreSpace(afterEq);
    BlanksAreSpace(after);
    BareIsTrimmed(quoted);
    TrimRightFirst(afterEq, quoted, after, Space);
  }

  /** A key, `=` and a value bind that value to that key, whatever blanks and quotes stand around them; a
      text without `=` binds nothing. */
  lemma {:induction false} PieceBinds(p: Piece)
    requires WellFormed(p)
    ensures ParsePair(PieceText(p)) == if p.Pair? then Binding(p.key, p.value) else Skipped
  {
    hide Trim, TrimLeft, TrimRight, Index;
    match p
    case Pair(before, key, beforeEq, afterEq, open, value, close, after) =>
      hide Bare, ParsePair;
      KeyTrims(before, key, beforeEq);
      ValueTrims(afterEq, open + value + close, after);
      QuotedTrims(open, value, close);
      PairBinds(before + key + beforeEq, afterEq + (open + value + close) + after, key, open + value + close, value);
    case Scrap(text) =>
      TrimKeeps(text, Space);
      IndexFirst(TrimSpace(text), '=');
  }

  lemma {:induction false} PieceIsOne(p: Piece)
    requires WellFormed(p)
    ensures ',' !in PieceText(p)
  {
    hide Bare;
  }

  lemma {:induction false} QuotedTrims(open: string, value: string, close: string)
    requires Quotes(open) && Quotes(close) && (value == "" || (value[0] != '"' && value[|value| - 1] != '"'))
    ensures TrimQuotes(open + value + close) == value
  {
    hide Trim;
    QuotesAreQuote(open);
    QuotesAreQuote(close);
    TrimAround(open, value, close, Quote);
  }

  function PieceTexts(ps: seq<Piece>): seq<string> {
    seq(|ps|, i requires 0 <= i < |ps| => PieceText(ps[i]))
  }

  ghost predicate AllWellFormed(ps: seq<Piece>) {
    forall i | 0 <= i < |ps| :: WellFormed(ps[i])
  }

  /** Piece i gives k the value v and no later piece names k. */
  ghost predicate LastPair(ps: seq<Piece>, i: int, k: string, v: string) {
    0 <= i < |ps| && ps[i].Pair? && ps[i].key == k && ps[i].value == v
    && forall j | i < j < |ps| && ps[j].Pair? :: ps[j].key != k
  }

  ghost predicate Gives(ps: seq<Piece>, k: string, v: string) {
    exists i :: LastPair(ps, i, k, v)
  }

  predicate Maps(args: map<string, string>, k: string, v: string) {
    k in args && args[k] == v
  }

  /** The arguments are those of the last pairs, and no others. */
  ghost predicate ArgsOf(args: map<string, string>, ps: seq<Piece>) {
    forall k, v :: Maps(args, k, v) <==> Gives(ps, k, v)
  }

  function BindingOf(p: Piece): Binding {
    if p.Pair? then Binding(p.key, p.value) else Skipped
  }

  lemma {:induction false} PiecesBind(ps: seq<Piece>)
    requires AllWellFormed(ps)
    ensures forall t | t in PieceTexts(ps) :: ',' !in t
    ensures ParsePairs(PieceTexts(ps)) == seq(|ps|, i requires 0 <= i < |ps| => BindingOf(ps[i]))
  {
    hide ParsePair, PieceText, WellFormed;
    forall i | 0 <= i < |ps|
      ensures ',' !in PieceTexts(ps)[i] && ParsePairs(PieceTexts(ps))[i] == BindingOf(ps[i])
    {
      PieceBinds(ps[i]);
      PieceIsOne(ps[i]);
    }
  }

  lemma {:induction false} PiecesParse(ps: seq<Piece>)
    requires AllWellFormed(ps)
    ensures ArgsOf(ParseArgs(Join(PieceTexts(ps), ",")), ps)
  {
    hide PieceText, WellFormed, ParsePair, Split, Join, ParseArgs, Gives;
    var texts := PieceTexts(ps);
    var args := Join(texts, ",");
    PiecesBind(ps);
    if ps == [] || args == "" {
      NothingJoined(ps);
    } else {
      SplitJoin(texts, ',');
      forall k, v
        ensures Maps(ParseArgs(args), k, v) <==> Gives(ps, k, v)
      {
        RepeatedKeysLastWins(args, k, v);
        LastPairs(ps, ParsePairs(texts), k, v);
      }
    }
  }

  lemma {:induction false} LastPairs(ps: seq<Piece>, bs: seq<Binding>, k: string, v: string)
    requires bs == seq(|ps|, i requires 0 <= i < |ps| => BindingOf(ps[i]))
    ensures (exists i :: LastBinding(bs, i, k, v)) <==> Gives(ps, k, v)
  {
    assert forall j | 0 <= j < |ps| :: bs[j] == BindingOf(ps[j]);
    forall i
      ensures LastBinding(bs, i, k, v) <==> LastPair(ps, i, k, v)
    {
    }
  }

  lemma {:induction false} NothingJoined(ps: seq<Piece>)
    requires ps == [] || Join(PieceTexts(ps), ",") == ""
    ensures Join(PieceTexts(ps), ",") == "" && ArgsOf(ParseArgs(""), ps)
  {
    hide Split;
    if |ps| == 1 {
      assert PieceText(ps[0]) == "";
    }
    assert |ps| > 1 ==> |Join(PieceTexts(ps), ",")| > 0;
    assert forall i | 0 <= i < |ps| :: !ps[i].Pair?;
    assert ParseArgs("") == map[];
  }

  /** The line around the pieces; the character before the closing `@@` may be any. */
  function LineText(pre: string, tool: string, ps: seq<Piece>, last: char, post: string): string {
    pre + ("@@" + (tool + "(" + (Join(PieceTexts(ps), ",") + [last])) + "@@") + post
  }

  lemma {:induction false} MarkedLine(pre: string, inner: string, post: string)
    requires Blank(pre) && Blank(post)
    ensures ParseLine(pre + ("@@" + inner + "@@") + post) == ParseInner(inner)
  {
    hide Trim, ParseInner;
    var t := "@@" + inner + "@@";
    BlanksAreSpace(pre);
    BlanksAreSpace(post);
    TrimAround(pre, t, post, Space);
    assert t[..2] == "@@" && t[|t| - 2..] == "@@" && t[2..|t| - 2] == inner;
  }

  lemma {:induction false} OneLine(line: string)
    requires '\n' !in line
    ensures Parse(line) == Collect([ParseLine(line)])
  {
    hide ParseLine, Split, Collect;
    SplitJoin([line], '\n');
    assert Split(line, '\n') == [line];
    assert ParseLines([line]) == [ParseLine(line)];
  }

  lemma {:induction false} CollectOne(r: LineResult)
    ensures Collect([r]) == match r
      case NoCall => Calls([])
      case LineError => SliceError
      case Call(c) => Calls([c])
  {
    assert [r][1..] == [];
    assert Collect([r]) == Prepend(r, Collect([]));
    if r.Call? {
      assert [r.call] + [] == [r.call];
    }
  }

  /** Main result on one line: the name is what stands before the first parenthesis, and each key has the
      value its last pair gives it, stripped of the blanks and quotes around it. */
  lemma {:induction false} LineParses(pre: string, tool: string, ps: seq<Piece>, last: char, post: string)
    requires Blank(pre) && Blank(post) && PrintableName(tool) && AllWellFormed(ps)
    requires '\n' !in LineText(pre, tool, ps, last, post)
    ensures var parsed := Parse(LineText(pre, tool, ps, last, post));
      parsed.Calls? && |parsed.calls| == 1 && parsed.calls[0].tool == tool && ArgsOf(parsed.calls[0].args, ps)
  {
    hide Parse, ParseLine, Collect, ParseArgs, Index, Join, AllWellFormed, ArgsOf;
    var args := Join(PieceTexts(ps), ",");
    var inner := tool + "(" + (args + [last]);
    MarkedLine(pre, inner, post);
    IndexAt(tool, '(', args + [last]);
    assert inner[..|tool|] == tool && inner[|tool| + 1..|inner| - 1] == args;
    PiecesParse(ps);
    OneLine(LineText(pre, tool, ps, last, post));
    CollectOne(Call(ToolCall(tool, ParseArgs(args))));
  }

  /** And the lines that hold no call: not wrapped in `@@`, or without a parenthesis in between. */
  lemma {:induction false} LineSilent(pre: string, t: string, post: string)
    requires Blank(pre) && Blank(post) && Bare(t) && '\n' !in pre + t + post
    requires |t| < 2 || t[..2] != "@@" || t[|t| - 2..] != "@@" || (|t| >= 4 && '(' !in t)
    ensures Parse(pre + t + post) == Calls([])
  {
    hide Parse, Trim, Index, Collect, Bare;
    BlanksAreSpace(pre);
    BlanksAreSpace(post);
    assert '\n' !in t;
    BareIsTrimmed(t);
    TrimAround(pre, t, post, Space);
    assert ParseLine(pre + t + post).NoCall? by {
      if IsMarker(t) {
        IndexFirst(t[2..|t| - 2], '(');
      }
    }
    OneLine(pre + t + post);
    CollectOne(NoCall);
  }

  // ---------- The round trip and the normal form ----------

  /** A model response as a list of prose passages and printed calls, one after the other on lines of
      their own. */
  datatype Item = Prose(text: string) | Printed(call: ToolCall, order: seq<string>)

  ghost predicate WellOrdered(items: seq<Item>) {
    forall it | it in items && it.Printed? :: IsOrder(it.call.args, it.order)
  }

  ghost predicate Plain(text: string) {
    forall l | l in Split(text, '\n') :: !IsMarker(TrimSpace(l))
  }

  /** Prose has no line that trims to `@@...@@`. */
  ghost predicate PlainProse(items: seq<Item>) {
    forall it | it in items && it.Prose? :: Plain(it.text)
  }

  function CallsOf(items: seq<Item>): seq<ToolCall> {
    if items == [] then []
    else (if items[0].Printed? then [items[0].call] else []) + CallsOf(items[1..])
  }

  ghost function ItemText(it: Item): string
    requires it.Printed? ==> IsOrder(it.call.args, it.order)
  {
    if it.Prose? then it.text else PrintCall(it.call, it.order)
  }

  ghost function Render(items: seq<Item>): string
    requires WellOrdered(items)
  {
    if items == [] then ""
    else if |items| == 1 then ItemText(items[0])
    else ItemText(items[0]) + "\n" + Render(items[1..])
  }

  lemma {:induction false} NoCalls(results: seq<LineResult>)
    requires forall r | r in results :: r.NoCall?
    ensures Collect(results) == Calls([])
  {
    if results != [] {
      NoCalls(results[1..]);
    }
  }

  lemma {:induction false} PlainParse(text: string)
    requires Plain(text)
    ensures Parse(text) == Calls([])
  {
    hide Split, TrimSpace, IsMarker;
    var lines := Split(text, '\n');
    assert forall i | 0 <= i < |lines| :: lines[i] in lines;
    NoCalls(ParseLines(lines));
  }

  lemma {:induction false} CallParse(call: ToolCall, order: seq<string>)
    requires IsOrder(call.args, order) && Printable(call)
    ensures Parse(PrintCall(call, order)) == Calls([call])
  {
    hide Split, TrimSpace, PrintCall, Printable, ParseLine;
    var line := PrintCall(call, order);
    CallRoundTrip(call, order);
    PrintedOnOneLine(call, order);
    SplitJoin([line], '\n');
    assert Split(line, '\n') == [line];
    var results := ParseLines([line]);
    assert results == [Call(call)];
    assert Collect(results[1..]) == Calls([]);
    assert Collect(results) == Calls([call] + []);
  }

  lemma {:induction false} RenderedParses(items: seq<Item>)
    requires WellOrdered(items) && PlainProse(items)
    requires forall it | it in items && it.Printed? :: Printable(it.call)
    ensures Parse(Render(items)) == Calls(CallsOf(items))
  {
    hide Parse, Printable, Plain;
    if items == [] {
      EmptyParse();
    } else {
      var it := items[0];
      if it.Prose? {
        PlainParse(it.text);
      } else {
        CallParse(it.call, it.order);
      }
      if |items| > 1 {
        RenderedParses(items[1..]);
        ParseAppend(ItemText(it), Render(items[1..]));
      }
    }
  }

  lemma {:induction false} EmptyParse()
    ensures Parse("") == Calls([])
  {
    assert Split("", '\n') == [""];
    PlainParse("");
  }

  lemma {:induction false} CallsOfHas(items: seq<Item>, it: Item)
    requires it in items && it.Printed?
    ensures it.call in CallsOf(items)
  {
    if items[0] != it {
      CallsOfHas(items[1..], it);
    }
  }

  /** A response of prose and printed calls parses to exactly those calls, in order, if and only if
      every call is printable. */
  lemma {:induction false} RoundTripExactly(items: seq<Item>)
    requires WellOrdered(items) && PlainProse(items)
    ensures Parse(Render(items)) == Calls(CallsOf(items))
            <==> forall it | it in items && it.Printed? :: Printable(it.call)
  {
    hide Parse, Render, Printable, PlainProse;
    if forall it | it in items && it.Printed? :: Printable(it.call) {
      RenderedParses(items);
    }
    if Parse(Render(items)) == Calls(CallsOf(items)) {
      ParsedPrintable(Render(items));
      forall it | it in items && it.Printed?
        ensures Printable(it.call)
      {
        CallsOfHas(items, it);
      }
    }
  }

  /** Printing what was parsed, in any argument order and among any prose, parses to the same calls. */
  lemma {:induction false} NormalForm(response: string, items: seq<Item>)
    requires Parse(response).Calls?
    requires WellOrdered(items) && PlainProse(items) && CallsOf(items) == Parse(response).calls
    ensures Parse(Render(items)) == Parse(response)
  {
    hide Parse, Render, Printable, PlainProse;
    ParsedPrintable(response);
    forall it | it in items && it.Printed?
      ensures Printable(it.call)
    {
      CallsOfHas(items, it);
    }
    RenderedParses(items);
  }
}
