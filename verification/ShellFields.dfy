/** The shell words of GIT_SSH_COMMAND: splitting a command, quoting words, and turning batch mode on.
    Compare section 2.2, Quoting, of the POSIX Shell Command Language. */
module ShellFields {
  import opened Text
  import opened TokenKinds

  datatype Quote = NoQuote | Single | Double

  /** The splitter between two characters. */
  datatype Lex = Lex(fields: seq<string>, buf: string, quote: Quote, escaped: bool)

  const START := Lex([], [], NoQuote, false)

  /** A dollar sign taken literally is written \\$ in a field, a bare one is left to the shell. */
  function Step(l: Lex, c: char): Lex {
    if l.escaped then l.(buf := l.buf + if c == '$' then "\\$" else [c], escaped := false)
    else match l.quote
      case Single =>
        if c == '\'' then l.(quote := NoQuote) else l.(buf := l.buf + if c == '$' then "\\$" else [c])
      case Double =>
        if c == '"' then l.(quote := NoQuote) else if c == '\\' then l.(escaped := true) else l.(buf := l.buf + [c])
      case NoQuote =>
        if c == '\'' then l.(quote := Single)
        else if c == '"' then l.(quote := Double)
        else if c == '\\' then l.(escaped := true)
        else if c == ' ' || c == '\t' || c == '\n' then Flush(l)
        else l.(buf := l.buf + [c])
  }

  function Flush(l: Lex): Lex { if l.buf == [] then l else l.(fields := l.fields + [l.buf], buf := []) }

  function Run(l: Lex, s: string): Lex
    decreases |s|
  {
    if s == [] then l else Run(Step(l, s[0]), s[1..])
  }

  function Finish(l: Lex): seq<string> {
    Flush(if l.escaped then l.(buf := l.buf + "\\") else l).fields
  }

  /** The fields of a command. */
  function Fields(s: string): seq<string> { Finish(Run(START, s)) }

  method SplitShellFields(s: string) returns (fields: seq<string>)
    ensures fields == Fields(s)
  {
    fields := [];
    var b: string := [];
    var quote := NoQuote;
    var escaped := false;
    for i := 0 to |s|
      invariant Run(START, s) == Run(Lex(fields, b, quote, escaped), s[i..])
    {
      var r := s[i];
      assert s[i..] == [r] + s[i + 1..];
      if escaped {
        if r == '$' { b := b + "\\$"; } else { b := b + [r]; }
        escaped := false;
      } else if quote != NoQuote {
        if (quote == Single && r == '\'') || (quote == Double && r == '"') {
          quote := NoQuote;
        } else if r == '$' && quote == Single {
          b := b + "\\$";
        } else if r == '\\' && quote == Double {
          escaped := true;
        } else {
          b := b + [r];
        }
      } else if r == '\'' {
        quote := Single;
      } else if r == '"' {
        quote := Double;
      } else if r == '\\' {
        escaped := true;
      } else if r == ' ' || r == '\t' || r == '\n' {
        if |b| > 0 {
          fields := fields + [b];
          b := [];
        }
      } else {
        b := b + [r];
      }
    }
    if escaped { b := b + "\\"; }
    if |b| > 0 { fields := fields + [b]; }
  }

  // ---- quoting ----

  predicate SafeChar(c: char) {
    'a' <= c <= 'z' || 'A' <= c <= 'Z' || '0' <= c <= '9' || c in "@%_+=:,./-~$"
  }

  predicate IsShellSafe(s: string) { forall c :: c in s ==> SafeChar(c) }

  /** strings.ReplaceAll(s, "'", "'\\''") */
  function SingleBody(s: string): string {
    if s == [] then [] else (if s[0] == '\'' then "'\\''" else [s[0]]) + SingleBody(s[1..])
  }

  /** What doubleQuote writes for the characters from position i on. */
  function DoubleBody(s: string, i: nat): string
    decreases |s| - i
  {
    if i >= |s| then []
    else if s[i] == '\\' && i + 1 < |s| && s[i + 1] == '$' then "\\$" + DoubleBody(s, i + 2)
    else DoubleChar(s[i]) + DoubleBody(s, i + 1)
  }

  function ShellQuote(s: string): string {
    if s == [] then "''"
    else if '$' in s then "\"" + DoubleBody(s, 0) + "\""
    else if IsShellSafe(s) then s
    else "'" + SingleBody(s) + "'"
  }

  method DoubleQuote(s: string) returns (q: string)
    ensures q == "\"" + DoubleBody(s, 0) + "\""
  {
    q := "\"";
    var i := 0;
    while i < |s|
      invariant 0 <= i <= |s| && q + DoubleBody(s, i) == "\"" + DoubleBody(s, 0)
    {
      var done := q;
      if s[i] == '\\' && i + 1 < |s| && s[i + 1] == '$' {
        q := q + "\\$";
        Assoc(done, "\\$", DoubleBody(s, i + 2));
        i := i + 2;
        continue;
      }
      if s[i] == '\\' || s[i] == '"' || s[i] == '`' { q := q + "\\"; }
      q := q + [s[i]];
      assert q == done + DoubleChar(s[i]);
      Assoc(done, DoubleChar(s[i]), DoubleBody(s, i + 1));
      i := i + 1;
    }
    q := q + "\"";
  }

  function JoinQuoted(ts: seq<string>): string {
    if ts == [] then [] else if |ts| == 1 then ShellQuote(ts[0]) else ShellQuote(ts[0]) + " " + JoinQuoted(ts[1..])
  }

  // ---- a quoted word splits into itself ----

  lemma {:induction false} RunAppend(l: Lex, a: string, b: string)
    ensures Run(l, a + b) == Run(Run(l, a), b)
    decreases |a|
  {
    if a == [] {
      assert a + b == b;
    } else {
      assert (a + b)[1..] == a[1..] + b;
      RunAppend(Step(l, a[0]), a[1..], b);
    }
  }

  lemma {:induction false} SafeRuns(l: Lex, s: string)
    requires l.quote == NoQuote && !l.escaped && IsShellSafe(s) && '$' !in s
    ensures Run(l, s) == l.(buf := l.buf + s)
    decreases |s|
  {
    if s == [] {
      assert l.buf + s == l.buf;
    } else {
      assert s[0] in s && SafeChar(s[0]);
      SafeRuns(Step(l, s[0]), s[1..]);
      assert l.buf + [s[0]] + s[1..] == l.buf + s;
    }
  }

  lemma {:induction false} SingleRuns(l: Lex, s: string)
    requires l.quote == Single && !l.escaped && '$' !in s
    ensures Run(l, SingleBody(s)) == l.(buf := l.buf + s)
    decreases |s|
  {
    if s == [] {
      assert l.buf + s == l.buf;
    } else {
      var head := if s[0] == '\'' then "'\\''" else [s[0]];
      RunAppend(l, head, SingleBody(s[1..]));
      HeadRuns(l, s[0]);
      SingleRuns(l.(buf := l.buf + [s[0]]), s[1..]);
      assert l.buf + [s[0]] + s[1..] == l.buf + s;
    }
  }

  lemma HeadRuns(l: Lex, c: char)
    requires l.quote == Single && !l.escaped && c != '$'
    ensures Run(l, if c == '\'' then "'\\''" else [c]) == l.(buf := l.buf + [c])
  {
    if c == '\'' {
      var l1 := l.(quote := NoQuote);
      RunFour(l, '\'', '\\', '\'', '\'');
      assert Step(l, c) == l1 && Step(l1, '\\') == l1.(escaped := true);
    } else {
      RunOne(l, c);
    }
  }

  lemma RunOne(l: Lex, a: char)
    ensures Run(l, [a]) == Step(l, a)
  {
    assert Run(Step(l, a), []) == Step(l, a);
  }

  lemma RunTwo(l: Lex, a: char, b: char)
    ensures Run(l, [a, b]) == Step(Step(l, a), b)
  {
    assert [a, b][1..] == [b];
    RunOne(Step(l, a), b);
  }

  lemma RunFour(l: Lex, a: char, b: char, c: char, d: char)
    ensures Run(l, [a, b, c, d]) == Step(Step(Step(Step(l, a), b), c), d)
  {
    assert [a, b, c, d] == [a, b] + [c, d];
    RunAppend(l, [a, b], [c, d]);
    RunTwo(l, a, b);
    RunTwo(Run(l, [a, b]), c, d);
  }

  /** How double quotes render one character that does not begin an escaped dollar sign. */
  function DoubleChar(c: char): string {
    if c == '\\' || c == '"' || c == '`' then ['\\', c] else [c]
  }

  lemma DoubleCharRuns(l: Lex, c: char, rest: string)
    requires l.quote == Double && !l.escaped
    ensures Run(l, DoubleChar(c) + rest) == Run(l.(buf := l.buf + [c]), rest)
  {
    RunAppend(l, DoubleChar(c), rest);
    if c == '\\' || c == '"' || c == '`' { RunTwo(l, '\\', c); } else { RunOne(l, c); }
  }

  lemma DollarRuns(l: Lex, rest: string)
    requires l.quote == Double && !l.escaped
    ensures Run(l, "\\$" + rest) == Run(l.(buf := l.buf + "\\$"), rest)
  {
    RunAppend(l, "\\$", rest);
    RunTwo(l, '\\', '$');
  }

  /** The state after more text has been added to the word. */
  function With(l: Lex, text: string): Lex { l.(buf := l.buf + text) }

  lemma WithTwice(l: Lex, a: string, b: string)
    ensures With(With(l, a), b) == With(l, a + b)
  {
    Assoc(l.buf, a, b);
  }

  lemma Sliced(s: string, i: nat, j: nat)
    requires i <= j <= |s|
    ensures s[i..] == s[i..j] + s[j..]
  {
  }

  /** How many characters of the word one piece of its rendering stands for. */
  function Piece(s: string, i: nat): nat
    requires i < |s|
    ensures i + Piece(s, i) <= |s| && Piece(s, i) > 0
  {
    if s[i] == '\\' && i + 1 < |s| && s[i + 1] == '$' then 2 else 1
  }

  lemma PieceRuns(l: Lex, s: string, i: nat, rest: string)
    requires l.quote == Double && !l.escaped && i < |s| && rest == DoubleBody(s, i + Piece(s, i))
    ensures Run(l, DoubleBody(s, i)) == Run(With(l, s[i..i + Piece(s, i)]), rest)
  {
    if Piece(s, i) == 2 {
      assert s[i..i + 2] == "\\$";
      DollarRuns(l, rest);
    } else {
      assert s[i..i + 1] == [s[i]];
      DoubleCharRuns(l, s[i], rest);
    }
  }

  lemma {:induction false} DoubleRuns(l: Lex, s: string, i: nat)
    requires l.quote == Double && !l.escaped && i <= |s|
    ensures Run(l, DoubleBody(s, i)) == With(l, s[i..])
    decreases |s| - i
  {
    if i == |s| {
      assert l.buf + s[i..] == l.buf;
    } else {
      var j := i + Piece(s, i);
      PieceRuns(l, s, i, DoubleBody(s, j));
      DoubleRuns(With(l, s[i..j]), s, j);
      WithTwice(l, s[i..j], s[j..]);
      Sliced(s, i, j);
    }
  }

  /** Whatever quotes it gets, a quoted word adds itself to the word being read and nothing else. */
  lemma QuoteRuns(l: Lex, s: string)
    requires l.quote == NoQuote && !l.escaped
    ensures Run(l, ShellQuote(s)) == l.(buf := l.buf + s)
  {
    if s == [] {
      RunTwo(l, '\'', '\'');
      assert l.buf + s == l.buf;
    } else if '$' in s {
      Bracketed(l, '"', DoubleBody(s, 0));
      DoubleRuns(l.(quote := Double), s, 0);
    } else if IsShellSafe(s) {
      SafeRuns(l, s);
    } else {
      Bracketed(l, '\'', SingleBody(s));
      SingleRuns(l.(quote := Single), s);
    }
  }

  lemma Bracketed(l: Lex, q: char, body: string)
    ensures Run(l, [q] + body + [q]) == Step(Run(Step(l, q), body), q)
  {
    RunAppend(l, [q] + body, [q]);
    RunAppend(l, [q], body);
    RunOne(l, q);
    RunOne(Run(l, [q] + body), q);
  }

  function AsField(t: string): seq<string> { if t == [] then [] else [t] }

  function NonEmpty(ts: seq<string>): seq<string> {
    if ts == [] then [] else AsField(ts[0]) + NonEmpty(ts[1..])
  }

  predicate AllNonEmpty(ts: seq<string>) { forall i :: 0 <= i < |ts| ==> |ts[i]| > 0 }

  lemma LastWordRuns(l: Lex, t: string)
    requires l.quote == NoQuote && !l.escaped && l.buf == []
    ensures Finish(Run(l, ShellQuote(t))) == l.fields + AsField(t)
  {
    QuoteRuns(l, t);
    assert l.buf + t == t;
  }

  lemma WordRuns(l: Lex, t: string, rest: string)
    requires l.quote == NoQuote && !l.escaped && l.buf == []
    ensures Run(l, ShellQuote(t) + " " + rest) == Run(l.(fields := l.fields + AsField(t)), rest)
  {
    RunAppend(l, ShellQuote(t) + " ", rest);
    RunAppend(l, ShellQuote(t), " ");
    QuoteRuns(l, t);
    assert l.buf + t == t;
    RunOne(l.(buf := t), ' ');
    assert l.fields + [] == l.fields;
  }

  lemma Assoc<T>(a: seq<T>, b: seq<T>, c: seq<T>)
    ensures a + b + c == a + (b + c)
  {
  }

  lemma {:induction false} JoinRuns(l: Lex, ts: seq<string>)
    requires l.quote == NoQuote && !l.escaped && l.buf == [] && ts != []
    ensures Finish(Run(l, JoinQuoted(ts))) == l.fields + NonEmpty(ts)
    decreases |ts|
  {
    var first, rest := AsField(ts[0]), ts[1..];
    var m := l.(fields := l.fields + first);
    Assoc(l.fields, first, NonEmpty(rest));
    if rest == [] {
      LastWordRuns(l, ts[0]);
      assert first + NonEmpty(rest) == first;
    } else {
      var joined := JoinQuoted(rest);
      WordRuns(l, ts[0], joined);
      JoinRuns(m, rest);
      assert JoinQuoted(ts) == ShellQuote(ts[0]) + " " + joined;
    }
  }

  /** Splitting the quoted words, joined by spaces, gives the words back; empty ones vanish. */
  lemma SplitJoin(ts: seq<string>)
    ensures Fields(JoinQuoted(ts)) == NonEmpty(ts)
  {
    if ts != [] { JoinRuns(START, ts); }
    assert START.fields + NonEmpty(ts) == NonEmpty(ts);
  }

  lemma {:induction false} NonEmptyId(ts: seq<string>)
    requires AllNonEmpty(ts)
    ensures NonEmpty(ts) == ts
  {
    if ts != [] {
      NonEmptyId(ts[1..]);
      assert AsField(ts[0]) == [ts[0]];
    }
  }

  /** So a list of non-empty words comes back exactly. */
  lemma SplitJoinExact(ts: seq<string>)
    requires AllNonEmpty(ts)
    ensures Fields(JoinQuoted(ts)) == ts
  {
    SplitJoin(ts);
    NonEmptyId(ts);
  }

  lemma {:induction false} RunKeepsNonEmpty(l: Lex, s: string)
    requires AllNonEmpty(l.fields)
    ensures AllNonEmpty(Run(l, s).fields)
    decreases |s|
  {
    if s != [] { RunKeepsNonEmpty(Step(l, s[0]), s[1..]); }
  }

  /** Splitting yields no empty field, so splitting, quoting and splitting again changes nothing. */
  lemma SplitIsStable(s: string)
    ensures AllNonEmpty(Fields(s)) && Fields(JoinQuoted(Fields(s))) == Fields(s)
  {
    RunKeepsNonEmpty(START, s);
    SplitJoinExact(Fields(s));
  }

  // ---- batch mode ----

  predicate NamesBatchMode(w: string) { w == "batchmode" || HasPrefix(w, "batchmode=") }

  predicate IsBatchModeOption(opt: string) { NamesBatchMode(Word(ToLower(TrimSpace(opt)))) }

  predicate IsDashO(tok: string) { ToLower(tok) == "-o" }

  predicate IsJoined(tok: string) { HasPrefix(ToLower(tok), "-obatchmode=") }

  /** "-o" and its option in one token.  The filter looks for the form with "=" and no space only. */
  predicate IsAttached(tok: string) { |tok| > 2 && tok[0] == '-' && LowerChar(tok[1]) == 'o' && IsBatchModeOption(tok[2..]) }

  lemma WordHead(s: string)
    ensures Word(s) == [] || (s != [] && Word(s)[0] == s[0])
  {
  }

  /** A word with another head than the option's name is no batch-mode option. */
  lemma OtherHead(w: string)
    requires w == [] || w[0] == '-'
    ensures w != "batchmode" && !HasPrefix(w, "batchmode=")
  {
    if w != [] {
      assert "batchmode"[0] == 'b' && "batchmode="[0] == 'b';
    }
  }

  lemma DashHeadIsNoOption(tok: string)
    requires tok != [] && tok[0] == '-'
    ensures !IsBatchModeOption(tok)
  {
    var t := TrimSpace(tok);
    assert TrimLeft(tok) == tok && t == TrimRight(tok) && t == tok[..|t|];
    if t != [] { assert ToLower(t)[0] == LowerChar(tok[0]); }
    WordHead(ToLower(t));
    OtherHead(Word(ToLower(t)));
  }

  lemma DashOIsNoOption(tok: string)
    requires IsDashO(tok)
    ensures !IsBatchModeOption(tok)
  {
    assert ToLower(tok)[0] == LowerChar(tok[0]);
    DashHeadIsNoOption(tok);
  }

  function KindOf(tok: string): Kind {
    if IsDashO(tok) then DashO else if IsJoined(tok) then Joined else if IsAttached(tok) then Attached
    else if IsBatchModeOption(tok) then Sets else Other
  }

  lemma JoinedHead(tok: string)
    requires IsJoined(tok)
    ensures |tok| >= 12 && tok[0] == '-'
  {
    assert |"-obatchmode="| == 12 && ToLower(tok)[0] == "-obatchmode="[0];
  }

  lemma KindsAreApart(tok: string)
    ensures IsDashO(tok) <==> KindOf(tok) == DashO
    ensures IsJoined(tok) <==> KindOf(tok) == Joined
    ensures IsAttached(tok) && !IsJoined(tok) <==> KindOf(tok) == Attached
    ensures IsBatchModeOption(tok) <==> KindOf(tok) == Sets
  {
    if IsDashO(tok) { DashOIsNoOption(tok); assert |tok| == 2; }
    if IsJoined(tok) {
      JoinedHead(tok);
      DashHeadIsNoOption(tok);
    }
    if IsAttached(tok) { DashHeadIsNoOption(tok); }
  }

  function Kinds(tokens: seq<string>): (ks: seq<Kind>)
    ensures |ks| == |tokens|
  {
    if tokens == [] then [] else [KindOf(tokens[0])] + Kinds(tokens[1..])
  }

  lemma {:induction false} KindAt(tokens: seq<string>, i: nat)
    requires i < |tokens|
    ensures Kinds(tokens)[i] == KindOf(tokens[i])
  {
    if i > 0 { KindAt(tokens[1..], i - 1); }
  }

  /** The tokens that stay. */
  function Kept(tokens: seq<string>): seq<string> { Scan(tokens, Kinds(tokens), 0) }

  function BatchTokens(existing: string): seq<string> {
    if TrimSpace(existing) == [] then ["ssh", "-o", "BatchMode=yes"]
    else
      var kept := Kept(Fields(TrimSpace(existing)));
      (if kept == [] then ["ssh"] else kept) + ["-o", "BatchMode=yes"]
  }

  method PairAt(tokens: seq<string>, ghost ks: seq<Kind>, i: nat) returns (pair: bool)
    requires ks == Kinds(tokens) && i < |tokens|
    ensures pair <==> Introduces(ks, i)
  {
    KindAt(tokens, i);
    KindsAreApart(tokens[i]);
    if i + 1 < |tokens| {
      KindAt(tokens, i + 1);
      KindsAreApart(tokens[i + 1]);
    }
    pair := IsDashO(tokens[i]) && i + 1 < |tokens| && IsBatchModeOption(tokens[i + 1]);
  }

  method JoinedAt(tokens: seq<string>, ghost ks: seq<Kind>, i: nat) returns (joined: bool)
    requires ks == Kinds(tokens) && i < |tokens|
    ensures joined <==> ks[i] == Joined
  {
    KindAt(tokens, i);
    KindsAreApart(tokens[i]);
    joined := IsJoined(tokens[i]);
  }

  method FilterBatchMode(tokens: seq<string>) returns (filtered: seq<string>)
    ensures filtered == Kept(tokens)
  {
    filtered := [];
    ghost var ks := Kinds(tokens);
    var i := 0;
    while i < |tokens|
      invariant 0 <= i <= |tokens| && filtered + Scan(tokens, ks, i) == Scan(tokens, ks, 0)
    {
      var pair := PairAt(tokens, ks, i);
      if pair {
        i := i + 2;
        continue;
      }
      var joined := JoinedAt(tokens, ks, i);
      if !joined { filtered := filtered + [tokens[i]]; }
      i := i + 1;
    }
  }

  /** The command splits into the input's tokens, less its batch-mode options, or "ssh" if none is left,
      and then the option that turns batch mode on. */
  method SshBatchModeCommand(existing: string) returns (command: string)
    ensures Fields(command) == BatchTokens(existing)
  {
    var trimmed := TrimSpace(existing);
    if trimmed == "" {
      PlainCommand();
      return "ssh -o BatchMode=yes";
    }
    var tokens := SplitShellFields(trimmed);
    var filtered := FilterBatchMode(tokens);
    SplitIsStable(trimmed);
    KeptAreTokens(tokens, Kinds(tokens), 0);
    if |filtered| == 0 { filtered := ["ssh"]; }
    filtered := filtered + ["-o", "BatchMode=yes"];
    SplitJoinExact(filtered);
    command := JoinQuoted(filtered);
  }

  lemma {:induction false} KeptAreTokens(tokens: seq<string>, ks: seq<Kind>, i: nat)
    requires AllNonEmpty(tokens) && |ks| == |tokens|
    ensures AllNonEmpty(Scan(tokens, ks, i))
    decreases |tokens| - i
  {
    if i < |tokens| {
      KeptAreTokens(tokens, ks, i + 1);
      KeptAreTokens(tokens, ks, i + 2);
    }
  }

  lemma SafeWord(s: string)
    requires s != [] && IsShellSafe(s) && '$' !in s
    ensures ShellQuote(s) == s
  {
  }

  lemma PlainCommand()
    ensures Fields("ssh -o BatchMode=yes") == ["ssh", "-o", "BatchMode=yes"]
  {
    var ts := ["ssh", "-o", "BatchMode=yes"];
    SafeWord("ssh");
    SafeWord("-o");
    SafeWord("BatchMode=yes");
    JoinThree("ssh", "-o", "BatchMode=yes");
    assert "ssh" + " " + ("-o" + " " + "BatchMode=yes") == "ssh -o BatchMode=yes";
    SplitJoinExact(ts);
  }

  lemma JoinThree(a: string, b: string, c: string)
    ensures JoinQuoted([a, b, c]) == ShellQuote(a) + " " + (ShellQuote(b) + " " + ShellQuote(c))
  {
    assert [a, b, c][1..] == [b, c] && [b, c][1..] == [c];
    assert JoinQuoted([c]) == ShellQuote(c);
    assert JoinQuoted([b, c]) == ShellQuote(b) + " " + JoinQuoted([c]);
  }

  // ---- which tokens go, and what can be left behind ----

  lemma {:induction false} StayingKinds(tokens: seq<string>, ks: seq<Kind>, go: seq<bool>, from: nat)
    requires from <= |tokens| == |ks| == |go| && ks == Kinds(tokens)
    ensures Kinds(Staying(tokens, go, from)) == Staying(ks, go, from)
    decreases |tokens| - from
  {
    if from < |tokens| {
      StayingKinds(tokens, ks, go, from + 1);
      KindAt(tokens, from);
      KindsCons(tokens[from], Staying(tokens, go, from + 1));
    }
  }

  lemma KindsCons(tok: string, rest: seq<string>)
    ensures Kinds([tok] + rest) == [KindOf(tok)] + Kinds(rest)
  {
    assert ([tok] + rest)[1..] == rest;
  }

  /** The filter leaves a batch-mode option of the caller's in the command exactly when some token joins
      one to its "-o" in another way than the filter looks for, or a "-o" that stays meets an option that
      stays, because all that stood between them went.  Options behind a cluster of flags, as in "-vo", are
      not counted. */
  lemma FilterLeaves(tokens: seq<string>)
    ensures SetsBatchMode(Kinds(Kept(tokens))) <==>
      (exists t :: t in tokens && IsAttached(t) && !IsJoined(t)) || exists i, j :: Meets(Kinds(tokens), Going(Kinds(tokens)), i, j)
  {
    var ks, go := Kinds(tokens), Going(Kinds(tokens));
    ScanIsLocal(tokens, ks, go, 0);
    StayingKinds(tokens, ks, go, 0);
    LeftBehind(ks, go, 0);
    AttachedStay(tokens, ks, go);
  }

  lemma AttachedStay(tokens: seq<string>, ks: seq<Kind>, go: seq<bool>)
    requires ks == Kinds(tokens) && go == Going(ks)
    ensures (exists i: nat :: WholeStays(ks, go, i)) <==> exists t :: t in tokens && IsAttached(t) && !IsJoined(t)
  {
    forall i | 0 <= i < |ks| ensures WholeStays(ks, go, i) <==> IsAttached(tokens[i]) && !IsJoined(tokens[i]) {
      KindAt(tokens, i);
      KindsAreApart(tokens[i]);
    }
  }

  /** As it does for any "-o", once more "-o", and two batch-mode options. */
  lemma TwiceLeavesOne(tokens: seq<string>, ks: seq<Kind>, kept: seq<string>)
    requires |tokens| == 4 && ks == [DashO, DashO, Sets, Sets] && kept == [tokens[0], tokens[3]]
    requires forall i :: 0 <= i < 4 ==> KindOf(tokens[i]) == ks[i]
    ensures Kept(tokens) == kept && SetsBatchMode(Kinds(kept))
  {
    FourKinds(tokens, ks);
    FourGo();
    FromStart(tokens, ks, [false, true, true, false]);
    LeavesTwo(tokens);
    TwoKinds(kept);
  }

  lemma FourKinds(tokens: seq<string>, ks: seq<Kind>)
    requires |tokens| == 4 == |ks| && forall i :: 0 <= i < 4 ==> KindOf(tokens[i]) == ks[i]
    ensures Kinds(tokens) == ks
  {
    forall i | 0 <= i < 4 ensures Kinds(tokens)[i] == ks[i] { KindAt(tokens, i); }
  }

  lemma TwoKinds(kept: seq<string>)
    requires |kept| == 2 && KindOf(kept[0]) == DashO && KindOf(kept[1]) == Sets
    ensures SetsBatchMode(Kinds(kept))
  {
    KindAt(kept, 0);
    KindAt(kept, 1);
    assert Introduces(Kinds(kept), 0);
  }

  lemma FromStart(tokens: seq<string>, ks: seq<Kind>, go: seq<bool>)
    requires ks == Kinds(tokens) && go == Going(ks)
    ensures Kept(tokens) == Staying(tokens, go, 0)
  {
    ScanIsLocal(tokens, ks, go, 0);
  }

  /** "-o -o batchmode=no batchmode=no" comes out as "-o batchmode=no". */
  lemma FilterCanLeave(o: string, no: string)
    requires o == "-o" && no == "batchmode=no"
    ensures Kept([o, o, no, no]) == [o, no] && SetsBatchMode(Kinds([o, no]))
  {
    DashOIs(o);
    PlainOption(no);
    OptionIs(no);
    KindsAreApart(no);
    TwiceLeavesOne([o, o, no, no], [DashO, DashO, Sets, Sets], [o, no]);
  }

  lemma AttachedStays(tok: string, rest: string)
    requires tok == ['-', 'o'] + rest && IsBatchModeOption(rest) && !HasPrefix(ToLower(rest), "batchmode=")
    ensures Kept([tok]) == [tok] && SetsBatchMode(Kinds([tok]))
  {
    assert tok[2..] == rest;
    NotJoined(tok, rest);
    KindsAreApart(tok);
    KindAt([tok], 0);
    OneStays([tok], Kinds([tok]));
  }

  lemma {:induction false} WordBeforeSpace(w: string, tail: string)
    requires Plain(w) && tail != [] && IsSpace(tail[0])
    ensures Word(w + tail) == w
  {
    if w == [] {
      assert w + tail == tail;
    } else {
      PlainCharIs(w[0]);
      assert (w + tail)[1..] == w[1..] + tail;
      WordBeforeSpace(w[1..], tail);
      assert [w[0]] + w[1..] == w;
    }
  }

  lemma OptionWithSpace(rest: string, lower: string)
    requires rest == "BatchMode no" && lower == "batchmode" + " no"
    ensures TrimSpace(rest) == rest && ToLower(rest) == lower
  {
    assert rest[0] == 'B' && rest[|rest| - 1] == 'o';
    assert TrimLeft(rest) == rest;
    assert |rest| == |lower| == 12;
    forall i | 0 <= i < 12 ensures ToLower(rest)[i] == lower[i] {
      assert LowerChar(rest[i]) == lower[i];
    }
  }

  lemma NoEquals(lower: string)
    requires lower == "batchmode" + " no"
    ensures !HasPrefix(lower, "batchmode=")
  {
    assert lower[9] == ' ' && "batchmode="[9] == '=';
  }

  lemma OptionOfParts(rest: string, name: string, tail: string)
    requires TrimSpace(rest) == rest && ToLower(rest) == name + tail
    requires Plain(name) && NamesBatchMode(name) && tail != [] && IsSpace(tail[0])
    ensures IsBatchModeOption(rest)
  {
    WordBeforeSpace(name, tail);
  }

  lemma SpacedParts(rest: string, name: string, tail: string)
    requires rest == "BatchMode no" && name == "batchmode" && tail == " no"
    ensures TrimSpace(rest) == rest && ToLower(rest) == name + tail
  {
    OptionWithSpace(rest, name + tail);
  }

  lemma SpacedNoEquals(rest: string, name: string, tail: string)
    requires name == "batchmode" && tail == " no" && ToLower(rest) == name + tail
    ensures !HasPrefix(ToLower(rest), "batchmode=")
  {
    NoEquals(name + tail);
  }

  lemma TailIs(tail: string)
    requires tail == " no"
    ensures tail != [] && IsSpace(tail[0])
  {
  }

  /** "-oBatchMode no" as one token stays, and ssh does what it says. */
  lemma FilterKeepsAttached(tok: string, rest: string, name: string, tail: string)
    requires rest == "BatchMode no" && tok == ['-', 'o'] + rest && name == "batchmode" && tail == " no"
    ensures Kept([tok]) == [tok] && SetsBatchMode(Kinds([tok]))
  {
    SpacedParts(rest, name, tail);
    SpacedNoEquals(rest, name, tail);
    PlainName(name);
    TailIs(tail);
    AttachedPartsStay(tok, rest, name, tail);
  }

  lemma AttachedPartsStay(tok: string, rest: string, name: string, tail: string)
    requires tok == ['-', 'o'] + rest && TrimSpace(rest) == rest && ToLower(rest) == name + tail
    requires Plain(name) && NamesBatchMode(name) && tail != [] && IsSpace(tail[0]) && !HasPrefix(ToLower(rest), "batchmode=")
    ensures Kept([tok]) == [tok] && SetsBatchMode(Kinds([tok]))
  {
    OptionOfParts(rest, name, tail);
    AttachedStays(tok, rest);
  }

  lemma PlainName(w: string)
    requires w == "batchmode"
    ensures Plain(w) && NamesBatchMode(w)
  {
  }

  lemma NotJoined(tok: string, rest: string)
    requires tok == ['-', 'o'] + rest && !HasPrefix(ToLower(rest), "batchmode=") && rest != []
    ensures !IsJoined(tok) && IsAttached(tok) == IsBatchModeOption(rest)
  {
    assert tok[2..] == rest;
    assert ToLower(tok)[2..] == ToLower(rest);
  }

  predicate PlainChar(c: char) { 'a' <= c <= 'z' || c == '=' }

  predicate Plain(s: string) {
    forall i :: 0 <= i < |s| ==> PlainChar(s[i])
  }

  lemma PlainCharIs(c: char)
    requires PlainChar(c)
    ensures !IsSpace(c) && LowerChar(c) == c
  {
  }

  lemma DashOIs(tok: string)
    requires tok == "-o"
    ensures KindOf(tok) == DashO
  {
    assert ToLower(tok) == tok;
  }

  lemma OptionIs(no: string)
    requires Plain(no) && no != [] && NamesBatchMode(no)
    ensures IsBatchModeOption(no)
  {
    PlainTrim(no);
    PlainLower(no);
    PlainWord(no);
  }

  lemma PlainOption(no: string)
    requires no == "batchmode=no"
    ensures Plain(no) && NamesBatchMode(no)
  {
    assert no == "batchmode=" + "no";
  }

  lemma PlainTrim(s: string)
    requires Plain(s) && s != []
    ensures TrimSpace(s) == s
  {
    PlainCharIs(s[0]);
    PlainCharIs(s[|s| - 1]);
    assert TrimLeft(s) == s;
  }

  lemma PlainLower(s: string)
    requires Plain(s)
    ensures ToLower(s) == s
  {
    forall i | 0 <= i < |s| ensures ToLower(s)[i] == s[i] { PlainCharIs(s[i]); }
  }

  lemma {:induction false} PlainWord(s: string)
    requires Plain(s)
    ensures Word(s) == s
  {
    if s != [] {
      PlainCharIs(s[0]);
      assert forall i :: 0 <= i < |s[1..]| ==> s[1..][i] == s[i + 1];
      PlainWord(s[1..]);
      assert s == [s[0]] + s[1..];
    }
  }
}

/** What the filter does to a list of tokens, seen through their kinds alone. */
module TokenKinds {

  datatype Kind = DashO | Joined | Attached | Sets | Other

  /** A token that sets an option all by itself. */
  predicate Whole(k: Kind) { k == Joined || k == Attached }

  predicate Introduces(ks: seq<Kind>, i: nat) {
    i + 1 < |ks| && ks[i] == DashO && ks[i + 1] == Sets
  }

  /** A joined token goes, a "-o" that introduces a batch-mode option, and the option so introduced. */
  function Going(ks: seq<Kind>): (go: seq<bool>)
    ensures |go| == |ks|
    ensures forall i :: 0 <= i < |ks| ==> go[i] == (Introduces(ks, i) || (i > 0 && Introduces(ks, i - 1)) || ks[i] == Joined)
  {
    seq(|ks|, i requires 0 <= i < |ks| => Introduces(ks, i) || (i > 0 && Introduces(ks, i - 1)) || ks[i] == Joined)
  }

  function Staying<T>(ts: seq<T>, go: seq<bool>, from: nat): (r: seq<T>)
    requires from <= |ts| == |go|
    decreases |ts| - from
  {
    if from == |ts| then []
    else if go[from] then Staying(ts, go, from + 1)
    else [ts[from]] + Staying(ts, go, from + 1)
  }

  /** The filter's scan: a "-o" and the option after it are skipped together. */
  function Scan<T>(ts: seq<T>, ks: seq<Kind>, i: nat): seq<T>
    requires |ts| == |ks|
    decreases |ts| - i
  {
    if i >= |ts| then []
    else if Introduces(ks, i) then Scan(ts, ks, i + 2)
    else if ks[i] == Joined then Scan(ts, ks, i + 1)
    else [ts[i]] + Scan(ts, ks, i + 1)
  }

  lemma SkipsTwo<T>(ts: seq<T>, go: seq<bool>, from: nat)
    requires from + 1 < |ts| == |go| && go[from] && go[from + 1]
    ensures Staying(ts, go, from) == Staying(ts, go, from + 2)
  {
    assert Staying(ts, go, from) == Staying(ts, go, from + 1);
  }

  lemma GoesHere(ks: seq<Kind>, go: seq<bool>, from: nat)
    requires from < |ks| && go == Going(ks) && (from == 0 || !Introduces(ks, from - 1))
    ensures go[from] == (Introduces(ks, from) || ks[from] == Joined)
    ensures Introduces(ks, from) ==> go[from + 1] && !Introduces(ks, from + 1)
  {
  }

  lemma StepsOne<T>(ts: seq<T>, ks: seq<Kind>, go: seq<bool>, from: nat)
    requires from < |ts| == |ks| == |go| && !Introduces(ks, from) && go[from] == (ks[from] == Joined)
    requires Scan(ts, ks, from + 1) == Staying(ts, go, from + 1)
    ensures Scan(ts, ks, from) == Staying(ts, go, from)
  {
  }

  /** The scan decides locally. */
  lemma {:induction false} ScanIsLocal<T>(ts: seq<T>, ks: seq<Kind>, go: seq<bool>, from: nat)
    requires from <= |ts| == |ks| && go == Going(ks) && (from == 0 || !Introduces(ks, from - 1))
    ensures Scan(ts, ks, from) == Staying(ts, go, from)
    decreases |ts| - from
  {
    if from < |ts| {
      GoesHere(ks, go, from);
      if Introduces(ks, from) {
        ScanIsLocal(ts, ks, go, from + 2);
        SkipsTwo(ts, go, from);
      } else {
        ScanIsLocal(ts, ks, go, from + 1);
        StepsOne(ts, ks, go, from);
      }
    }
  }

  /** The list sets a batch-mode option. */
  predicate SetsBatchMode(ks: seq<Kind>) {
    exists i :: 0 <= i < |ks| && (Whole(ks[i]) || Introduces(ks, i))
  }

  predicate AllGo(go: seq<bool>, from: nat, to: nat)
    requires to <= |go|
  {
    forall k :: from <= k < to ==> go[k]
  }

  /** A "-o" that stays, then only tokens that go, then a batch-mode option that stays. */
  predicate Meets(ks: seq<Kind>, go: seq<bool>, i: nat, j: nat)
    requires |go| == |ks|
  {
    i < j < |ks| && !go[i] && !go[j] && AllGo(go, i + 1, j) && ks[i] == DashO && ks[j] == Sets
  }

  lemma {:induction false} NextStaying<T>(ts: seq<T>, go: seq<bool>, from: nat) returns (j: nat)
    requires from <= |ts| == |go|
    ensures from <= j <= |ts| && AllGo(go, from, j) && (j < |ts| ==> !go[j])
    ensures Staying(ts, go, from) == if j == |ts| then [] else [ts[j]] + Staying(ts, go, j + 1)
    decreases |ts| - from
  {
    if from == |ts| || !go[from] {
      j := from;
    } else {
      j := NextStaying(ts, go, from + 1);
    }
  }

  lemma Shifted(k: Kind, rest: seq<Kind>)
    ensures SetsBatchMode([k] + rest) <==> Whole(k) || SetsBatchMode(rest) || (rest != [] && k == DashO && rest[0] == Sets)
  {
    var ts := [k] + rest;
    forall i | 0 <= i < |rest| ensures rest[i] == ts[i + 1] && (Introduces(rest, i) <==> Introduces(ts, i + 1)) {}
    if SetsBatchMode(rest) {
      var i :| 0 <= i < |rest| && (Whole(rest[i]) || Introduces(rest, i));
      assert Whole(ts[i + 1]) || Introduces(ts, i + 1);
    }
    if SetsBatchMode(ts) {
      var i :| 0 <= i < |ts| && (Whole(ts[i]) || Introduces(ts, i));
      assert i > 0 ==> Whole(rest[i - 1]) || Introduces(rest, i - 1);
    }
    if Whole(k) { assert Whole(ts[0]); }
    if rest != [] && k == DashO && rest[0] == Sets { assert Introduces(ts, 0); }
  }

  predicate WholeStays(ks: seq<Kind>, go: seq<bool>, i: nat)
    requires |go| == |ks|
  {
    i < |ks| && !go[i] && Whole(ks[i])
  }

  ghost predicate SomeWhole(ks: seq<Kind>, go: seq<bool>, from: nat)
    requires |go| == |ks|
  {
    exists i: nat :: from <= i && WholeStays(ks, go, i)
  }

  ghost predicate SomeMeet(ks: seq<Kind>, go: seq<bool>, from: nat)
    requires |go| == |ks|
  {
    exists i: nat, j: nat :: from <= i && Meets(ks, go, i, j)
  }

  lemma {:induction false} LeftBehind(ks: seq<Kind>, go: seq<bool>, from: nat)
    requires from <= |ks| == |go|
    ensures SetsBatchMode(Staying(ks, go, from)) <==> SomeWhole(ks, go, from) || SomeMeet(ks, go, from)
    decreases |ks| - from
  {
    if from == |ks| {
    } else if go[from] {
      LeftBehind(ks, go, from + 1);
      NothingHere(ks, go, from);
    } else {
      LeftBehind(ks, go, from + 1);
      Shifted(ks[from], Staying(ks, go, from + 1));
      var j := NextStaying(ks, go, from + 1);
      OnlyNext(ks, go, from, j);
      WholeSplits(ks, go, from);
      MeetSplits(ks, go, from, j);
    }
  }

  lemma NothingHere(ks: seq<Kind>, go: seq<bool>, from: nat)
    requires from < |ks| == |go| && go[from]
    ensures SomeWhole(ks, go, from) == SomeWhole(ks, go, from + 1) && SomeMeet(ks, go, from) == SomeMeet(ks, go, from + 1)
  {
    assert !WholeStays(ks, go, from) && forall k: nat :: !Meets(ks, go, from, k);
  }

  lemma WholeSplits(ks: seq<Kind>, go: seq<bool>, from: nat)
    requires from < |ks| == |go| && !go[from]
    ensures SomeWhole(ks, go, from) <==> Whole(ks[from]) || SomeWhole(ks, go, from + 1)
  {
    assert WholeStays(ks, go, from) <==> Whole(ks[from]);
  }

  lemma MeetSplits(ks: seq<Kind>, go: seq<bool>, from: nat, j: nat)
    requires from < j <= |ks| == |go| && !go[from] && AllGo(go, from + 1, j) && (j < |ks| ==> !go[j])
    requires forall k: nat :: Meets(ks, go, from, k) ==> k == j
    ensures SomeMeet(ks, go, from) <==> (j < |ks| && ks[from] == DashO && ks[j] == Sets) || SomeMeet(ks, go, from + 1)
  {
    assert j < |ks| && ks[from] == DashO && ks[j] == Sets ==> Meets(ks, go, from, j);
    if i: nat, k: nat :| from <= i && Meets(ks, go, i, k) {
      assert i == from ==> k == j;
    }
  }

  /** A token that stays can only meet the next one that does. */
  lemma OnlyNext(ks: seq<Kind>, go: seq<bool>, i: nat, j: nat)
    requires i < j <= |ks| == |go| && AllGo(go, i + 1, j) && (j < |ks| ==> !go[j])
    ensures forall k: nat :: Meets(ks, go, i, k) ==> k == j
  {
  }

  lemma FourGo()
    ensures Going([DashO, DashO, Sets, Sets]) == [false, true, true, false]
  {
    var ks := [DashO, DashO, Sets, Sets];
    assert !Introduces(ks, 0) && Introduces(ks, 1) && !Introduces(ks, 2) && !Introduces(ks, 3);
  }

  lemma LeavesTwo<T>(ts: seq<T>)
    requires |ts| == 4
    ensures Staying(ts, [false, true, true, false], 0) == [ts[0], ts[3]]
  {
    var go := [false, true, true, false];
    assert Staying(ts, go, 4) == [];
    assert Staying(ts, go, 3) == [ts[3]];
    assert Staying(ts, go, 2) == [ts[3]];
    assert Staying(ts, go, 1) == [ts[3]];
  }

  lemma OneStays<T>(ts: seq<T>, ks: seq<Kind>)
    requires |ts| == 1 && ks == [Attached]
    ensures Scan(ts, ks, 0) == ts && SetsBatchMode(ks)
  {
    assert !Introduces(ks, 0) && Whole(ks[0]);
    assert Scan(ts, ks, 1) == [];
  }
}
