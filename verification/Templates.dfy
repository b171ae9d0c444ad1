/** Message templates: which placeholders a body has, and what rendering puts in their
    place. The renderer replaces one variable after another; on a body whose braces all
    belong to placeholders that is the same as replacing them all at once. */
module Templates {
  import opened Lists

  // ---------- placeholders ----------

  predicate IsWordChar(c: char) {
    '0' <= c <= '9' || 'A' <= c <= 'Z' || 'a' <= c <= 'z' || c == '_'
  }

  /** By code point: the ten digits, the two alphabets and the underscore, 63 in all. */
  lemma WordCharsAre(c: char)
    ensures IsWordChar(c) <==> var n := c as int; n in {95} || 48 <= n < 48 + 10 || 65 <= n < 65 + 26 || 97 <= n < 97 + 26
  {
  }

  predicate IsWord(s: string) {
    s != "" && forall i | 0 <= i < |s| :: IsWordChar(s[i])
  }

  function Placeholder(name: string): string {
    "{" + name + "}"
  }

  /** How many word characters `s` starts with. */
  function WordRun(s: string): (n: nat)
    ensures n <= |s|
    ensures forall i | 0 <= i < n :: IsWordChar(s[i])
    ensures n < |s| ==> !IsWordChar(s[n])
  {
    if s != "" && IsWordChar(s[0]) then 1 + WordRun(s[1..]) else 0
  }

  /** The length of the `{word}` that `s` starts with, or 0. */
  function MatchAt(s: string): (k: nat)
    ensures k <= |s| && (k == 0 || k >= 3)
    ensures k > 0 ==> IsWord(s[1..k - 1]) && s[..k] == Placeholder(s[1..k - 1])
  {
    if s == "" || s[0] != '{' then 0
    else
      var n := WordRun(s[1..]);
      if n > 0 && n + 1 < |s| && s[n + 1] == '}' then
        assert forall i | 0 <= i < n :: s[1..n + 1][i] == s[1..][i];
        n + 2
      else 0
  }

  datatype Token = Lit(c: char) | Var(name: string)

  /** The leftmost matches of the placeholder pattern, and the characters between them. */
  function Tokenize(s: string): seq<Token>
    decreases |s|
  {
    if s == "" then []
    else
      var k := MatchAt(s);
      if k > 0 then [Var(s[1..k - 1])] + Tokenize(s[k..]) else [Lit(s[0])] + Tokenize(s[1..])
  }

  function Show(t: Token): string {
    match t
    case Lit(c) => [c]
    case Var(n) => Placeholder(n)
  }

  function Flatten(toks: seq<Token>): string {
    if toks == [] then "" else Show(toks[0]) + Flatten(toks[1..])
  }

  /** The placeholder names, in order, repetitions included. */
  function Names(toks: seq<Token>): seq<string> {
    if toks == [] then []
    else (if toks[0].Var? then [toks[0].name] else []) + Names(toks[1..])
  }

  /** The variables of a body: what `extractVariables` returns. */
  function Variables(body: string): seq<string> {
    Distinct(Names(Tokenize(body)))
  }

  // ---------- rendering ----------

  /** `strings.ReplaceAll`: leftmost, non-overlapping. */
  function ReplaceAll(s: string, pat: string, val: string): string
    requires pat != ""
    decreases |s|
  {
    if s == "" then ""
    else if |pat| <= |s| && s[..|pat|] == pat then val + ReplaceAll(s[|pat|..], pat, val)
    else [s[0]] + ReplaceAll(s[1..], pat, val)
  }

  /** The render loop: one variable after another, skipping those not supplied. */
  function Render(text: string, vars: seq<string>, values: map<string, string>): string
    decreases |vars|
  {
    if vars == [] then text
    else
      var v := vars[0];
      Render(if v in values then ReplaceAll(text, Placeholder(v), values[v]) else text, vars[1..], values)
  }

  function Literal(s: string): seq<Token> {
    seq(|s|, i requires 0 <= i < |s| => Lit(s[i]))
  }

  /** Every supplied placeholder replaced by its value, at once. */
  function Substitute(toks: seq<Token>, values: map<string, string>): seq<Token> {
    if toks == [] then []
    else
      (if toks[0].Var? && toks[0].name in values then Literal(values[toks[0].name]) else [toks[0]])
      + Substitute(toks[1..], values)
  }

  /** The brace `c` occurs in placeholders only, and placeholders hold words. */
  predicate Clear(toks: seq<Token>, c: char) {
    forall i | 0 <= i < |toks| :: TokenOk(toks[i], c)
  }

  predicate TokenOk(t: Token, c: char) {
    t != Lit(c) && (t.Var? ==> IsWord(t.name))
  }

  predicate IsBrace(c: char) {
    c == '{' || c == '}'
  }

  // ---------- scanning and showing ----------

  lemma FlattenOneMore(t: Token, toks: seq<Token>)
    ensures Flatten([t] + toks) == Show(t) + Flatten(toks)
  {
    assert ([t] + toks)[1..] == toks;
  }

  /** The first token shows what it was read from. */
  lemma FirstToken(s: string) returns (t: Token, n: nat)
    requires s != ""
    ensures 0 < n <= |s| && Tokenize(s) == [t] + Tokenize(s[n..]) && Show(t) == s[..n]
    ensures if MatchAt(s) > 0 then t == Var(s[1..MatchAt(s) - 1]) else t == Lit(s[0])
  {
    var k := MatchAt(s);
    n := if k > 0 then k else 1;
    t := if k > 0 then Var(s[1..k - 1]) else Lit(s[0]);
  }

  lemma {:induction false} TokenizeLosesNothing(s: string)
    ensures Flatten(Tokenize(s)) == s
    decreases |s|
  {
    if s != "" {
      var t, n := FirstToken(s);
      TokenizeLosesNothing(s[n..]);
      ShownWhole(s, n, t, Tokenize(s[n..]));
    }
  }

  lemma ShownWhole(s: string, n: nat, t: Token, tail: seq<Token>)
    requires n <= |s| && Show(t) == s[..n] && Flatten(tail) == s[n..]
    ensures Flatten([t] + tail) == s
  {
    FlattenOneMore(t, tail);
    assert s == s[..n] + s[n..];
  }

  /** A scanned placeholder holds a word. */
  lemma {:induction false} TokenizeFindsWords(s: string)
    ensures forall t | t in Tokenize(s) && t.Var? :: IsWord(t.name)
    decreases |s|
  {
    if s != "" {
      var k := MatchAt(s);
      TokenizeFindsWords(s[if k > 0 then k else 1..]);
    }
  }

  lemma WordRunStops(n: string, rest: string)
    requires IsWord(n)
    ensures WordRun(n + "}" + rest) == |n|
  {
    var s := n + "}" + rest;
    assert s[|n|] == '}';
    assert forall i | 0 <= i < |n| :: s[i] == n[i];
  }

  /** A shown placeholder, or character other than an opening brace, is read back as
      itself, whatever follows. */
  lemma ReadBack(t: Token, rest: string)
    requires TokenOk(t, '{')
    ensures Tokenize(Show(t) + rest) == [t] + Tokenize(rest)
  {
    var s := Show(t) + rest;
    match t
    case Lit(c) =>
      assert s[1..] == rest;
    case Var(n) =>
      assert s[1..] == n + "}" + rest;
      WordRunStops(n, rest);
      assert s[|n| + 1] == '}';
      assert MatchAt(s) == |n| + 2;
      assert s[|n| + 2..] == rest && s[1..|n| + 1] == n;
  }

  /** No word and closing brace at the start. */
  predicate NoEarlyClose(s: string) {
    WordRun(s) < |s| ==> s[WordRun(s)] != '}'
  }

  lemma NoEarlyCloseAt(s: string)
    requires s != "" && s[0] != '}' && (IsWordChar(s[0]) ==> NoEarlyClose(s[1..]))
    ensures NoEarlyClose(s)
  {
  }

  /** A word and a closing brace at the start: what makes an opening brace a placeholder. */
  predicate Closes(s: string) {
    0 < WordRun(s) < |s| && s[WordRun(s)] == '}'
  }

  /** An opening brace is read back as itself when no word and closing brace follow. */
  lemma ReadBackOpen(rest: string)
    requires !Closes(rest)
    ensures Tokenize("{" + rest) == [Lit('{')] + Tokenize(rest)
  {
    var s := "{" + rest;
    assert s[1..] == rest;
    assert MatchAt(s) == 0;
  }

  lemma FlattenThen(toks: seq<Token>, rest: string)
    requires toks != []
    ensures var s := Flatten(toks) + rest;
      && s == Show(toks[0]) + (Flatten(toks[1..]) + rest)
      && s != "" && s[0] == Show(toks[0])[0]
      && (toks[0].Lit? ==> s[1..] == Flatten(toks[1..]) + rest)
  {
  }

  /** Up to its last placeholder, text without a loose closing brace has an opening brace
      before every closing one. */
  lemma {:induction false} OpenComesFirst(toks: seq<Token>, rest: string)
    requires Clear(toks, '}') && (rest == "" || (toks != [] && toks[|toks| - 1].Var?))
    ensures NoEarlyClose(Flatten(toks) + rest)
  {
    if toks == [] {
      assert Flatten(toks) + rest == "";
    } else {
      assert TokenOk(toks[0], '}');
      FlattenThen(toks, rest);
      if toks[0].Lit? && IsWordChar(toks[0].c) {
        OpenComesFirst(toks[1..], rest);
      }
      NoEarlyCloseAt(Flatten(toks) + rest);
    }
  }

  lemma Joined(read: seq<Token>, tail: seq<Token>, toks: seq<Token>, more: seq<Token>)
    requires toks != [] && read == [toks[0]] + tail && tail == toks[1..] + more
    ensures read == toks + more
  {
  }

  /** Tokens without a loose closing brace are read back up to their last placeholder. */
  lemma {:induction false} ReadBackThen(toks: seq<Token>, rest: string)
    requires Clear(toks, '}') && (rest == "" || toks == [] || toks[|toks| - 1].Var?)
    ensures Tokenize(Flatten(toks) + rest) == toks + Tokenize(rest)
  {
    if toks == [] {
      assert Flatten(toks) + rest == rest;
      assert toks + Tokenize(rest) == Tokenize(rest);
    } else {
      FlattenThen(toks, rest);
      ReadBackThen(toks[1..], rest);
      ReadBackFirst(toks, rest);
      Joined(Tokenize(Flatten(toks) + rest), Tokenize(Flatten(toks[1..]) + rest), toks, Tokenize(rest));
    }
  }

  lemma ReadBackFirst(toks: seq<Token>, rest: string)
    requires Clear(toks, '}') && toks != [] && (rest == "" || toks[|toks| - 1].Var?)
    ensures var tail := Flatten(toks[1..]) + rest; Tokenize(Show(toks[0]) + tail) == [toks[0]] + Tokenize(tail)
  {
    assert TokenOk(toks[0], '}');
    var tail := Flatten(toks[1..]) + rest;
    if toks[0] == Lit('{') {
      OpenComesFirst(toks[1..], rest);
      ReadBackOpen(tail);
    } else {
      ReadBack(toks[0], tail);
    }
  }

  /** Scanning what was shown gives the same tokens back, when one kind of brace is never
      loose. */
  lemma {:induction false} TokenizeShown(toks: seq<Token>, c: char)
    requires IsBrace(c) && Clear(toks, c)
    ensures Tokenize(Flatten(toks)) == toks
  {
    if c == '}' {
      ReadBackThen(toks, "");
      assert Flatten(toks) + "" == Flatten(toks) && toks + [] == toks;
    } else if toks != [] {
      assert TokenOk(toks[0], c);
      TokenizeShown(toks[1..], c);
      ReadBack(toks[0], Flatten(toks[1..]));
    }
  }

  // ---------- one replacement on tokens ----------

  lemma {:induction false} CopyUnbraced(p: string, rest: string, name: string, val: string)
    requires '{' !in p
    ensures ReplaceAll(p + rest, Placeholder(name), val) == p + ReplaceAll(rest, Placeholder(name), val)
  {
    if p == "" {
      assert p + rest == rest;
    } else {
      assert (p + rest)[0] == p[0] && Placeholder(name)[0] == '{';
      assert (p + rest)[1..] == p[1..] + rest;
      CopyUnbraced(p[1..], rest, name, val);
      assert p == [p[0]] + p[1..];
    }
  }

  /** A placeholder is not mistaken for another one. */
  lemma PlaceholdersDiffer(n: string, v: string, rest: string)
    requires IsWord(n) && IsWord(v) && n != v
    ensures var s := Placeholder(n) + rest; |Placeholder(v)| <= |s| ==> s[..|Placeholder(v)|] != Placeholder(v)
  {
    var s, pat := Placeholder(n) + rest, Placeholder(v);
    var i := if |n| < |v| then |n| else if |v| < |n| then |v| else FirstDifference(n, v);
    assert s[i + 1] == if i < |n| then n[i] else '}';
    assert pat[i + 1] == if i < |v| then v[i] else '}';
    assert s[i + 1] != pat[i + 1];
    if |pat| <= |s| {
      assert s[..|pat|][i + 1] != pat[i + 1];
    }
  }

  function FirstDifference(a: string, b: string): (i: nat)
    requires |a| == |b| && a != b
    ensures i < |a| && a[i] != b[i]
  {
    if a[0] != b[0] then 0 else
      assert a == [a[0]] + a[1..] && b == [b[0]] + b[1..];
      1 + FirstDifference(a[1..], b[1..])
  }

  lemma SkipPlaceholder(n: string, rest: string, v: string, val: string)
    requires IsWord(n) && IsWord(v) && n != v
    ensures ReplaceAll(Placeholder(n) + rest, Placeholder(v), val) == Placeholder(n) + ReplaceAll(rest, Placeholder(v), val)
  {
    PlaceholdersDiffer(n, v, rest);
    var s, tail := Placeholder(n) + rest, n + "}";
    assert s[0] == '{' && s[1..] == tail + rest;
    CopyUnbraced(tail, rest, v, val);
    assert Placeholder(n) == ['{'] + tail;
  }

  /** Text that starts with a placeholder is scanned as one. */
  lemma MatchFound(s: string, v: string)
    requires IsWord(v) && |Placeholder(v)| <= |s| && s[..|Placeholder(v)|] == Placeholder(v)
    ensures MatchAt(s) > 0
  {
    var rest := s[|Placeholder(v)|..];
    assert s == Placeholder(v) + rest;
    assert s[1..] == v + "}" + rest;
    WordRunStops(v, rest);
    assert s[|v| + 1] == '}';
  }

  /** Replacement treats the first token and what follows it separately. */
  lemma ReplaceFirst(s: string, t: Token, n: nat, v: string, val: string)
    requires s != "" && IsWord(v) && 0 < n <= |s| && Show(t) == s[..n]
    requires if MatchAt(s) > 0 then t == Var(s[1..MatchAt(s) - 1]) else t == Lit(s[0])
    ensures ReplaceAll(s, Placeholder(v), val) == (if t == Var(v) then val else Show(t)) + ReplaceAll(s[n..], Placeholder(v), val)
  {
    var rest := s[n..];
    assert s == Show(t) + rest;
    match t
    case Lit(c) =>
      if |Placeholder(v)| <= |s| && s[..|Placeholder(v)|] == Placeholder(v) {
        MatchFound(s, v);
      }
    case Var(name) =>
      if name == v {
        assert s[..|Placeholder(v)|] == Placeholder(v) && s[|Placeholder(v)|..] == rest;
      } else {
        SkipPlaceholder(name, rest, v, val);
      }
  }

  /** For every text: replacing a placeholder is substituting it among the text's tokens. */
  lemma {:induction false} ReplaceIsSubstitution(s: string, v: string, val: string)
    requires IsWord(v)
    ensures ReplaceAll(s, Placeholder(v), val) == Flatten(Substitute(Tokenize(s), map[v := val]))
    decreases |s|
  {
    if s != "" {
      var t, n := FirstToken(s);
      ReplaceIsSubstitution(s[n..], v, val);
      ReplaceFirst(s, t, n, v, val);
      var tail := Substitute(Tokenize(s[n..]), map[v := val]);
      assert Tokenize(s)[1..] == Tokenize(s[n..]);
      if t == Var(v) {
        FlattenLiteral(val);
        FlattenAppend(Literal(val), tail);
      } else {
        FlattenOneMore(t, tail);
      }
    }
  }

  lemma {:induction false} FlattenAppend(a: seq<Token>, b: seq<Token>)
    ensures Flatten(a + b) == Flatten(a) + Flatten(b)
  {
    if a == [] {
      assert a + b == b;
    } else {
      assert (a + b)[1..] == a[1..] + b;
      FlattenAppend(a[1..], b);
    }
  }

  lemma {:induction false} FlattenLiteral(s: string)
    ensures Flatten(Literal(s)) == s
  {
    if s != "" {
      FlattenLiteral(s[1..]);
      assert Literal(s)[1..] == Literal(s[1..]);
      assert s == [s[0]] + s[1..];
    }
  }

  // ---------- one after another is all at once ----------

  function Only(values: map<string, string>, vars: seq<string>): map<string, string> {
    map v | v in values && v in vars :: values[v]
  }

  lemma SubstituteAppend(a: seq<Token>, b: seq<Token>, values: map<string, string>)
    ensures Substitute(a + b, values) == Substitute(a, values) + Substitute(b, values)
  {
    if a == [] {
      assert a + b == b;
    } else {
      assert (a + b)[1..] == a[1..] + b;
      SubstituteAppend(a[1..], b, values);
    }
  }

  lemma SubstituteLiteral(s: string, values: map<string, string>)
    ensures Substitute(Literal(s), values) == Literal(s)
  {
    if s != "" {
      SubstituteLiteral(s[1..], values);
      assert Literal(s)[1..] == Literal(s[1..]);
      assert Literal(s) == [Lit(s[0])] + Literal(s[1..]);
    }
  }

  /** Substituting one variable and then others is substituting them together. */
  lemma {:induction false} SubstituteThen(toks: seq<Token>, v: string, val: string, more: map<string, string>, all: map<string, string>)
    requires all == more[v := val]
    ensures Substitute(Substitute(toks, map[v := val]), more) == Substitute(toks, all)
  {
    if toks != [] {
      SubstituteThen(toks[1..], v, val, more, all);
      var tail := Substitute(toks[1..], map[v := val]);
      if toks[0] == Var(v) {
        SubstituteAppend(Literal(val), tail, more);
        SubstituteLiteral(val, more);
      } else {
        SubstituteAppend([toks[0]], tail, more);
      }
    }
  }

  lemma {:induction false} SubstituteClear(toks: seq<Token>, values: map<string, string>, c: char)
    requires Clear(toks, c) && forall v | v in values && v in Names(toks) :: c !in values[v]
    ensures Clear(Substitute(toks, values), c)
  {
    if toks != [] {
      assert forall n | n in Names(toks[1..]) :: n in Names(toks);
      SubstituteClear(toks[1..], values, c);
      assert TokenOk(toks[0], c);
      if toks[0].Var? && toks[0].name in values {
        assert toks[0].name in Names(toks);
        var s := values[toks[0].name];
        assert forall i | 0 <= i < |s| :: s[i] in s && TokenOk(Literal(s)[i], c);
      }
    }
  }

  lemma ReplaceOnClear(toks: seq<Token>, v: string, val: string, c: char)
    requires IsBrace(c) && Clear(toks, c) && IsWord(v)
    ensures ReplaceAll(Flatten(toks), Placeholder(v), val) == Flatten(Substitute(toks, map[v := val]))
  {
    ReplaceIsSubstitution(Flatten(toks), v, val);
    TokenizeShown(toks, c);
  }

  lemma {:induction false} RenderOnTokens(toks: seq<Token>, vars: seq<string>, values: map<string, string>, c: char)
    requires IsBrace(c) && Clear(toks, c)
    requires forall v | v in vars :: IsWord(v) && (v in values ==> c !in values[v])
    ensures Render(Flatten(toks), vars, values) == Flatten(Substitute(toks, Only(values, vars)))
    decreases |vars|
  {
    if vars == [] {
      assert Only(values, vars) == map[];
      SubstituteNothing(toks);
    } else {
      var v, rest := vars[0], vars[1..];
      if v in values {
        ReplaceOnClear(toks, v, values[v], c);
        var next := Substitute(toks, map[v := values[v]]);
        SubstituteClear(toks, map[v := values[v]], c);
        RenderOnTokens(next, rest, values, c);
        assert Only(values, vars) == Only(values, rest)[v := values[v]];
        SubstituteThen(toks, v, values[v], Only(values, rest), Only(values, vars));
      } else {
        RenderOnTokens(toks, rest, values, c);
        assert Only(values, vars) == Only(values, rest);
      }
    }
  }

  lemma {:induction false} SubstituteNothing(toks: seq<Token>)
    ensures Substitute(toks, map[]) == toks
  {
    if toks != [] {
      SubstituteNothing(toks[1..]);
    }
  }

  /** Only the names that occur matter. */
  lemma {:induction false} SubstituteOnly(toks: seq<Token>, vars: seq<string>, values: map<string, string>)
    requires forall n | n in Names(toks) :: n in vars
    ensures Substitute(toks, Only(values, vars)) == Substitute(toks, values)
  {
    if toks != [] {
      assert forall n | n in Names(toks[1..]) :: n in Names(toks);
      SubstituteOnly(toks[1..], vars, values);
      if toks[0].Var? {
        assert toks[0].name in Names(toks);
      }
    }
  }

  /** The brace `c` is loose nowhere: not in the body, where it belongs to placeholders, and
      not in the value of any variable that occurs. */
  predicate NeverLoose(body: string, values: map<string, string>, c: char) {
    Lit(c) !in Tokenize(body) && forall v | v in Names(Tokenize(body)) && v in values :: c !in values[v]
  }

  lemma NeverLooseIsClear(body: string, values: map<string, string>, c: char)
    requires NeverLoose(body, values, c)
    ensures Clear(Tokenize(body), c)
  {
    TokenizeFindsWords(body);
    var toks := Tokenize(body);
    assert forall i | 0 <= i < |toks| :: toks[i] in toks;
  }

  lemma RenderClear(body: string, vars: seq<string>, values: map<string, string>, c: char)
    requires IsBrace(c) && NeverLoose(body, values, c)
    requires forall v :: v in vars <==> v in Names(Tokenize(body))
    ensures Render(body, vars, values) == Flatten(Substitute(Tokenize(body), values))
  {
    var toks := Tokenize(body);
    TokenizeLosesNothing(body);
    NeverLooseIsClear(body, values, c);
    NamesAreWords(toks, c);
    RenderOnTokens(toks, vars, values, c);
    SubstituteOnly(toks, vars, values);
  }

  /** When opening braces are never loose, or closing ones never are, rendering the
      variables one after another, in whatever order they are listed, is replacing all of
      them at once. */
  lemma RenderIsSubstitution(body: string, vars: seq<string>, values: map<string, string>)
    requires NeverLoose(body, values, '{') || NeverLoose(body, values, '}')
    requires forall v :: v in vars <==> v in Names(Tokenize(body))
    ensures Render(body, vars, values) == Flatten(Substitute(Tokenize(body), values))
  {
    RenderClear(body, vars, values, if NeverLoose(body, values, '{') then '{' else '}');
  }

  lemma {:induction false} NamesAreWords(toks: seq<Token>, c: char)
    requires Clear(toks, c)
    ensures forall n | n in Names(toks) :: IsWord(n)
  {
    if toks != [] {
      NamesAreWords(toks[1..], c);
      assert TokenOk(toks[0], c);
    }
  }

  function Unsupplied(names: seq<string>, values: map<string, string>): seq<string> {
    if names == [] then []
    else (if names[0] in values then [] else [names[0]]) + Unsupplied(names[1..], values)
  }

  /** Under the same conditions the placeholders left in the text are exactly those no
      value was supplied for, in their order and with their repetitions. */
  lemma LeftoverPlaceholders(body: string, vars: seq<string>, values: map<string, string>)
    requires NeverLoose(body, values, '{') || NeverLoose(body, values, '}')
    requires forall v :: v in vars <==> v in Names(Tokenize(body))
    ensures Names(Tokenize(Render(body, vars, values))) == Unsupplied(Names(Tokenize(body)), values)
  {
    var toks, c := Tokenize(body), if NeverLoose(body, values, '{') then '{' else '}';
    RenderClear(body, vars, values, c);
    NeverLooseIsClear(body, values, c);
    SubstituteClear(toks, values, c);
    TokenizeShown(Substitute(toks, values), c);
    NamesSubstituted(toks, values);
  }

  lemma {:induction false} NamesSubstituted(toks: seq<Token>, values: map<string, string>)
    ensures Names(Substitute(toks, values)) == Unsupplied(Names(toks), values)
  {
    if toks != [] {
      NamesSubstituted(toks[1..], values);
      var tail := Substitute(toks[1..], values);
      if toks[0].Var? && toks[0].name in values {
        NamesAppend(Literal(values[toks[0].name]), tail);
        NoNamesInLiteral(values[toks[0].name]);
        assert Names(toks) == [toks[0].name] + Names(toks[1..]);
      } else {
        NamesAppend([toks[0]], tail);
        if toks[0].Var? {
          assert Names(toks) == [toks[0].name] + Names(toks[1..]);
        } else {
          assert Names(toks) == Names(toks[1..]);
        }
      }
    }
  }

  lemma {:induction false} NamesAppend(a: seq<Token>, b: seq<Token>)
    ensures Names(a + b) == Names(a) + Names(b)
  {
    if a == [] {
      assert a + b == b;
    } else {
      assert (a + b)[1..] == a[1..] + b;
      NamesAppend(a[1..], b);
    }
  }

  lemma {:induction false} NoNamesInLiteral(s: string)
    ensures Names(Literal(s)) == []
  {
    if s != "" {
      NoNamesInLiteral(s[1..]);
      assert Literal(s)[1..] == Literal(s[1..]);
    }
  }
}
