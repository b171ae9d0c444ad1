/** Exactly which templates the render loop gets right whatever the values: those with at
    most one variable. */
module RenderExactly {
  import opened Lists
  import opened Templates

  // ---------- one variable, or none ----------

  lemma RenderOne(body: string, v: string, values: map<string, string>)
    requires IsWord(v)
    ensures Render(body, [v], values) == if v in values then ReplaceAll(body, Placeholder(v), values[v]) else body
  {
    assert [v][1..] == [];
  }

  lemma SubstituteNone(toks: seq<Token>, values: map<string, string>)
    requires forall n | n in Names(toks) :: n !in values
    ensures Substitute(toks, values) == toks
  {
    assert Only(values, Names(toks)) == map[];
    SubstituteOnly(toks, Names(toks), values);
    SubstituteNothing(toks);
  }

  lemma OneVariable(body: string, v: string, values: map<string, string>)
    requires IsWord(v) && forall n | n in Names(Tokenize(body)) :: n == v
    ensures Render(body, [v], values) == Flatten(Substitute(Tokenize(body), values))
  {
    var toks := Tokenize(body);
    RenderOne(body, v, values);
    if v in values {
      ReplaceIsSubstitution(body, v, values[v]);
      assert Only(values, [v]) == map[v := values[v]];
      SubstituteOnly(toks, [v], values);
    } else {
      TokenizeLosesNothing(body);
      SubstituteNone(toks, values);
    }
  }

  /** A template with one variable renders right, whatever its braces and values. */
  lemma FewVariables(body: string, values: map<string, string>)
    requires |Variables(body)| <= 1
    ensures Render(body, Variables(body), values) == Flatten(Substitute(Tokenize(body), values))
  {
    var vars := Variables(body);
    DistinctIsFirstOccurrences(Names(Tokenize(body)));
    assert forall n :: n in vars <==> n in Names(Tokenize(body));
    if vars == [] {
      TokenizeLosesNothing(body);
      SubstituteNone(Tokenize(body), values);
    } else {
      assert vars == [vars[0]] && vars[0] in vars;
      VariablesAreWords(body);
      OneVariable(body, vars[0], values);
    }
  }

  lemma VariablesAreWords(body: string)
    ensures forall v | v in Variables(body) :: IsWord(v)
  {
    DistinctIsFirstOccurrences(Names(Tokenize(body)));
    TokenizeFindsWords(body);
    NamesAreNames(Tokenize(body));
  }

  lemma {:induction false} NamesAreNames(toks: seq<Token>)
    ensures forall n | n in Names(toks) :: Var(n) in toks
  {
    if toks != [] {
      NamesAreNames(toks[1..]);
      assert toks == [toks[0]] + toks[1..];
    }
  }

  // ---------- renaming a placeholder ----------

  /** Every placeholder of `a` made one of `b`. */
  function Rename(toks: seq<Token>, a: string, b: string): seq<Token> {
    if toks == [] then []
    else [if toks[0] == Var(a) then Var(b) else toks[0]] + Rename(toks[1..], a, b)
  }

  /** Renaming changes nothing before the first placeholder. */
  lemma {:induction false} SameStart(toks: seq<Token>, a: string, b: string)
    ensures Closes(Flatten(toks)) <==> Closes(Flatten(Rename(toks, a, b)))
    ensures EarlyClose(Flatten(toks)) <==> EarlyClose(Flatten(Rename(toks, a, b)))
  {
    if toks != [] {
      SameStart(toks[1..], a, b);
      var renamed := Rename(toks, a, b);
      assert renamed[1..] == Rename(toks[1..], a, b);
      FirstOf(toks);
      FirstOf(renamed);
    }
  }

  /** A closing brace after any number of word characters. */
  predicate EarlyClose(s: string) {
    WordRun(s) < |s| && s[WordRun(s)] == '}'
  }

  lemma FirstOf(toks: seq<Token>)
    requires toks != []
    ensures var s, tail := Flatten(toks), Flatten(toks[1..]);
      && (toks[0].Var? ==> !EarlyClose(s) && !Closes(s))
      && (toks[0].Lit? && IsWordChar(toks[0].c) ==> (EarlyClose(s) <==> EarlyClose(tail)) && (Closes(s) <==> EarlyClose(tail)))
      && (toks[0].Lit? && !IsWordChar(toks[0].c) ==> (EarlyClose(s) <==> toks[0].c == '}') && !Closes(s))
  {
    var s := Flatten(toks);
    assert s == Show(toks[0]) + Flatten(toks[1..]);
    if toks[0].Lit? {
      assert s[1..] == Flatten(toks[1..]);
    } else {
      assert s[0] == '{';
    }
  }

  lemma RenamedFirst(s: string, t: Token, tail: seq<Token>, a: string, b: string)
    requires IsWord(b) && s != "" && Tokenize(Flatten(Rename(tail, a, b))) == Rename(tail, a, b)
    requires t.Var? ==> IsWord(t.name)
    requires t == Lit('{') ==> !Closes(Flatten(tail))
    ensures Tokenize(Flatten(Rename([t] + tail, a, b))) == Rename([t] + tail, a, b)
  {
    var t', rest := if t == Var(a) then Var(b) else t, Rename(tail, a, b);
    assert ([t] + tail)[1..] == tail;
    assert Rename([t] + tail, a, b) == [t'] + rest;
    FlattenOneMore(t', rest);
    if t == Lit('{') {
      SameStart(tail, a, b);
      ReadBackOpen(Flatten(rest));
    } else {
      ReadBack(t', Flatten(rest));
    }
  }

  /** A scanned text with one placeholder renamed is scanned as just that. */
  lemma {:induction false} RenamedIsRead(s: string, a: string, b: string)
    requires IsWord(b)
    ensures Tokenize(Flatten(Rename(Tokenize(s), a, b))) == Rename(Tokenize(s), a, b)
    decreases |s|
  {
    if s != "" {
      var t, n := FirstToken(s);
      RenamedIsRead(s[n..], a, b);
      TokenizeLosesNothing(s[n..]);
      TokenizeFindsWords(s);
      assert t in Tokenize(s);
      RenamedFirst(s, t, Tokenize(s[n..]), a, b);
    }
  }

  /** Putting `{b}` where `{a}` was is renaming. */
  lemma {:induction false} SpellIsRename(toks: seq<Token>, a: string, b: string)
    ensures Flatten(Substitute(toks, map[a := Placeholder(b)])) == Flatten(Rename(toks, a, b))
  {
    if toks != [] {
      SpellIsRename(toks[1..], a, b);
      var tail := Substitute(toks[1..], map[a := Placeholder(b)]);
      var t := if toks[0] == Var(a) then Var(b) else toks[0];
      FlattenOneMore(t, Rename(toks[1..], a, b));
      if toks[0] == Var(a) {
        FlattenAppend(Literal(Placeholder(b)), tail);
        FlattenLiteral(Placeholder(b));
      } else {
        FlattenOneMore(t, tail);
      }
    }
  }

  // ---------- two variables or more ----------

  lemma {:induction false} RenderSkips(text: string, vars: seq<string>, values: map<string, string>)
    requires forall v | v in vars :: v !in values
    ensures Render(text, vars, values) == text
    decreases |vars|
  {
    if vars != [] {
      assert vars[0] in vars;
      RenderSkips(text, vars[1..], values);
    }
  }

  /** Erasing `{b}` after `{a}` was spelled as `{b}` erases both; at once, it leaves the
      spelled ones. */
  lemma {:induction false} Shorter(toks: seq<Token>, a: string, b: string)
    requires a != b
    ensures var left, right := Flatten(Substitute(Rename(toks, a, b), map[b := ""])), Flatten(Substitute(toks, map[a := Placeholder(b), b := ""]));
      |left| <= |right| && (Var(a) in toks ==> |left| < |right|)
  {
    if toks != [] {
      var renamed := Rename(toks, a, b);
      assert renamed[1..] == Rename(toks[1..], a, b);
      assert toks == [toks[0]] + toks[1..];
      Shorter(toks[1..], a, b);
      SubstituteFirst(renamed, map[b := ""]);
      SubstituteFirst(toks, map[a := Placeholder(b), b := ""]);
    }
  }

  lemma SubstituteFirst(toks: seq<Token>, values: map<string, string>)
    requires toks != []
    ensures Flatten(Substitute(toks, values)) == (if toks[0].Var? && toks[0].name in values then values[toks[0].name] else Show(toks[0]))
                                                 + Flatten(Substitute(toks[1..], values))
  {
    var tail := Substitute(toks[1..], values);
    if toks[0].Var? && toks[0].name in values {
      FlattenAppend(Literal(values[toks[0].name]), tail);
      FlattenLiteral(values[toks[0].name]);
    } else {
      FlattenOneMore(toks[0], tail);
    }
  }

  /** What the loop makes of it. */
  lemma RenderSpelled(body: string, a: string, b: string)
    requires IsWord(a) && IsWord(b)
    ensures ReplaceAll(ReplaceAll(body, Placeholder(a), Placeholder(b)), Placeholder(b), "")
         == Flatten(Substitute(Rename(Tokenize(body), a, b), map[b := ""]))
  {
    ReplaceIsSubstitution(body, a, Placeholder(b));
    SpellIsRename(Tokenize(body), a, b);
    RenamedIsRead(body, a, b);
    ReplaceIsSubstitution(Flatten(Rename(Tokenize(body), a, b)), b, "");
  }

  lemma RenderTwoThen(text: string, vars: seq<string>, values: map<string, string>)
    requires |vars| >= 2 && vars[0] in values && vars[1] in values
    requires forall i | 2 <= i < |vars| :: vars[i] !in values
    ensures Render(text, vars, values)
         == ReplaceAll(ReplaceAll(text, Placeholder(vars[0]), values[vars[0]]), Placeholder(vars[1]), values[vars[1]])
  {
    var rest := vars[1..];
    var once := ReplaceAll(text, Placeholder(vars[0]), values[vars[0]]);
    assert rest[0] == vars[1] && rest[1..] == vars[2..];
    RenderSkips(ReplaceAll(once, Placeholder(vars[1]), values[vars[1]]), vars[2..], values);
  }

  /** With two variables or more there are values that break it: the first spells the
      second's placeholder, and the second is erased. */
  lemma SomeValuesBreakIt(body: string)
    requires |Variables(body)| >= 2
    ensures var vars := Variables(body);
      var values := map[vars[0] := Placeholder(vars[1]), vars[1] := ""];
      |Render(body, vars, values)| < |Flatten(Substitute(Tokenize(body), values))|
  {
    var vars := Variables(body);
    var a, b := vars[0], vars[1];
    DistinctIsFirstOccurrences(Names(Tokenize(body)));
    assert a in vars && b in vars;
    VariablesAreWords(body);
    NamesAreNames(Tokenize(body));
    assert forall i | 2 <= i < |vars| :: vars[i] != a && vars[i] != b;
    RenderTwoThen(body, vars, map[a := Placeholder(b), b := ""]);
    RenderSpelled(body, a, b);
    Shorter(Tokenize(body), a, b);
  }

  /** The loop renders a body as if all variables were replaced at once, whatever the values. */
  ghost predicate RendersRight(body: string, vars: seq<string>) {
    forall values :: Render(body, vars, values) == Flatten(Substitute(Tokenize(body), values))
  }

  /** That is so exactly for bodies with at most one variable. */
  lemma RendersRightIff(body: string)
    ensures RendersRight(body, Variables(body)) <==> |Variables(body)| <= 1
  {
    if |Variables(body)| <= 1 {
      forall values ensures Render(body, Variables(body), values) == Flatten(Substitute(Tokenize(body), values)) {
        FewVariables(body, values);
      }
    } else {
      SomeValuesBreakIt(body);
    }
  }
}
