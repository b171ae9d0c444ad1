/** Rendering with loose braces of both kinds: one of each is enough to break it. */
module LooseBraces {
  import opened Lists
  import opened Templates

  /** A placeholder of `b` cut at `i` and `j`: its ends stand in the body around `{a}`, its
      middle is the value of `a`. The opening brace is loose in the body when `i > 0`, else
      in the value; the closing one in the body when `j` is short of the end. */
  function Cut(a: string, b: string, i: nat, j: nat): string
    requires i <= j <= |Placeholder(b)|
  {
    Placeholder(b)[..i] + Placeholder(a) + (Placeholder(b)[j..] + Placeholder(b))
  }

  function CutTokens(a: string, b: string, i: nat, j: nat): seq<Token>
    requires i <= j <= |Placeholder(b)|
  {
    Literal(Placeholder(b)[..i]) + [Var(a)] + (Literal(Placeholder(b)[j..]) + [Var(b)])
  }

  lemma ShowThen(s: string, n: string)
    ensures Flatten(Literal(s) + [Var(n)]) == s + Placeholder(n)
  {
    FlattenAppend(Literal(s), [Var(n)]);
    FlattenLiteral(s);
    assert [Var(n)] == [Var(n)] + [];
    FlattenOneMore(Var(n), []);
    assert Placeholder(n) + "" == Placeholder(n);
  }

  lemma CutIsRead(a: string, b: string, i: nat, j: nat)
    requires IsWord(a) && IsWord(b) && i <= j <= |Placeholder(b)| && i < |Placeholder(b)| && j > 0
    ensures Tokenize(Cut(a, b, i, j)) == CutTokens(a, b, i, j)
    ensures Flatten(CutTokens(a, b, i, j)) == Cut(a, b, i, j)
  {
    var p := Placeholder(b);
    var left, right := Literal(p[..i]) + [Var(a)], Literal(p[j..]) + [Var(b)];
    assert forall k | 0 <= k < i :: p[k] != '}';
    assert forall k | 0 < k < |p| :: p[k] != '{';
    assert Clear(left, '}') && Clear(right, '{');
    ShowThen(p[..i], a);
    ShowThen(p[j..], b);
    ReadBackThen(left, Flatten(right));
    TokenizeShown(right, '{');
    FlattenAppend(left, right);
  }

  /** Substituting in it: `u` for `{a}` and `x` for `{b}`. */
  lemma SubstituteCut(a: string, b: string, i: nat, j: nat, values: map<string, string>)
    requires a != b && i <= j <= |Placeholder(b)|
    ensures Flatten(Substitute(CutTokens(a, b, i, j), values))
         == Placeholder(b)[..i] + Shown(a, values) + (Placeholder(b)[j..] + Shown(b, values))
  {
    var p := Placeholder(b);
    SubstituteThenVar(p[..i], a, values);
    SubstituteThenVar(p[j..], b, values);
    var left, right := Literal(p[..i]) + [Var(a)], Literal(p[j..]) + [Var(b)];
    SubstituteAppend(left, right, values);
    FlattenAppend(Substitute(left, values), Substitute(right, values));
  }

  /** What a placeholder becomes. */
  function Shown(n: string, values: map<string, string>): string {
    if n in values then values[n] else Placeholder(n)
  }

  lemma SubstituteThenVar(s: string, n: string, values: map<string, string>)
    ensures Flatten(Substitute(Literal(s) + [Var(n)], values)) == s + Shown(n, values)
  {
    SubstituteAppend(Literal(s), [Var(n)], values);
    SubstituteLiteral(s, values);
    FlattenLiteral(s);
    var last := Substitute([Var(n)], values);
    assert [Var(n)][1..] == [];
    assert last == if n in values then Literal(values[n]) else [Var(n)];
    FlattenAppend(Literal(s), last);
    if n in values {
      FlattenLiteral(values[n]);
    } else {
      assert Placeholder(n) + "" == Placeholder(n);
    }
  }

  lemma Twice(b: string, x: string)
    requires IsWord(b)
    ensures ReplaceAll(Placeholder(b) + Placeholder(b), Placeholder(b), x) == x + x
  {
    var p := Placeholder(b);
    var s := p + p;
    assert s[..|p|] == p && s[|p|..] == p && p[..|p|] == p && p[|p|..] == "";
    assert ReplaceAll(p, p, x) == x + "" == x;
  }

  lemma RenderPair(text: string, v: string, v': string, values: map<string, string>)
    requires v in values && v' in values
    ensures Render(text, [v, v'], values)
         == ReplaceAll(ReplaceAll(text, Placeholder(v), values[v]), Placeholder(v'), values[v'])
  {
    assert [v, v'][1..] == [v'] && [v'][1..] == [];
    var once := ReplaceAll(text, Placeholder(v), values[v]);
    assert Render(once, [v'], values) == Render(ReplaceAll(once, Placeholder(v'), values[v']), [], values);
  }

  /** One loose brace of each kind is enough to break it, wherever the two are: for every
      two variables and every way to cut the placeholder of the second between the body and
      the value of the first, the render loop, in the order the variables are stored in,
      replaces a placeholder that nobody wrote. */
  lemma LooseBracesBreakIt(a: string, b: string, i: nat, j: nat, x: string)
    requires IsWord(a) && IsWord(b) && a != b
    requires i <= j <= |Placeholder(b)| && i < |Placeholder(b)| && j > 0
    ensures var body, values := Cut(a, b, i, j), map[a := Placeholder(b)[i..j], b := x];
      && Render(body, [a, b], values) == x + x
      && Flatten(Substitute(Tokenize(body), values)) == Placeholder(b) + x
      && (Render(body, [a, b], values) == Flatten(Substitute(Tokenize(body), values)) <==> x == Placeholder(b))
      && Variables(body) == [a, b]
      && !NeverLoose(body, values, '{') && !NeverLoose(body, values, '}')
  {
    var values := map[a := Placeholder(b)[i..j], b := x];
    CutIsRead(a, b, i, j);
    SubstituteCut(a, b, i, j, values);
    Rejoined(Placeholder(b), i, j, x);
    CutSpells(a, b, i, j);
    SpelledTwice(Cut(a, b, i, j), a, b, values);
    SameEnd(x, Placeholder(b), x);
    CutNames(a, b, i, j);
    CutIsLoose(a, b, i, j, values);
  }

  lemma SameEnd(u: string, v: string, x: string)
    ensures u + x == v + x <==> u == v
  {
    if u + x == v + x {
      assert |u + x| == |v + x|;
      assert u == (u + x)[..|u|] == (v + x)[..|v|] == v;
    }
  }

  lemma Rejoined(p: string, i: nat, j: nat, x: string)
    requires i <= j <= |p|
    ensures p[..i] + p[i..j] + (p[j..] + x) == p + x
  {
  }

  lemma ReplaceByTokens(text: string, toks: seq<Token>, v: string, val: string, result: string)
    requires IsWord(v) && Tokenize(text) == toks && Flatten(Substitute(toks, map[v := val])) == result
    ensures ReplaceAll(text, Placeholder(v), val) == result
  {
    ReplaceIsSubstitution(text, v, val);
  }

  lemma SpelledTwice(text: string, a: string, b: string, values: map<string, string>)
    requires IsWord(b) && a in values && b in values
    requires ReplaceAll(text, Placeholder(a), values[a]) == Placeholder(b) + Placeholder(b)
    ensures Render(text, [a, b], values) == values[b] + values[b]
  {
    Twice(b, values[b]);
    RenderPair(text, a, b, values);
  }

  /** With the value of `a` in place, the text holds two placeholders of `b`. */
  lemma CutSpells(a: string, b: string, i: nat, j: nat)
    requires IsWord(a) && IsWord(b) && a != b && i <= j <= |Placeholder(b)| && i < |Placeholder(b)| && j > 0
    ensures ReplaceAll(Cut(a, b, i, j), Placeholder(a), Placeholder(b)[i..j]) == Placeholder(b) + Placeholder(b)
  {
    var p := Placeholder(b);
    CutIsRead(a, b, i, j);
    SubstituteCut(a, b, i, j, map[a := p[i..j]]);
    Rejoined(p, i, j, p);
    ReplaceByTokens(Cut(a, b, i, j), CutTokens(a, b, i, j), a, p[i..j], p + p);
  }

  lemma CutNames(a: string, b: string, i: nat, j: nat)
    requires a != b && i <= j <= |Placeholder(b)|
    ensures Names(CutTokens(a, b, i, j)) == [a, b] && Distinct([a, b]) == [a, b]
  {
    var p := Placeholder(b);
    NamesAppend(Literal(p[..i]) + [Var(a)], Literal(p[j..]) + [Var(b)]);
    NameAfter(p[..i], a);
    NameAfter(p[j..], b);
    DistinctPair(a, b);
  }

  lemma NameAfter(s: string, n: string)
    ensures Names(Literal(s) + [Var(n)]) == [n]
  {
    NamesAppend(Literal(s), [Var(n)]);
    NoNamesInLiteral(s);
    assert [Var(n)][1..] == [];
  }

  lemma DistinctPair(a: string, b: string)
    requires a != b
    ensures Distinct([a, b]) == [a, b]
  {
    var one: seq<string> := [a];
    var two: seq<string> := [a, b];
    assert two[..|two| - 1] == one && one[..|one| - 1] == [];
    assert Distinct(one) == [a];
  }

  lemma CutIsLoose(a: string, b: string, i: nat, j: nat, values: map<string, string>)
    requires IsWord(a) && IsWord(b) && a != b && i <= j <= |Placeholder(b)| && i < |Placeholder(b)| && j > 0
    requires a in values && values[a] == Placeholder(b)[i..j]
    ensures var body := Cut(a, b, i, j); !NeverLoose(body, values, '{') && !NeverLoose(body, values, '}')
  {
    var p, toks := Placeholder(b), CutTokens(a, b, i, j);
    CutIsRead(a, b, i, j);
    CutNames(a, b, i, j);
    assert a in Names(toks);
    if i > 0 {
      assert toks[0] == Lit('{');
    } else {
      assert values[a][0] == '{';
    }
    if j < |p| {
      var k := i + 1 + (|p| - 1 - j);
      assert toks[k] == Lit('}');
    } else {
      assert values[a][j - i - 1] == '}';
    }
  }

  /** And it depends on the order of the variables: the other way round nothing is spelled. */
  lemma OrderMatters(a: string, b: string, i: nat, j: nat, x: string)
    requires IsWord(a) && IsWord(b) && a != b && '{' !in x
    requires i <= j <= |Placeholder(b)| && i < |Placeholder(b)| && j > 0
    ensures Render(Cut(a, b, i, j), [b, a], map[a := Placeholder(b)[i..j], b := x]) == Placeholder(b) + x
  {
    var p, values := Placeholder(b), map[a := Placeholder(b)[i..j], b := x];
    SecondFirst(a, b, i, j, x);
    NoBraceInside(b, i, j);
    ReplaceBetween(p[..i], a, p[j..] + x, p[i..j]);
    Rejoined(p, i, j, x);
    RenderPair(Cut(a, b, i, j), b, a, values);
  }

  lemma SecondFirst(a: string, b: string, i: nat, j: nat, x: string)
    requires IsWord(a) && IsWord(b) && a != b && i <= j <= |Placeholder(b)| && i < |Placeholder(b)| && j > 0
    ensures ReplaceAll(Cut(a, b, i, j), Placeholder(b), x) == Placeholder(b)[..i] + Placeholder(a) + (Placeholder(b)[j..] + x)
  {
    CutIsRead(a, b, i, j);
    SubstituteCut(a, b, i, j, map[b := x]);
    ReplaceByTokens(Cut(a, b, i, j), CutTokens(a, b, i, j), b, x, Placeholder(b)[..i] + Placeholder(a) + (Placeholder(b)[j..] + x));
  }

  lemma NoBraceInside(b: string, i: nat, j: nat)
    requires IsWord(b) && i < |Placeholder(b)| && 0 < j <= |Placeholder(b)|
    ensures '}' !in Placeholder(b)[..i] && '{' !in Placeholder(b)[j..]
  {
    var p := Placeholder(b);
    assert forall k | 0 <= k < i :: p[k] != '}';
    assert forall k | 0 < k < |p| :: p[k] != '{';
  }

  /** A placeholder after text without closing braces and before text without opening ones. */
  lemma ReplaceBetween(pre: string, a: string, post: string, val: string)
    requires IsWord(a) && '}' !in pre && '{' !in post
    ensures ReplaceAll(pre + Placeholder(a) + post, Placeholder(a), val) == pre + val + post
  {
    var left, right := Literal(pre) + [Var(a)], Literal(post);
    assert Clear(left, '}') && Clear(right, '{');
    ShowThen(pre, a);
    FlattenLiteral(post);
    ReadBackThen(left, post);
    TokenizeShown(right, '{');
    SubstituteAppend(left, right, map[a := val]);
    SubstituteThenVar(pre, a, map[a := val]);
    SubstituteLiteral(post, map[a := val]);
    FlattenAppend(Substitute(left, map[a := val]), right);
    ReplaceByTokens(pre + Placeholder(a) + post, left + right, a, val, pre + val + post);
  }
}
