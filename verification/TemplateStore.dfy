/** The template endpoints over the stored templates of one tenant. */
module TemplateStore {
  import opened Lists
  import opened Options
  import opened RenderExactly
  import opened Templates

  datatype Template = Template(name: string, body: string, variables: seq<string>)

  datatype Request =
    | Create(id: string, name: string, body: string)
    | Update(id: string, name: string, body: string)
    | Delete(id: string)

  function Apply(store: map<string, Template>, r: Request): map<string, Template> {
    match r
    case Create(id, name, body) =>
      if name == "" || body == "" then store else store[id := Template(name, body, Variables(body))]
    case Update(id, name, body) =>
      if id !in store then store
      else
        var t := store[id];
        store[id := Template(if name != "" then name else t.name,
                             if body != "" then body else t.body,
                             if body != "" then Variables(body) else t.variables)]
    case Delete(id) => store - {id}
  }

  function After(run: seq<Request>): map<string, Template> {
    if run == [] then map[] else Apply(After(run[..|run| - 1]), run[|run| - 1])
  }

  /** Over every run of creates, updates and deletes, a stored template lists the distinct
      placeholder names of the body stored with it, in first-occurrence order. */
  lemma {:induction false} VariablesMatchBody(run: seq<Request>)
    ensures forall id | id in After(run) :: After(run)[id].variables == Variables(After(run)[id].body)
  {
    if run != [] {
      VariablesMatchBody(run[..|run| - 1]);
    }
  }

  // ---------- what is stored is what was sent ----------

  /** A create that is not refused. */
  predicate Creates(r: Request, id: string) {
    r.Create? && r.id == id && r.name != "" && r.body != ""
  }

  predicate SetsName(r: Request, id: string) {
    Creates(r, id) || (r.Update? && r.id == id && r.name != "")
  }

  predicate SetsBody(r: Request, id: string) {
    Creates(r, id) || (r.Update? && r.id == id && r.body != "")
  }

  /** Where the template that is there now was created, or -1. */
  function CreatedAt(run: seq<Request>, id: string): int {
    if run == [] then -1
    else
      var last := |run| - 1;
      if Creates(run[last], id) then last else if run[last] == Delete(id) then -1 else CreatedAt(run[..last], id)
  }

  /** The last request that named it, or -1. */
  function LastNamed(run: seq<Request>, id: string): int {
    if run == [] then -1 else if SetsName(run[|run| - 1], id) then |run| - 1 else LastNamed(run[..|run| - 1], id)
  }

  /** The last request that gave it a body, or -1. */
  function LastFilled(run: seq<Request>, id: string): int {
    if run == [] then -1 else if SetsBody(run[|run| - 1], id) then |run| - 1 else LastFilled(run[..|run| - 1], id)
  }

  lemma {:induction false} CreatedThere(run: seq<Request>, id: string)
    ensures var i := CreatedAt(run, id);
      && -1 <= i < |run|
      && (i >= 0 ==> Creates(run[i], id) && forall j | i < j < |run| :: !Creates(run[j], id) && run[j] != Delete(id))
      && (i < 0 ==> forall c | 0 <= c < |run| && Creates(run[c], id) :: exists j | c < j < |run| :: run[j] == Delete(id))
  {
    if run != [] {
      var last := |run| - 1;
      CreatedThere(run[..last], id);
      assert forall j | 0 <= j < last :: run[..last][j] == run[j];
    }
  }

  lemma {:induction false} NamedThere(run: seq<Request>, id: string)
    ensures var i := LastNamed(run, id);
      -1 <= i < |run| && (i >= 0 ==> SetsName(run[i], id)) && forall j | i < j < |run| :: !SetsName(run[j], id)
    ensures var i := LastFilled(run, id);
      -1 <= i < |run| && (i >= 0 ==> SetsBody(run[i], id)) && forall j | i < j < |run| :: !SetsBody(run[j], id)
  {
    if run != [] {
      NamedThere(run[..|run| - 1], id);
    }
  }

  lemma {:induction false} StoredAs(run: seq<Request>, id: string)
    ensures id in After(run) <==> CreatedAt(run, id) >= 0
    ensures var n, b := LastNamed(run, id), LastFilled(run, id);
      id in After(run) ==> 0 <= n < |run| && 0 <= b < |run| && run[n] != Delete(id) && run[b] != Delete(id)
                           && After(run)[id].name == Named(run[n]) && After(run)[id].body == Filled(run[b])
  {
    if run != [] {
      StoredAs(run[..|run| - 1], id);
    }
  }

  function Named(r: Request): string {
    if r.Delete? then "" else r.name
  }

  function Filled(r: Request): string {
    if r.Delete? then "" else r.body
  }

  /** Over every run a template is there exactly when it was created and not deleted since,
      with the last non-empty name and the last non-empty body sent for it since. */
  lemma StoredIsLastSent(run: seq<Request>, id: string)
    ensures id in After(run) <==> exists c | 0 <= c < |run| :: Creates(run[c], id) && forall j | c < j < |run| :: run[j] != Delete(id)
    ensures id in After(run) ==>
      exists c, n, b | 0 <= c <= n < |run| && c <= b < |run| ::
        && Creates(run[c], id) && (forall j | c < j < |run| :: !Creates(run[j], id) && run[j] != Delete(id))
        && SetsName(run[n], id) && (forall j | n < j < |run| :: !SetsName(run[j], id)) && After(run)[id].name == run[n].name
        && SetsBody(run[b], id) && (forall j | b < j < |run| :: !SetsBody(run[j], id)) && After(run)[id].body == run[b].body
  {
    StoredAs(run, id);
    CreatedThere(run, id);
    NamedThere(run, id);
    var c, n, b := CreatedAt(run, id), LastNamed(run, id), LastFilled(run, id);
    if id in After(run) {
      assert Creates(run[c], id) && SetsName(run[n], id) && SetsBody(run[b], id);
      assert SetsName(run[c], id) && SetsBody(run[c], id);
    }
  }

  /** So rendering a stored template replaces exactly the supplied placeholders, at once,
      and leaves the others standing. */
  lemma StoredTemplateRenders(run: seq<Request>, id: string, values: map<string, string>)
    requires id in After(run)
    requires NeverLoose(After(run)[id].body, values, '{') || NeverLoose(After(run)[id].body, values, '}')
    ensures var t := After(run)[id];
      && Render(t.body, t.variables, values) == Flatten(Substitute(Tokenize(t.body), values))
      && Names(Tokenize(Render(t.body, t.variables, values))) == Unsupplied(Names(Tokenize(t.body)), values)
  {
    VariablesMatchBody(run);
    var t := After(run)[id];
    DistinctIsFirstOccurrences(Names(Tokenize(t.body)));
    RenderIsSubstitution(t.body, t.variables, values);
    LeftoverPlaceholders(t.body, t.variables, values);
  }

  /** And it renders right for all values exactly when it lists at most one variable. */
  lemma StoredTemplateRendersIff(run: seq<Request>, id: string)
    requires id in After(run)
    ensures RendersRight(After(run)[id].body, After(run)[id].variables) <==> |After(run)[id].variables| <= 1
  {
    VariablesMatchBody(run);
    RendersRightIff(After(run)[id].body);
  }

  /** `extractVariables`: the loop over the pattern's matches. */
  method ExtractVariables(body: string) returns (vars: seq<string>)
    ensures vars == Variables(body)
  {
    var matches := Names(Tokenize(body));
    var seen: set<string> := {};
    vars := [];
    for i := 0 to |matches|
      invariant vars == Distinct(matches[..i])
      invariant forall n :: n in seen <==> n in vars
    {
      assert matches[..i + 1][..i] == matches[..i];
      var name := matches[i];
      if name !in seen {
        seen := seen + {name};
        vars := vars + [name];
      }
    }
    assert matches[..|matches|] == matches;
  }

  class MessageTemplateHandler {
    var templates: map<string, Template>

    constructor ()
      ensures templates == After([])
    {
      templates := map[];
    }

    method CreateTemplate(id: string, name: string, body: string) returns (ok: bool)
      modifies this
      ensures ok <==> name != "" && body != ""
      ensures templates == Apply(old(templates), Create(id, name, body))
    {
      if name == "" {
        return false;
      }
      if body == "" {
        return false;
      }
      var vars := ExtractVariables(body);
      templates := templates[id := Template(name, body, vars)];
      return true;
    }

    method UpdateTemplate(id: string, name: string, body: string) returns (ok: bool)
      modifies this
      ensures ok <==> id in old(templates)
      ensures templates == Apply(old(templates), Update(id, name, body))
    {
      if id !in templates {
        return false;
      }
      var existing := templates[id];
      if name != "" {
        existing := existing.(name := name);
      }
      if body != "" {
        var vars := ExtractVariables(body);
        existing := existing.(body := body, variables := vars);
      }
      templates := templates[id := existing];
      return true;
    }

    method DeleteTemplate(id: string)
      modifies this
      ensures templates == Apply(old(templates), Delete(id))
    {
      templates := templates - {id};
    }

    method RenderTemplate(id: string, values: map<string, string>) returns (text: Option<string>)
      ensures text == if id in templates then Some(Render(templates[id].body, templates[id].variables, values)) else None
    {
      if id !in templates {
        return None;
      }
      var tmpl := templates[id];
      var out := tmpl.body;
      for i := 0 to |tmpl.variables|
        invariant Render(out, tmpl.variables[i..], values) == Render(tmpl.body, tmpl.variables, values)
      {
        var v := tmpl.variables[i];
        assert tmpl.variables[i..][1..] == tmpl.variables[i + 1..];
        if v in values {
          out := ReplaceAll(out, "{" + v + "}", values[v]);
        }
      }
      return Some(out);
    }
  }
}
