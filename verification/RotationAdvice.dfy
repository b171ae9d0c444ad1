/** Advice to rotate the Reticulum access code: an audit line per kit deleted under a code,
    and the list of kits read back from those lines. */
module RotationAdvice {
  import opened Lists
  import opened Text

  const LIMIT: nat := 200

  // ---------- the audit line ----------

  function Print(bridge: string, network: string): string {
    "bridge=" + bridge + " network=" + network
  }

  /** `unicode.IsSpace`. */
  predicate IsSpace(c: char) {
    || '\t' <= c <= '\r' || c == ' ' || c == '\U{85}' || c == '\U{A0}' || c == '\U{1680}' || '\U{2000}' <= c <= '\U{200A}'
    || c == '\U{2028}' || c == '\U{2029}' || c == '\U{202F}' || c == '\U{205F}' || c == '\U{3000}'
  }

  /** The code points of Unicode's White_Space property, one by one. */
  const SPACES: seq<int> :=
    [9, 10, 11, 12, 13, 0x20, 0x85, 0xA0, 0x1680, 0x2000, 0x2001, 0x2002, 0x2003, 0x2004, 0x2005, 0x2006, 0x2007,
     0x2008, 0x2009, 0x200A, 0x2028, 0x2029, 0x202F, 0x205F, 0x3000]

  lemma SpacesAre(c: char)
    ensures IsSpace(c) <==> c as int in SPACES
  {
    if '\t' <= c <= '\r' {
      assert SPACES[c as int - 9] == c as int;
    } else if '\U{2000}' <= c <= '\U{200A}' {
      assert SPACES[c as int - 0x2000 + 9] == c as int;
    } else if IsSpace(c) {
      assert SPACES[5] == 0x20 && SPACES[6] == 0x85 && SPACES[7] == 0xA0 && SPACES[8] == 0x1680;
      assert SPACES[20] == 0x2028 && SPACES[21] == 0x2029 && SPACES[22] == 0x202F && SPACES[23] == 0x205F && SPACES[24] == 0x3000;
    }
  }

  predicate NoSpace(s: string) {
    forall i | 0 <= i < |s| :: !IsSpace(s[i])
  }

  /** `strings.Fields`; `word` is the field being read. */
  function Fields(s: string, word: string): seq<string>
    decreases |s|
  {
    var done := if word == "" then [] else [word];
    if s == "" then done
    else if IsSpace(s[0]) then done + Fields(s[1..], "")
    else Fields(s[1..], word + [s[0]])
  }

  datatype Line = Line(bridge: string, network: string)

  function Read(line: Line, field: string): Line {
    if HasPrefix(field, "bridge=") then line.(bridge := field[7..])
    else if HasPrefix(field, "network=") then line.(network := field[8..])
    else line
  }

  function ReadAll(fields: seq<string>): Line {
    if fields == [] then Line("", "") else Read(ReadAll(fields[..|fields| - 1]), fields[|fields| - 1])
  }

  function Parse(detail: string): Line {
    ReadAll(Fields(detail, ""))
  }

  lemma {:induction false} FieldsOfWord(w: string, rest: string, word: string)
    requires NoSpace(w)
    ensures Fields(w + rest, word) == Fields(rest, word + w)
    decreases |w|
  {
    if w == "" {
      assert w + rest == rest && word + w == word;
    } else {
      assert (w + rest)[1..] == w[1..] + rest;
      FieldsOfWord(w[1..], rest, word + [w[0]]);
      assert word + [w[0]] + w[1..] == word + w;
    }
  }

  /** The fields of a string have no spaces in them. */
  lemma {:induction false} FieldsHaveNoSpace(s: string, word: string)
    requires NoSpace(word)
    ensures forall i | 0 <= i < |Fields(s, word)| :: NoSpace(Fields(s, word)[i])
    decreases |s|
  {
    if s != "" {
      if IsSpace(s[0]) {
        FieldsHaveNoSpace(s[1..], "");
      } else {
        FieldsHaveNoSpace(s[1..], word + [s[0]]);
      }
    }
  }

  lemma {:induction false} ReadHasNoSpace(fields: seq<string>)
    requires forall i | 0 <= i < |fields| :: NoSpace(fields[i])
    ensures NoSpace(ReadAll(fields).bridge) && NoSpace(ReadAll(fields).network)
  {
    if fields != [] {
      ReadHasNoSpace(fields[..|fields| - 1]);
      assert NoSpace(fields[|fields| - 1]);
    }
  }

  lemma PrintedFields(bridge: string, network: string)
    requires NoSpace(bridge) && NoSpace(network)
    ensures Fields(Print(bridge, network), "") == ["bridge=" + bridge, "network=" + network]
  {
    var b, n := "bridge=" + bridge, "network=" + network;
    assert Print(bridge, network) == b + (" " + n);
    FieldsOfWord(b, " " + n, "");
    assert "" + b == b && (" " + n)[1..] == n && n + "" == n && "" + n == n;
    FieldsOfWord(n, "", "");
  }

  /** The parser undoes the printer exactly when neither part has a space in it. */
  lemma PrintThenParse(bridge: string, network: string)
    ensures Parse(Print(bridge, network)) == Line(bridge, network) <==> NoSpace(bridge) && NoSpace(network)
  {
    if NoSpace(bridge) && NoSpace(network) {
      PrintedFields(bridge, network);
      var b, n := "bridge=" + bridge, "network=" + network;
      assert b[7..] == bridge && n[8..] == network && b[..7] == "bridge=" && n[..8] == "network=" && n[0] == 'n';
      var fields := [b, n];
      assert fields[..1] == [b] && fields[..1][..0] == [];
      assert ReadAll([b]) == Line(bridge, "");
    }
    FieldsHaveNoSpace(Print(bridge, network), "");
    ReadHasNoSpace(Fields(Print(bridge, network), ""));
  }

  // ---------- the list of kits ----------

  /** The kit a line advises about, under a network name. */
  function KitOf(detail: string, netname: string): seq<string> {
    var line := Parse(detail);
    if line.network == netname && line.bridge != "" then [line.bridge] else []
  }

  function Kits(entries: seq<string>, netname: string): seq<string> {
    if entries == [] then [] else KitOf(entries[0], netname) + Kits(entries[1..], netname)
  }

  /** The last `n` elements, newest first: how the audit log is listed. */
  function Newest<T>(log: seq<T>, n: nat): seq<T> {
    if log == [] || n == 0 then [] else [log[|log| - 1]] + Newest(log[..|log| - 1], n - 1)
  }

  lemma {:induction false} KitsOneMore(entries: seq<string>, detail: string, netname: string)
    ensures Kits(entries + [detail], netname) == Kits(entries, netname) + KitOf(detail, netname)
  {
    if entries == [] {
      assert [] + [detail] == [detail] && [detail][1..] == [];
    } else {
      assert (entries + [detail])[1..] == entries[1..] + [detail];
      KitsOneMore(entries[1..], detail, netname);
    }
  }

  // ---------- runs ----------

  datatype Event = DeleteKit(bridge: string) | Rotate(netname: string)

  datatype State = State(netname: string, log: seq<string>)

  function Step(s: State, e: Event): State {
    match e
    case DeleteKit(bridge) => if s.netname == "" then s else s.(log := s.log + [Print(bridge, s.netname)])
    case Rotate(netname) => s.(netname := netname)
  }

  function After(es: seq<Event>): State {
    if es == [] then State("", []) else Step(After(es[..|es| - 1]), es[|es| - 1])
  }

  function Names(es: seq<Event>): set<string> {
    set e | e in es && e.Rotate? :: e.netname
  }

  /** Names are new each time, and neither they nor the kits' ids are empty or have spaces. */
  predicate Admissible(es: seq<Event>) {
    es == [] || (
      var e, before := es[|es| - 1], es[..|es| - 1];
      && Admissible(before)
      && match e
         case DeleteKit(bridge) => bridge != "" && NoSpace(bridge)
         case Rotate(netname) => netname != "" && NoSpace(netname) && netname !in Names(before)
    )
  }

  /** Read off the run: the kits deleted since the last rotation, oldest first. */
  function DeletedUnderCurrent(es: seq<Event>): seq<string> {
    if es == [] then []
    else
      match es[|es| - 1]
      case Rotate(_) => []
      case DeleteKit(bridge) =>
        var before := es[..|es| - 1];
        DeletedUnderCurrent(before) + if Names(before) == {} then [] else [bridge]
  }

  lemma {:induction false} CurrentName(es: seq<Event>)
    requires Admissible(es)
    ensures After(es).netname == "" <==> Names(es) == {}
    ensures Names(es) != {} ==> After(es).netname in Names(es) && NoSpace(After(es).netname)
  {
    if es != [] {
      var before, e := es[..|es| - 1], es[|es| - 1];
      CurrentName(before);
      assert es == before + [e];
      assert Names(es) == Names(before) + if e.Rotate? then {e.netname} else {};
    }
  }

  lemma NewestOneMore<T>(log: seq<T>, x: T, n: nat)
    requires n > 0
    ensures Newest(log + [x], n) == [x] + Newest(log, n - 1)
  {
    assert (log + [x])[..|log|] == log;
  }

  lemma ListedOneMore(log: seq<string>, bridge: string, name: string, netname: string, n: nat)
    requires n > 0 && bridge != "" && NoSpace(bridge) && NoSpace(name)
    ensures Kits(Newest(log + [Print(bridge, name)], n), netname)
         == (if name == netname then [bridge] else []) + Kits(Newest(log, n - 1), netname)
  {
    var detail, rest := Print(bridge, name), Newest(log, n - 1);
    NewestOneMore(log, detail, n);
    PrintThenParse(bridge, name);
    assert ([detail] + rest)[1..] == rest;
  }

  /** The matching lines among the newest `n` are the newest deletions under the name; a
      name that was never used has none. */
  lemma {:induction false} ListedUnder(es: seq<Event>, netname: string, n: nat)
    requires Admissible(es) && netname != ""
    ensures netname !in Names(es) ==> Kits(Newest(After(es).log, n), netname) == []
    ensures netname == After(es).netname ==> Kits(Newest(After(es).log, n), netname) == Newest(DeletedUnderCurrent(es), n)
    decreases |es|
  {
    if es != [] {
      var before, e := es[..|es| - 1], es[|es| - 1];
      var s := After(before);
      assert es == before + [e];
      assert Names(es) == Names(before) + if e.Rotate? then {e.netname} else {};
      CurrentName(before);
      ListedUnder(before, netname, n);
      if e.DeleteKit? && s.netname != "" && n > 0 {
        ListedUnder(before, netname, n - 1);
        ListedOneMore(s.log, e.bridge, s.netname, netname, n);
        NewestOneMore(DeletedUnderCurrent(before), e.bridge, n);
      }
    }
  }

  /** After every run the advice lists the kits deleted under the current name, newest
      first and each once, among the 200 newest entries. */
  lemma AdviceList(es: seq<Event>)
    requires Admissible(es) && After(es).netname != ""
    ensures var advised := Distinct(Kits(Newest(After(es).log, 200), After(es).netname));
      var kits := Newest(DeletedUnderCurrent(es), 200);
      && advised == Distinct(kits)
      && NoRepeats(advised)
      && (forall b :: b in advised <==> b in kits)
      && forall i, j | 0 <= i < j < |advised| :: FirstAt(kits, advised[i]) < FirstAt(kits, advised[j])
  {
    ListedUnder(es, After(es).netname, LIMIT);
    DistinctIsFirstOccurrences(Newest(DeletedUnderCurrent(es), LIMIT));
  }

  // ---------- the handlers ----------

  class AccessAdvice {
    var netname: string
    var log: seq<string>

    constructor ()
      ensures State(netname, log) == State("", [])
    {
      netname, log := "", [];
    }

    method AdviseRotation(bridge: string)
      modifies this
      ensures State(netname, log) == Step(State(old(netname), old(log)), DeleteKit(bridge))
    {
      if netname == "" {
        return;
      }
      log := log + [Print(bridge, netname)];
    }

    method RotateAccess(next: string)
      modifies this
      ensures State(netname, log) == Step(State(old(netname), old(log)), Rotate(next))
    {
      netname := next;
    }

    method ParseLine(detail: string) returns (line: Line)
      ensures line == Parse(detail)
    {
      line := Line("", "");
      var fields := Fields(detail, "");
      for j := 0 to |fields|
        invariant line == ReadAll(fields[..j])
      {
        assert fields[..j + 1][..j] == fields[..j];
        line := Read(line, fields[j]);
      }
      assert fields[..|fields|] == fields;
    }

    method RotationAdvised() returns (out: seq<string>)
      ensures out == Distinct(Kits(Newest(log, LIMIT), netname))
    {
      var entries := Newest(log, LIMIT);
      out := [];
      var seen: set<string> := {};
      for i := 0 to |entries|
        invariant out == Distinct(Kits(entries[..i], netname))
        invariant forall b :: b in seen <==> b in out
      {
        var line := ParseLine(entries[i]);
        assert entries[..i + 1] == entries[..i] + [entries[i]];
        KitsOneMore(entries[..i], entries[i], netname);
        ghost var kits := Kits(entries[..i], netname);
        assert (kits + [line.bridge])[..|kits|] == kits && kits + [] == kits;
        if line.network == netname && line.bridge != "" && line.bridge !in seen {
          seen := seen + {line.bridge};
          out := out + [line.bridge];
        }
      }
      assert entries[..|entries|] == entries;
    }
  }
}
