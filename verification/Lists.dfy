/** Lists without repetition. */
module Lists {
  /** Each element once, where it first occurs. */
  function Distinct(names: seq<string>): seq<string> {
    if names == [] then []
    else
      var d, last := Distinct(names[..|names| - 1]), names[|names| - 1];
      if last in d then d else d + [last]
  }

  predicate NoRepeats(s: seq<string>) {
    forall i, j | 0 <= i < j < |s| :: s[i] != s[j]
  }

  /** Where a name first occurs. */
  function FirstAt(names: seq<string>, n: string): (i: nat)
    requires n in names
    ensures i < |names| && names[i] == n && n !in names[..i]
  {
    if names[0] == n then 0 else
      assert names == [names[0]] + names[1..];
      var i := FirstAt(names[1..], n);
      assert names[..i + 1] == [names[0]] + names[1..][..i];
      i + 1
  }

  /** The elements that occur, each once, ordered by first occurrence. */
  lemma {:induction false} DistinctIsFirstOccurrences(names: seq<string>)
    ensures NoRepeats(Distinct(names))
    ensures forall n :: n in Distinct(names) <==> n in names
    ensures forall i, j | 0 <= i < j < |Distinct(names)| ::
      FirstAt(names, Distinct(names)[i]) < FirstAt(names, Distinct(names)[j])
  {
    if names != [] {
      var init, last := names[..|names| - 1], names[|names| - 1];
      assert names == init + [last];
      DistinctIsFirstOccurrences(init);
      var d, d' := Distinct(init), Distinct(names);
      forall n | n in init ensures FirstAt(names, n) == FirstAt(init, n) {
        assert names[..FirstAt(init, n)] == init[..FirstAt(init, n)];
        FirstIsUnique(names, n, FirstAt(init, n));
      }
      if last !in d {
        FirstIsUnique(names, last, |init|);
      }
    }
  }

  lemma FirstIsUnique(names: seq<string>, n: string, i: nat)
    requires i < |names| && names[i] == n && n !in names[..i]
    ensures n in names && FirstAt(names, n) == i
  {
    assert names[i] in names;
  }
}
