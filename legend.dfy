/** The sidebar legend labels that `updateTechSpeed` derives from a
    selection: the technology label (names looked up from the codes, sorted,
    with "Other" forced last) and the speed label (`25_3` shown as `25/3`). */
module Legend {

  import opened Values
  import opened Strings

  /** An entry of the technology table: a code and its display name. */
  datatype Technology = Technology(value: string, name: string)

  const OtherName := "Other"

  /** The positions of `table` whose entry has code `code` and name `n`. */
  ghost function EntriesFor(table: seq<Technology>, code: char, n: string): set<nat>
  {
    set k: nat | k < |table| && table[k].value == [code] && table[k].name == n
  }

  /** The pairs (position in `selectedTech`, position in `table`) whose code
      matches and whose entry is named `n`: the `forEach`/`filter` pushes
      `n` once for each of them. */
  ghost function TechPairs(table: seq<Technology>, selectedTech: string, n: string): set<(int, int)>
  {
    set i, k | 0 <= i < |selectedTech| && 0 <= k < |table| && table[k].value == [selectedTech[i]] && table[k].name == n :: (i, k)
  }

  /** The names of every table entry whose code is `code`, in table order:
      each name as often as there are entries with that code and name. */
  function MatchingNames(table: seq<Technology>, code: char): (r: seq<string>)
    ensures forall n :: multiset(r)[n] == |EntriesFor(table, code, n)|
  {
    if |table| == 0 then
      assert forall n :: EntriesFor(table, code, n) == {};
      []
    else
      EntriesForTail(table, code);
      (if table[0].value == [code] then [table[0].name] else []) + MatchingNames(table[1..], code)
  }

  /** The names of every code of `selectedTech`, code by code; a code with
      no entry contributes nothing, and a repeated code or entry contributes
      its name again. */
  function TechNames(table: seq<Technology>, selectedTech: string): (r: seq<string>)
    ensures forall n :: multiset(r)[n] == |TechPairs(table, selectedTech, n)|
  {
    if |selectedTech| == 0 then
      assert forall n :: TechPairs(table, selectedTech, n) == {};
      []
    else
      TechPairsTail(table, selectedTech);
      MatchingNames(table, selectedTech[0]) + TechNames(table, selectedTech[1..])
  }

  /** Shifting every position by one keeps the number of positions. */
  lemma {:induction false} ShiftCard(s: set<nat>)
    ensures |set k: nat | k in s :: k + 1| == |s|
  {
    if |s| > 0 {
      var x :| x in s;
      var rest := s - {x};
      ShiftCard(rest);
      var image := set k: nat | k in rest :: k + 1;
      var whole := set k: nat | k in s :: k + 1;
      forall y | y in whole ensures y in image + {x + 1} {
        var k: nat :| k in s && y == k + 1;
        assert k != x ==> k in rest;
      }
      assert whole == image + {x + 1};
      assert x + 1 !in image;
    }
  }

  /** Shifting the first position of every pair by one keeps the number of
      pairs. */
  lemma {:induction false} PairShiftCard(s: set<(int, int)>)
    ensures |set p | p in s :: (p.0 + 1, p.1)| == |s|
  {
    if |s| > 0 {
      var x :| x in s;
      var rest := s - {x};
      PairShiftCard(rest);
      var image := set p | p in rest :: (p.0 + 1, p.1);
      assert (set p | p in s :: (p.0 + 1, p.1)) == image + {(x.0 + 1, x.1)};
      assert (x.0 + 1, x.1) !in image;
    }
  }

  /** Pairing every position with 0 keeps the number of positions. */
  lemma {:induction false} PairHeadCard(s: set<nat>)
    ensures |set k: nat | k in s :: (0, k)| == |s|
  {
    if |s| > 0 {
      var x :| x in s;
      var rest := s - {x};
      PairHeadCard(rest);
      var image := set k: nat | k in rest :: (0, k);
      var whole := set k: nat | k in s :: (0, k);
      forall y | y in whole ensures y in image + {(0, x)} {
        var k: nat :| k in s && y == (0, k);
        assert k != x ==> k in rest;
      }
      assert whole == image + {(0, x)};
      assert (0, x) !in image;
    }
  }

  /** The entries of a table are those of its first position and those of
      the rest, shifted by one. */
  lemma EntriesForTail(table: seq<Technology>, code: char)
    requires |table| > 0
    ensures forall n :: (|EntriesFor(table, code, n)| ==
      (if table[0].value == [code] && table[0].name == n then 1 else 0) + |EntriesFor(table[1..], code, n)|)
  {
    forall n
      ensures |EntriesFor(table, code, n)| ==
        (if table[0].value == [code] && table[0].name == n then 1 else 0) + |EntriesFor(table[1..], code, n)|
    {
      EntriesForSplit(table, code, n);
    }
  }

  lemma EntriesForSplit(table: seq<Technology>, code: char, n: string)
    requires |table| > 0
    ensures |EntriesFor(table, code, n)| ==
      (if table[0].value == [code] && table[0].name == n then 1 else 0) + |EntriesFor(table[1..], code, n)|
  {
    var tail := EntriesFor(table[1..], code, n);
    ShiftCard(tail);
    var shifted := set k: nat | k in tail :: k + 1;
    var head: set<nat> := if table[0].value == [code] && table[0].name == n then {0} else {};
    EntriesForCover(table, code, n, head, shifted);
    assert forall k :: k in shifted ==> k > 0;
    assert |head + shifted| == |head| + |shifted|;
  }

  lemma EntriesForCover(table: seq<Technology>, code: char, n: string, head: set<nat>, shifted: set<nat>)
    requires |table| > 0
    requires head == if table[0].value == [code] && table[0].name == n then {0} else {}
    requires shifted == set k: nat | k in EntriesFor(table[1..], code, n) :: k + 1
    ensures EntriesFor(table, code, n) == head + shifted
  {
    var tail := EntriesFor(table[1..], code, n);
    forall k | k in EntriesFor(table, code, n) && k > 0 ensures k in shifted {
      assert table[1..][k - 1] == table[k];
      assert k - 1 in tail;
    }
    forall k | k in shifted ensures k in EntriesFor(table, code, n) {
      var j :| j in tail && k == j + 1;
      assert table[1..][j] == table[j + 1];
    }
  }

  /** The pairs of a selection are those of its first code and those of the
      rest, shifted by one position. */
  lemma TechPairsTail(table: seq<Technology>, selectedTech: string)
    requires |selectedTech| > 0
    ensures forall n :: (|TechPairs(table, selectedTech, n)| ==
      |EntriesFor(table, selectedTech[0], n)| + |TechPairs(table, selectedTech[1..], n)|)
  {
    forall n
      ensures |TechPairs(table, selectedTech, n)| ==
        |EntriesFor(table, selectedTech[0], n)| + |TechPairs(table, selectedTech[1..], n)|
    {
      TechPairsSplit(table, selectedTech, n);
    }
  }

  lemma TechPairsSplit(table: seq<Technology>, selectedTech: string, n: string)
    requires |selectedTech| > 0
    ensures |TechPairs(table, selectedTech, n)| ==
      |EntriesFor(table, selectedTech[0], n)| + |TechPairs(table, selectedTech[1..], n)|
  {
    var first := EntriesFor(table, selectedTech[0], n);
    var rest := TechPairs(table, selectedTech[1..], n);
    PairHeadCard(first);
    PairShiftCard(rest);
    var heads: set<(int, int)> := set k: nat | k in first :: (0, k);
    var shifted := set p | p in rest :: (p.0 + 1, p.1);
    TechPairsCover(table, selectedTech, n, heads, shifted);
    assert forall p :: p in shifted ==> p.0 > 0;
    assert |heads + shifted| == |heads| + |shifted|;
  }

  lemma TechPairsCover(table: seq<Technology>, selectedTech: string, n: string, heads: set<(int, int)>, shifted: set<(int, int)>)
    requires |selectedTech| > 0
    requires heads == set k: nat | k in EntriesFor(table, selectedTech[0], n) :: (0, k)
    requires shifted == set p | p in TechPairs(table, selectedTech[1..], n) :: (p.0 + 1, p.1)
    ensures TechPairs(table, selectedTech, n) == heads + shifted
  {
    var rest := TechPairs(table, selectedTech[1..], n);
    forall p | p in TechPairs(table, selectedTech, n) ensures p in heads + shifted {
      if p.0 == 0 {
        assert p.1 in EntriesFor(table, selectedTech[0], n);
      } else {
        assert selectedTech[1..][p.0 - 1] == selectedTech[p.0];
        assert (p.0 - 1, p.1) in rest;
      }
    }
    forall p | p in shifted ensures p in TechPairs(table, selectedTech, n) {
      var q :| q in rest && p == (q.0 + 1, q.1);
      assert selectedTech[1..][q.0] == selectedTech[q.0 + 1];
    }
  }

  /** The names sorted, with one "Other" (if any) taken out and appended last. */
  function LegendOrder(names: seq<string>): (r: seq<string>)
    ensures multiset(r) == multiset(names)
    ensures OtherName in names ==> |r| > 0 && r[|r| - 1] == OtherName && Sorted(r[..|r| - 1])
    ensures OtherName !in names ==> Sorted(r)
  {
    match IndexOf(names, OtherName)
    case Some(i) =>
      var rest := RemoveAt(names, i);
      var r := Sort(rest) + [OtherName];
      assert r[..|r| - 1] == Sort(rest);
      r
    case None =>
      Sort(names)
  }

  /** The legend order: sorted, except that when "Other" occurs one
      "Other" is last and the rest is sorted. */
  predicate LegendOrdered(names: seq<string>)
  {
    if OtherName in names then names[|names| - 1] == OtherName && Sorted(names[..|names| - 1])
    else Sorted(names)
  }

  /** The legend order is unique for given names. */
  lemma LegendOrderedUnique(a: seq<string>, b: seq<string>)
    requires LegendOrdered(a) && LegendOrdered(b) && multiset(a) == multiset(b)
    ensures a == b
  {
    assert OtherName in a <==> OtherName in b by {
      assert OtherName in a <==> OtherName in multiset(a);
      assert OtherName in b <==> OtherName in multiset(b);
    }
    if OtherName in a {
      OtherDropped(a);
      OtherDropped(b);
      SortedUnique(a[..|a| - 1], b[..|b| - 1]);
    } else {
      SortedUnique(a, b);
    }
  }

  /** Taking the last "Other" off a list in legend order leaves a sorted
      list of the other names. */
  lemma OtherDropped(a: seq<string>)
    requires LegendOrdered(a) && OtherName in a
    ensures Sorted(a[..|a| - 1])
    ensures multiset(a[..|a| - 1]) == multiset(a) - multiset{OtherName}
    ensures a == a[..|a| - 1] + [OtherName]
  {
    assert a == a[..|a| - 1] + [OtherName];
  }

  /** The lists of names the technology label can be made of: every name
      once per matching (code, entry) pair, in legend order. */
  ghost predicate LegendNames(table: seq<Technology>, selectedTech: string, names: seq<string>)
  {
    && LegendOrdered(names)
    && forall n :: multiset(names)[n] == |TechPairs(table, selectedTech, n)|
  }

  /** The ordered names satisfy `LegendNames`, and no other list does. */
  lemma LegendNamesOrdered(table: seq<Technology>, selectedTech: string)
    ensures LegendNames(table, selectedTech, LegendOrder(TechNames(table, selectedTech)))
    ensures forall names :: LegendNames(table, selectedTech, names) ==>
      names == LegendOrder(TechNames(table, selectedTech))
  {
    var found := TechNames(table, selectedTech);
    var ordered := LegendOrder(found);
    assert OtherName in ordered <==> OtherName in found by {
      assert OtherName in multiset(ordered) <==> OtherName in multiset(found);
    }
    assert LegendOrdered(ordered);
    forall names | LegendNames(table, selectedTech, names) ensures names == ordered {
      assert multiset(names) == multiset(ordered);
      LegendOrderedUnique(names, ordered);
    }
  }

  /** The technology label: the names, each once per matching (code, entry)
      pair, in legend order, joined with ", "; that list of names is the
      only one with those counts in that order. */
  function TechLabel(table: seq<Technology>, selectedTech: string): (r: string)
    ensures exists names :: LegendNames(table, selectedTech, names) && r == Join(names, ", ")
    ensures forall names :: LegendNames(table, selectedTech, names) ==> r == Join(names, ", ")
  {
    LegendNamesOrdered(table, selectedTech);
    Join(LegendOrder(TechNames(table, selectedTech)), ", ")
  }

  /** The speed label: every `_` shown as `/`, and "200" shown as "0.2/0.2". */
  function SpeedLabel(selectedSpeed: string): (r: string)
    ensures '_' !in r
  {
    JoinSplitReplaces(selectedSpeed, '_', '/');
    var joined := Join(Split(selectedSpeed, '_'), "/");
    if joined == "200" then "0.2/0.2" else joined
  }

  /** An empty selection has an empty technology label. */
  lemma EmptyTechLabel(table: seq<Technology>)
    ensures TechLabel(table, "") == ""
  {
  }

  /** "Other" is listed last even where a plain sort would put it first:
      with a name that sorts after "Other", codes `so` give
      "<name>, Other", where sorting alone gives "Other, <name>". */
  lemma OtherListedLast(table: seq<Technology>, name: string)
    requires table == [Technology("s", name), Technology("o", OtherName)]
    requires LexLeq(OtherName, name) && name != OtherName
    ensures TechLabel(table, "so") == name + ", " + OtherName
    ensures Join(Sort(TechNames(table, "so")), ", ") == OtherName + ", " + name
  {
    ExampleNames(table, name);
    ExampleOrder(name);
    ExampleSort(name);
    ExampleJoin(name, OtherName);
    ExampleJoin(OtherName, name);
  }

  /** For instance, "Satellite" is listed before "Other". */
  lemma SatelliteListedLast(table: seq<Technology>)
    requires table == [Technology("s", "Satellite"), Technology("o", "Other")]
    ensures TechLabel(table, "so") == "Satellite, Other"
  {
    var name := "Satellite";
    assert LexLeq(OtherName, name) by {
      assert OtherName[0] < name[0];
    }
    OtherListedLast(table, name);
    SatelliteOtherText();
  }

  lemma SatelliteOtherText()
    ensures "Satellite" + ", " + OtherName == "Satellite, Other"
  {
  }

  lemma ExampleJoin(a: string, b: string)
    ensures Join([a, b], ", ") == a + ", " + b
  {
    assert [a, b][1..] == [b];
  }

  lemma ExampleSort(name: string)
    requires LexLeq(OtherName, name) && name != OtherName
    ensures Sort([name, OtherName]) == [OtherName, name]
  {
    assert Sort([OtherName]) == [OtherName] by {
      assert [OtherName][1..] == [];
    }
    assert [name, OtherName][1..] == [OtherName];
    if LexLeq(name, OtherName) {
      LexLeqAntisymmetric(name, OtherName);
    }
    assert [OtherName][1..] == [];
  }

  lemma ExampleOrder(name: string)
    requires name != OtherName
    ensures LegendOrder([name, OtherName]) == [name, OtherName]
  {
    assert IndexOf([name, OtherName], OtherName) == Some(1) by {
      assert [name, OtherName][1..] == [OtherName];
    }
    assert RemoveAt([name, OtherName], 1) == [name] by {
      assert [name, OtherName][..1] == [name];
    }
    assert Sort([name]) == [name] by {
      assert [name][1..] == [];
    }
  }

  lemma ExampleNames(table: seq<Technology>, name: string)
    requires table == [Technology("s", name), Technology("o", OtherName)]
    ensures TechNames(table, "so") == [name, OtherName]
  {
    assert MatchingNames(table[1..][1..], 'o') == [];
    assert MatchingNames(table[1..], 'o') == [OtherName];
    assert MatchingNames(table, 'o') == [OtherName];
    assert MatchingNames(table[1..][1..], 's') == [];
    assert MatchingNames(table[1..], 's') == [];
    assert MatchingNames(table, 's') == [name];
    assert "so"[1..] == "o" && "o"[1..] == "";
    assert TechNames(table, "") == [];
    assert TechNames(table, "o") == [OtherName];
  }

  /** The speed label is the character-wise replacement of `_` by `/`, except
      for the tier "200". */
  lemma SpeedLabelReplaces(selectedSpeed: string)
    ensures SpeedLabel(selectedSpeed) ==
      if selectedSpeed == "200" then "0.2/0.2" else ReplaceChar(selectedSpeed, '_', '/')
  {
    JoinSplitReplaces(selectedSpeed, '_', '/');
    var replaced := ReplaceChar(selectedSpeed, '_', '/');
    if replaced == "200" {
      assert forall i :: 0 <= i < |selectedSpeed| ==> selectedSpeed[i] == replaced[i];
    }
  }

  lemma SpeedLabelExamples()
    ensures SpeedLabel("25_3") == "25/3"
    ensures SpeedLabel("200") == "0.2/0.2"
  {
    SpeedLabelReplaces("25_3");
    SpeedLabelReplaces("200");
  }
}
