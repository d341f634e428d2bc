/** How a grid flattens what it is given and cuts it at each full row, and the keys its parts get. */
module FieldGrid {
  import opened Numerals

  /** A child as `Children.toArray` hands it over: text has no key, everything else has one. */
  datatype Node = Text(id: nat) | Element(key: string, fullRow: bool) | Fragment(key: string, children: seq<Node>)

  /** A child with every fragment opened. */
  datatype Flat = FlatText(id: nat) | FlatElement(key: string, fullRow: bool)

  /** Each element re-keyed by the fragments it came from. */
  function Flatten(children: seq<Node>, prefix: string): seq<Flat> {
    if children == [] then []
    else FlattenOne(children[0], prefix) + Flatten(children[1..], prefix)
  }

  function FlattenOne(child: Node, prefix: string): seq<Flat> {
    match child
    case Text(id) => [FlatText(id)]
    case Element(key, fullRow) => [FlatElement(prefix + key, fullRow)]
    case Fragment(key, children) => Flatten(children, prefix + key + "/")
  }

  lemma {:induction false} FlattenConcat(a: seq<Node>, b: seq<Node>, prefix: string)
    ensures Flatten(a + b, prefix) == Flatten(a, prefix) + Flatten(b, prefix)
  {
    if a == [] {
      assert a + b == b;
    } else {
      assert (a + b)[0] == a[0] && (a + b)[1..] == a[1..] + b;
      FlattenConcat(a[1..], b, prefix);
    }
  }

  /**
   * Wherever a child stands it comes out there, between what comes before it and what comes after: text as it is,
   * an element under the keys of its fragments and its own, and a fragment as its own children.
   */
  lemma FlattensInPlace(before: seq<Node>, child: Node, after: seq<Node>, prefix: string)
    ensures var flat, a, b := Flatten(before + [child] + after, prefix), Flatten(before, prefix), Flatten(after, prefix);
            && (child.Text? ==> flat == a + [FlatText(child.id)] + b)
            && (child.Element? ==> flat == a + [FlatElement(prefix + child.key, child.fullRow)] + b)
            && (child.Fragment? ==> flat == a + Flatten(child.children, prefix + child.key + "/") + b)
    ensures Flatten([], prefix) == []
  {
    FlattenConcat(before + [child], after, prefix);
    FlattenConcat(before, [child], prefix);
    assert [child][1..] == [] && Flatten([child], prefix) == FlattenOne(child, prefix) + [];
  }

  // ------------------------------------------------------------------- keys

  predicate Keyed(n: Node) {
    !n.Text?
  }

  function KeyOf(n: Node): string
    requires Keyed(n)
  {
    n.key
  }

  /** Siblings' keys differ and have no slash, and so do those inside a fragment. */
  predicate WellKeyed(children: seq<Node>) {
    && (forall i :: 0 <= i < |children| && Keyed(children[i]) ==> '/' !in KeyOf(children[i]))
    && (forall i, j :: 0 <= i < j < |children| && Keyed(children[i]) && Keyed(children[j])
          ==> KeyOf(children[i]) != KeyOf(children[j]))
    && (forall i :: 0 <= i < |children| && children[i].Fragment? ==> WellKeyed(children[i].children))
  }

  /** The dot `Children.toArray` puts before every key. */
  predicate StartsWithDot(key: string) {
    key != "" && key[0] == '.'
  }

  predicate Dotted(children: seq<Node>) {
    && (forall i :: 0 <= i < |children| && Keyed(children[i]) ==> StartsWithDot(KeyOf(children[i])))
    && (forall i :: 0 <= i < |children| && children[i].Fragment? ==> Dotted(children[i].children))
  }

  /** `s` continues `prefix` with `key` and then ends or goes on after a slash. */
  predicate Under(s: string, prefix: string, key: string, deeper: bool) {
    if deeper then prefix + key + "/" <= s else s == prefix + key
  }

  /** How far `s` goes before a slash. */
  function BeforeSlash(s: string): (n: nat)
    ensures n <= |s| && '/' !in s[..n] && (n < |s| ==> s[n] == '/')
  {
    if s == "" || s[0] == '/' then 0
    else
      var n := BeforeSlash(s[1..]);
      assert s[..n + 1] == [s[0]] + s[1..][..n];
      n + 1
  }

  /** A key without slashes is what comes before the first. */
  lemma KeyIsBeforeSlash(rest: string, key: string, deeper: bool)
    requires '/' !in key && if deeper then key + "/" <= rest else rest == key
    ensures BeforeSlash(rest) == |key| && key == rest[..|key|] && deeper == (|key| < |rest|)
  {
    var n := BeforeSlash(rest);
    assert rest[..|key|] == key;
    assert deeper ==> rest[|key|] == '/';
    assert forall k :: 0 <= k < |key| ==> rest[k] == key[k] && key[k] in key;
    assert forall k :: 0 <= k < n ==> rest[k] in rest[..n];
  }

  /** Two different sibling keys lead to different keys, however much deeper either goes. */
  lemma SiblingsPart(s: string, prefix: string, k1: string, deeper1: bool, k2: string, deeper2: bool)
    requires '/' !in k1 && '/' !in k2
    requires Under(s, prefix, k1, deeper1) && Under(s, prefix, k2, deeper2)
    ensures k1 == k2 && deeper1 == deeper2
  {
    var rest := s[|prefix|..];
    KeyIsBeforeSlash(rest, k1, deeper1);
    KeyIsBeforeSlash(rest, k2, deeper2);
  }

  predicate DistinctKeys(flat: seq<Flat>) {
    forall i, j :: 0 <= i < j < |flat| && flat[i].FlatElement? && flat[j].FlatElement? ==> flat[i].key != flat[j].key
  }

  /** Every key under a child continues that child's own. */
  lemma {:induction false} KeysUnderChild(child: Node, prefix: string)
    ensures forall f :: f in FlattenOne(child, prefix) && f.FlatElement? ==>
              Keyed(child) && Under(f.key, prefix, KeyOf(child), child.Fragment?)
    decreases child, 0
  {
    if child.Fragment? {
      KeysUnder(child.children, prefix + child.key + "/");
    }
  }

  lemma {:induction false} KeysUnder(children: seq<Node>, prefix: string)
    ensures forall f :: f in Flatten(children, prefix) && f.FlatElement? ==> prefix <= f.key
    decreases children, 1
  {
    if children != [] {
      KeysUnderChild(children[0], prefix);
      KeysUnder(children[1..], prefix);
    }
  }

  /** Where an element of the flattened list came from. */
  lemma {:induction false} CameFrom(children: seq<Node>, prefix: string, f: Flat) returns (i: nat)
    requires f in Flatten(children, prefix)
    ensures i < |children| && f in FlattenOne(children[i], prefix)
  {
    if f in FlattenOne(children[0], prefix) {
      i := 0;
    } else {
      var j := CameFrom(children[1..], prefix, f);
      i := j + 1;
    }
  }

  lemma FragmentsKeyed(children: seq<Node>)
    requires WellKeyed(children) && children != []
    ensures WellKeyed(children[1..])
    ensures children[0].Fragment? ==> WellKeyed(children[0].children)
  {
  }

  /** For any nesting: opening the fragments gives no two elements the same key. */
  lemma {:induction false} FlattenKeepsKeysDistinct(children: seq<Node>, prefix: string)
    requires WellKeyed(children)
    ensures DistinctKeys(Flatten(children, prefix))
    decreases children
  {
    if children != [] {
      FragmentsKeyed(children);
      FlattenKeepsKeysDistinct(children[1..], prefix);
      if children[0].Fragment? {
        FlattenKeepsKeysDistinct(children[0].children, prefix + children[0].key + "/");
      }
      var first, rest := FlattenOne(children[0], prefix), Flatten(children[1..], prefix);
      forall i, j | 0 <= i < |first| && 0 <= j < |rest| && first[i].FlatElement? && rest[j].FlatElement?
        ensures first[i].key != rest[j].key
      {
        FirstPartsFromRest(children, prefix, first[i], rest[j]);
      }
    }
  }

  lemma FirstPartsFromRest(children: seq<Node>, prefix: string, a: Flat, b: Flat)
    requires WellKeyed(children) && children != []
    requires a in FlattenOne(children[0], prefix) && b in Flatten(children[1..], prefix)
    requires a.FlatElement? && b.FlatElement?
    ensures a.key != b.key
  {
    var k := CameFrom(children[1..], prefix, b);
    KeysUnderChild(children[0], prefix);
    KeysUnderChild(children[k + 1], prefix);
    if a.key == b.key {
      SiblingsPart(a.key, prefix, KeyOf(children[0]), children[0].Fragment?, KeyOf(children[k + 1]), children[k + 1].Fragment?);
    }
  }

  /** And every element's key begins with the dot, so no numeral is one. */
  lemma {:induction false} FlattenKeysDotted(children: seq<Node>, prefix: string)
    requires Dotted(children) && (prefix == "" || StartsWithDot(prefix))
    ensures forall f :: f in Flatten(children, prefix) && f.FlatElement? ==> StartsWithDot(f.key)
    decreases children
  {
    if children != [] {
      assert Dotted(children[1..]);
      FlattenKeysDotted(children[1..], prefix);
      if children[0].Fragment? {
        FlattenKeysDotted(children[0].children, prefix + children[0].key + "/");
      }
    }
  }

  // ------------------------------------------------------------------- runs

  datatype Run = Full(row: Flat, key: string) | Cells(cells: seq<Flat>, key: string)

  predicate IsFullRow(f: Flat) {
    f.FlatElement? && f.fullRow
  }

  function Contents(run: Run): seq<Flat> {
    if run.Full? then [run.row] else run.cells
  }

  function Concat(runs: seq<Run>): seq<Flat> {
    if runs == [] then [] else Concat(runs[..|runs| - 1]) + Contents(runs[|runs| - 1])
  }

  /** A full run holds a full row, a cell run some cells and none of them one. */
  predicate WellFormed(run: Run) {
    if run.Full? then IsFullRow(run.row)
    else run.cells != [] && forall k :: 0 <= k < |run.cells| ==> !IsFullRow(run.cells[k])
  }

  /** What a split of `flat` is. */
  predicate IsSplit(runs: seq<Run>, flat: seq<Flat>) {
    && Concat(runs) == flat
    && (forall i :: 0 <= i < |runs| ==> WellFormed(runs[i]))
    && (forall i :: 0 < i < |runs| ==> runs[i].Full? || runs[i - 1].Full?)
  }

  /** A run's key: the key of the child that opened it, or its number when that was text. */
  function RunKey(child: Flat, number: nat): string {
    if child.FlatElement? then child.key else Numeral(number)
  }

  /** The child a run opened with. */
  function Opener(run: Run): Flat
    requires WellFormed(run)
  {
    if run.Full? then run.row else run.cells[0]
  }

  /** A split whose runs are keyed by what opened them. */
  predicate KeyedSplit(runs: seq<Run>, flat: seq<Flat>) {
    IsSplit(runs, flat) && forall k :: 0 <= k < |runs| ==> WellFormed(runs[k]) && runs[k].key == RunKey(Opener(runs[k]), k)
  }

  /** The next child opens a run of its own, or joins the cells of the last. */
  method AddChild(runs: seq<Run>, ghost flat: seq<Flat>, child: Flat) returns (runs': seq<Run>)
    requires KeyedSplit(runs, flat)
    ensures KeyedSplit(runs', flat + [child])
  {
    if IsFullRow(child) {
      PushKeyed(runs, flat, Full(child, RunKey(child, |runs|)));
      runs' := runs + [Full(child, RunKey(child, |runs|))];
    } else if runs != [] && runs[|runs| - 1].Cells? {
      var last := runs[|runs| - 1];
      ExtendKeyed(runs, flat, child);
      runs' := runs[..|runs| - 1] + [last.(cells := last.cells + [child])];
    } else {
      PushKeyed(runs, flat, Cells([child], RunKey(child, |runs|)));
      runs' := runs + [Cells([child], RunKey(child, |runs|))];
    }
  }

  method SplitFlat(flat: seq<Flat>) returns (runs: seq<Run>)
    ensures KeyedSplit(runs, flat)
  {
    runs := [];
    for i := 0 to |flat|
      invariant KeyedSplit(runs, flat[..i])
    {
      assert flat[..i + 1] == flat[..i] + [flat[i]];
      runs := AddChild(runs, flat[..i], flat[i]);
    }
    assert flat[..|flat|] == flat;
  }

  /**
   * Walks the flattened children, pushing onto the run it is building. The result is a split, keyed
   * by what opened each run.
   */
  method SplitAtFullRows(children: seq<Node>) returns (runs: seq<Run>)
    ensures KeyedSplit(runs, Flatten(children, ""))
    ensures forall k :: 0 <= k < |runs| ==> KeyedByFirst(runs[k], k)
  {
    runs := SplitFlat(Flatten(children, ""));
  }

  /** A run has the key of the first child in it, or its own number when that is text. */
  predicate KeyedByFirst(run: Run, number: nat) {
    Contents(run) != []
    && match Contents(run)[0]
       case FlatElement(key, _) => run.key == key
       case FlatText(_) => run.key == Numeral(number)
  }

  lemma PushKeeps(runs: seq<Run>, flat: seq<Flat>, run: Run)
    requires IsSplit(runs, flat) && WellFormed(run) && (runs == [] || run.Full? || runs[|runs| - 1].Full?)
    ensures IsSplit(runs + [run], flat + Contents(run))
  {
    assert (runs + [run])[..|runs|] == runs;
  }

  lemma ExtendKeeps(runs: seq<Run>, flat: seq<Flat>, child: Flat)
    requires IsSplit(runs, flat) && runs != [] && runs[|runs| - 1].Cells? && !IsFullRow(child)
    ensures var last := runs[|runs| - 1];
            var runs' := runs[..|runs| - 1] + [last.(cells := last.cells + [child])];
            IsSplit(runs', flat + [child]) && |runs'| == |runs|
            && forall k :: 0 <= k < |runs| ==> Opener(runs'[k]) == Opener(runs[k]) && runs'[k].key == runs[k].key
  {
    var last := runs[|runs| - 1];
    var runs' := runs[..|runs| - 1] + [last.(cells := last.cells + [child])];
    assert runs'[..|runs| - 1] == runs[..|runs| - 1];
    assert Concat(runs') == Concat(runs[..|runs| - 1]) + (last.cells + [child]);
  }

  lemma PushKeyed(runs: seq<Run>, flat: seq<Flat>, run: Run)
    requires KeyedSplit(runs, flat) && WellFormed(run) && (runs == [] || run.Full? || runs[|runs| - 1].Full?)
    requires run.key == RunKey(Opener(run), |runs|)
    ensures KeyedSplit(runs + [run], flat + Contents(run))
  {
    PushKeeps(runs, flat, run);
  }

  lemma ExtendKeyed(runs: seq<Run>, flat: seq<Flat>, child: Flat)
    requires KeyedSplit(runs, flat) && runs != [] && runs[|runs| - 1].Cells? && !IsFullRow(child)
    ensures var last := runs[|runs| - 1];
            KeyedSplit(runs[..|runs| - 1] + [last.(cells := last.cells + [child])], flat + [child])
  {
    ExtendKeeps(runs, flat, child);
  }

  predicate Alike(a: Run, b: Run) {
    a.Full? == b.Full? && Contents(a) == Contents(b)
  }

  /** There is only one split: two with the same contents have the same runs, keys aside. */
  lemma {:induction false} SplitIsUnique(a: seq<Run>, b: seq<Run>, flat: seq<Flat>)
    requires IsSplit(a, flat) && IsSplit(b, flat)
    ensures |a| == |b|
    ensures forall k :: 0 <= k < |a| ==> Alike(a[k], b[k])
    decreases |a|
  {
    if a == [] || b == [] {
      OnlyEmpty(a, b);
    } else {
      var a', b' := a[..|a| - 1], b[..|b| - 1];
      var front := SameLastAndBefore(a, b, flat);
      SplitIsUnique(a', b', front);
      AlikeThroughout(a, b);
    }
  }

  lemma AlikeThroughout(a: seq<Run>, b: seq<Run>)
    requires |a| == |b| > 0 && Alike(a[|a| - 1], b[|b| - 1])
    requires var a', b' := a[..|a| - 1], b[..|b| - 1]; forall k :: 0 <= k < |a'| ==> Alike(a'[k], b'[k])
    ensures forall k :: 0 <= k < |a| ==> Alike(a[k], b[k])
  {
    var a', b' := a[..|a| - 1], b[..|b| - 1];
    forall k | 0 <= k < |a|
      ensures Alike(a[k], b[k])
    {
      if k < |a| - 1 {
        assert Alike(a'[k], b'[k]);
      }
    }
  }

  lemma SameLastAndBefore(a: seq<Run>, b: seq<Run>, flat: seq<Flat>) returns (front: seq<Flat>)
    requires IsSplit(a, flat) && IsSplit(b, flat) && a != [] && b != []
    ensures Alike(a[|a| - 1], b[|b| - 1])
    ensures IsSplit(a[..|a| - 1], front) && IsSplit(b[..|b| - 1], front)
  {
    SameLast(a, b, flat);
    SplitsBefore(a, flat);
    SplitsBefore(b, flat);
    front := flat[..|flat| - |Contents(a[|a| - 1])|];
  }

  lemma SplitsBefore(a: seq<Run>, flat: seq<Flat>)
    requires IsSplit(a, flat) && a != []
    ensures var n := |Contents(a[|a| - 1])|;
            n <= |flat| && IsSplit(a[..|a| - 1], flat[..|flat| - n])
  {
    var last := |a| - 1;
    assert flat == Concat(a[..last]) + Contents(a[last]);
    assert flat[..|flat| - |Contents(a[last])|] == Concat(a[..last]);
  }

  lemma OnlyEmpty(a: seq<Run>, b: seq<Run>)
    requires Concat(a) == Concat(b) && (a == [] || b == [])
    requires forall i :: 0 <= i < |a| ==> WellFormed(a[i])
    requires forall i :: 0 <= i < |b| ==> WellFormed(b[i])
    ensures a == [] && b == []
  {
    NotEmpty(a);
    NotEmpty(b);
  }

  lemma NotEmpty(a: seq<Run>)
    requires forall i :: 0 <= i < |a| ==> WellFormed(a[i])
    ensures a != [] ==> Concat(a) != []
  {
  }

  /** The last runs of two splits of one list hold the same. */
  lemma SameLast(a: seq<Run>, b: seq<Run>, flat: seq<Flat>)
    requires IsSplit(a, flat) && IsSplit(b, flat) && a != [] && b != []
    ensures Alike(a[|a| - 1], b[|b| - 1])
  {
    LastBoundary(a, flat);
    LastBoundary(b, flat);
    var x, y := |Contents(a[|a| - 1])|, |Contents(b[|b| - 1])|;
    if a[|a| - 1].Cells? {
      NoFurther(flat, x, y);
      NoFurther(flat, y, x);
    }
  }

  /** Cells reaching back from the end stop where a full row is. */
  lemma NoFurther(flat: seq<Flat>, x: nat, y: nat)
    requires 0 < x <= |flat| && 0 < y <= |flat|
    requires x == |flat| || IsFullRow(flat[|flat| - x - 1])
    requires forall k :: |flat| - y <= k < |flat| ==> !IsFullRow(flat[k])
    ensures y <= x
  {
  }

  /** A last run of cells is everything after the last full row; a last full run is that row alone. */
  lemma LastBoundary(a: seq<Run>, flat: seq<Flat>)
    requires IsSplit(a, flat) && a != []
    ensures var n := |Contents(a[|a| - 1])|;
            && 0 < n <= |flat| && Contents(a[|a| - 1]) == flat[|flat| - n..]
            && (a[|a| - 1].Full? <==> IsFullRow(flat[|flat| - 1]))
            && (a[|a| - 1].Full? ==> n == 1)
            && (a[|a| - 1].Cells? ==> (n == |flat| || IsFullRow(flat[|flat| - n - 1])))
            && (a[|a| - 1].Cells? ==> forall k :: |flat| - n <= k < |flat| ==> !IsFullRow(flat[k]))
  {
    var last := |a| - 1;
    var n := |Contents(a[last])|;
    assert flat == Concat(a[..last]) + Contents(a[last]);
    assert forall k :: |flat| - n <= k < |flat| ==> flat[k] == Contents(a[last])[k - (|flat| - n)];
    if last > 0 && a[last].Cells? {
      assert a[..last][last - 1].Full?;
      assert Concat(a[..last]) == Concat(a[..last][..last - 1]) + [a[last - 1].row];
      assert flat[|flat| - n - 1] == a[last - 1].row;
    }
  }

  function FullRows(flat: seq<Flat>): nat {
    if flat == [] then 0 else FullRows(flat[..|flat| - 1]) + if IsFullRow(flat[|flat| - 1]) then 1 else 0
  }

  function FullRuns(runs: seq<Run>): nat {
    if runs == [] then 0 else FullRuns(runs[..|runs| - 1]) + if runs[|runs| - 1].Full? then 1 else 0
  }

  lemma {:induction false} FullRowsAppend(a: seq<Flat>, b: seq<Flat>)
    ensures FullRows(a + b) == FullRows(a) + FullRows(b)
  {
    if b == [] {
      assert a + b == a;
    } else {
      var last := |b| - 1;
      assert (a + b)[..|a + b| - 1] == a + b[..last];
      FullRowsAppend(a, b[..last]);
    }
  }

  lemma {:induction false} NoFullRows(cells: seq<Flat>)
    requires forall k :: 0 <= k < |cells| ==> !IsFullRow(cells[k])
    ensures FullRows(cells) == 0
  {
    if cells != [] {
      NoFullRows(cells[..|cells| - 1]);
    }
  }

  /** One full run for each full row. */
  lemma {:induction false} OneRunPerFullRow(runs: seq<Run>, flat: seq<Flat>)
    requires IsSplit(runs, flat)
    ensures FullRuns(runs) == FullRows(flat)
    decreases |runs|
  {
    if runs != [] {
      var last := |runs| - 1;
      OneRunPerFullRow(runs[..last], Concat(runs[..last]));
      FullRowsAppend(Concat(runs[..last]), Contents(runs[last]));
      if runs[last].Cells? {
        NoFullRows(runs[last].cells);
      } else {
        assert [runs[last].row][..0] == [];
      }
    }
  }

  // ---------------------------------------------------------------- run keys

  /** Where a run's opener sits in the flattened list. */
  function StartOf(runs: seq<Run>, k: nat): nat
    requires k <= |runs|
  {
    |Concat(runs[..k])|
  }

  lemma {:induction false} OpenerAt(runs: seq<Run>, flat: seq<Flat>, k: nat)
    requires IsSplit(runs, flat) && k < |runs|
    ensures StartOf(runs, k) < |flat| && flat[StartOf(runs, k)] == Opener(runs[k])
    ensures forall j :: 0 <= j < k ==> StartOf(runs, j) < StartOf(runs, k)
    decreases |runs|
  {
    var last := |runs| - 1;
    if k < last {
      OpenerAt(runs[..last], Concat(runs[..last]), k);
      assert runs[..last][..k] == runs[..k];
      forall j | 0 <= j < k
        ensures StartOf(runs, j) < StartOf(runs, k)
      {
        assert runs[..last][..j] == runs[..j];
        assert StartOf(runs[..last], j) < StartOf(runs[..last], k);
      }
    } else {
      forall j | 0 <= j < last
        ensures StartOf(runs, j) < StartOf(runs, last)
      {
        OpenerAt(runs[..last], Concat(runs[..last]), j);
        assert runs[..last][..j] == runs[..j];
      }
    }
  }

  /** The runs built from well-keyed children never share a key. */
  lemma RunKeysDistinct(children: seq<Node>, runs: seq<Run>, i: nat, j: nat)
    requires WellKeyed(children) && Dotted(children) && IsSplit(runs, Flatten(children, "")) && i < j < |runs|
    requires forall k :: 0 <= k < |runs| ==> WellFormed(runs[k]) && runs[k].key == RunKey(Opener(runs[k]), k)
    ensures runs[i].key != runs[j].key
  {
    var flat := Flatten(children, "");
    FlattenKeepsKeysDistinct(children, "");
    FlattenKeysDotted(children, "");
    OpenerAt(runs, flat, i);
    OpenerAt(runs, flat, j);
    var a, b := Opener(runs[i]), Opener(runs[j]);
    assert a in flat && b in flat;
    if !a.FlatElement? && !b.FlatElement? {
      NumeralsDiffer(i, j);
    }
  }
}
