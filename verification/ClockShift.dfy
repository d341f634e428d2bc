/**
 * Wall-clock times across clock changes: the old conversion, recovering what was typed from what
 * it stored, and the conversion that replaced it. Instants are integer milliseconds; a typed time
 * is its own reading as UTC, on a whole minute.
 */
module ClockShift {
  import opened Wrappers

  const MINUTE: int := 60000
  const DAY: int := 86400000

  /** A zone's UTC offset at every instant. */
  type Zone = int -> int

  function ToMinute(t: int): int {
    t / MINUTE * MINUTE
  }

  predicate WholeMinute(t: int) {
    t % MINUTE == 0
  }

  /** Offsets are whole minutes, under a day, and change at most once in any two days. */
  ghost predicate Ordinary(z: Zone) {
    && (forall t :: WholeMinute(z(t)) && -DAY < z(t) < DAY)
    && (forall a, b, c {:trigger WithinTwoDays(a, b, c)} :: WithinTwoDays(a, b, c) ==> z(b) == z(a) || z(b) == z(c))
  }

  predicate WithinTwoDays(a: int, b: int, c: int) {
    a <= b <= c <= a + 2 * DAY
  }

  lemma ToMinuteIsWhole(t: int)
    ensures WholeMinute(ToMinute(t))
  {
  }

  /** What a clock in the zone shows, to the minute. */
  function Shown(z: Zone, at: int): int {
    ToMinute(at + z(at))
  }

  /** The offset, as the script reads it off the display. */
  function OffsetAt(z: Zone, at: int): int {
    Shown(z, at) - ToMinute(at)
  }

  /** What the old conversion stored for a typed time. */
  function OldConversion(z: Zone, typed: int): int {
    typed - OffsetAt(z, typed)
  }

  /** The display hides seconds, and nothing else: the offset read off it is the zone's. */
  lemma OffsetIsTheZones(z: Zone, at: int)
    requires Ordinary(z)
    ensures OffsetAt(z, at) == z(at)
  {
    assert WholeMinute(z(at));
  }

  // ---------------------------------------------------- recovering what was typed

  /** A whole-minute time the old conversion turned into `stored`. */
  ghost predicate TurnedInto(z: Zone, typed: int, stored: int) {
    WholeMinute(typed) && OldConversion(z, typed) == stored
  }

  function Tried(z: Zone, stored: int): seq<int> {
    [OffsetAt(z, stored - DAY), OffsetAt(z, stored), OffsetAt(z, stored + DAY)]
  }

  lemma TriedAreTheZones(z: Zone, stored: int)
    requires Ordinary(z)
    ensures Tried(z, stored) == [z(stored - DAY), z(stored), z(stored + DAY)]
  {
    OffsetIsTheZones(z, stored - DAY);
    OffsetIsTheZones(z, stored);
    OffsetIsTheZones(z, stored + DAY);
  }

  /** Any typed time is the stored instant plus an offset that is tried, the first or the last. */
  lemma TypedIsTried(z: Zone, stored: int, typed: int)
    requires Ordinary(z) && TurnedInto(z, typed, stored)
    ensures typed == stored + z(typed) && ToMinute(stored + z(typed)) == typed
    ensures z(typed) == z(stored - DAY) || z(typed) == z(stored + DAY)
    ensures stored - DAY < typed < stored + DAY
  {
    OffsetIsTheZones(z, typed);
    assert -DAY < z(typed) < DAY;
    assert WithinTwoDays(stored - DAY, typed, stored + DAY);
  }

  /** Of two typed times, the earlier has the offset in force a day before: the one tried first. */
  lemma EarlierIsTriedFirst(z: Zone, stored: int, earlier: int, later: int)
    requires Ordinary(z) && TurnedInto(z, earlier, stored) && TurnedInto(z, later, stored) && earlier < later
    ensures z(earlier) == z(stored - DAY) && earlier == ToMinute(stored + z(stored - DAY))
  {
    TypedIsTried(z, stored, earlier);
    TypedIsTried(z, stored, later);
    assert WithinTwoDays(stored - DAY, earlier, later);
  }

  /** Nothing tried so far converts to the stored instant. */
  predicate NoneOf(z: Zone, stored: int, offsets: seq<int>) {
    forall k :: 0 <= k < |offsets| ==> OldConversion(z, ToMinute(stored + offsets[k])) != stored
  }

  lemma FoundIsEarliest(z: Zone, stored: int, i: nat, found: int, other: int)
    requires Ordinary(z) && i < 3 && NoneOf(z, stored, Tried(z, stored)[..i])
    requires TurnedInto(z, found, stored) && TurnedInto(z, other, stored)
    requires found == ToMinute(stored + Tried(z, stored)[i])
    ensures found <= other
  {
    TriedAreTheZones(z, stored);
    assert i > 0 ==> Tried(z, stored)[..i][0] == z(stored - DAY);
    if other < found {
      EarlierIsTriedFirst(z, stored, other, found);
    }
  }

  lemma FoundIsEarliestOfAll(z: Zone, stored: int, i: nat, found: int)
    requires Ordinary(z) && i < 3 && NoneOf(z, stored, Tried(z, stored)[..i])
    requires found == ToMinute(stored + Tried(z, stored)[i]) && OldConversion(z, found) == stored
    ensures TurnedInto(z, found, stored) && forall other :: TurnedInto(z, other, stored) ==> found <= other
  {
    ToMinuteIsWhole(stored + Tried(z, stored)[i]);
    assert TurnedInto(z, found, stored);
    forall other | TurnedInto(z, other, stored)
      ensures found <= other
    {
      FoundIsEarliest(z, stored, i, found, other);
    }
  }

  lemma NothingToFind(z: Zone, stored: int)
    requires Ordinary(z) && NoneOf(z, stored, Tried(z, stored))
    ensures forall other :: !TurnedInto(z, other, stored)
  {
    TriedAreTheZones(z, stored);
    var offsets := Tried(z, stored);
    assert offsets[0] == z(stored - DAY) && offsets[2] == z(stored + DAY);
    forall other
      ensures !TurnedInto(z, other, stored)
    {
      if TurnedInto(z, other, stored) {
        TypedIsTried(z, stored, other);
      }
    }
  }

  /**
   * Tries each offset in force within a day, earliest first, skipping one already tried. It finds
   * a time exactly when there is one, and the earlier when there are two.
   */
  method TypedFor(z: Zone, stored: int) returns (typed: Option<int>)
    requires Ordinary(z)
    ensures typed.Some? ==> TurnedInto(z, typed.value, stored)
    ensures typed.Some? ==> forall other :: TurnedInto(z, other, stored) ==> typed.value <= other
    ensures typed.None? ==> forall other :: !TurnedInto(z, other, stored)
  {
    var offsets := Tried(z, stored);
    var tried: set<int> := {};
    for i := 0 to 3
      invariant forall k :: 0 <= k < i ==> offsets[k] in tried
      invariant Failed(z, stored, tried)
    {
      if offsets[i] !in tried {
        var candidate := ToMinute(stored + offsets[i]);
        if OldConversion(z, candidate) == stored {
          NoneTriedYet(z, stored, tried, offsets[..i]);
          FoundIsEarliestOfAll(z, stored, i, candidate);
          return Some(candidate);
        }
        tried := tried + {offsets[i]};
      }
    }
    NoneTriedYet(z, stored, tried, offsets);
    NothingToFind(z, stored);
    typed := None;
  }

  /** No offset tried converts back to the stored instant. */
  predicate Failed(z: Zone, stored: int, tried: set<int>) {
    forall offset :: offset in tried ==> OldConversion(z, ToMinute(stored + offset)) != stored
  }

  lemma NoneTriedYet(z: Zone, stored: int, tried: set<int>, offsets: seq<int>)
    requires Failed(z, stored, tried) && forall k :: 0 <= k < |offsets| ==> offsets[k] in tried
    ensures NoneOf(z, stored, offsets)
  {
  }

  // --------------------------------------------------------- how far off it was

  /** Whole minutes added and taken off a whole minute leave one. */
  lemma MovedByMinutes(t: int, on: int, off: int)
    requires WholeMinute(t) && WholeMinute(on) && WholeMinute(off)
    ensures ToMinute(t - off + on) == t - off + on
  {
    var m := t / MINUTE - off / MINUTE + on / MINUTE;
    assert t == t / MINUTE * MINUTE && off == off / MINUTE * MINUTE && on == on / MINUTE * MINUTE;
    assert t - off + on == m * MINUTE;
  }

  /** The clocks change somewhere between two instants. */
  ghost predicate ChangesBetween(z: Zone, a: int, b: int) {
    exists t, u :: Between(a, t, b) && Between(a, u, b) && z(t) != z(u)
  }

  predicate Between(a: int, t: int, b: int) {
    a <= t <= b || b <= t <= a
  }

  /**
   * Showing what was stored gives back the typed time unless the clocks change between the typed
   * time read as UTC and the stored instant; when it does not, it is off by the size of that change.
   */
  lemma OffByTheChange(z: Zone, typed: int)
    requires Ordinary(z) && WholeMinute(typed)
    ensures var stored := OldConversion(z, typed);
            && Shown(z, stored) - typed == z(stored) - z(typed)
            && (Shown(z, stored) == typed <==> z(stored) == z(typed))
            && (Shown(z, stored) != typed ==> ChangesBetween(z, typed, stored))
            && (!ChangesBetween(z, typed, stored) ==> Shown(z, stored) == typed)
  {
    OffsetIsTheZones(z, typed);
    var stored := OldConversion(z, typed);
    assert stored == typed - z(typed) && WholeMinute(z(stored)) && WholeMinute(z(typed));
    MovedByMinutes(typed, z(stored), z(typed));
    if z(stored) != z(typed) {
      assert Between(typed, stored, stored) && Between(typed, typed, stored);
    }
  }

  /** And the other way: showing an instant and converting it back undo each other with no change between. */
  lemma ConvertsBack(z: Zone, at: int)
    requires Ordinary(z) && WholeMinute(at) && !ChangesBetween(z, at, Shown(z, at))
    ensures OldConversion(z, Shown(z, at)) == at
  {
    var shown := Shown(z, at);
    assert WholeMinute(z(at));
    OffsetIsTheZones(z, shown);
    assert Between(at, at, shown) && Between(at, shown, shown);
  }

  // ------------------------------------------------------ the conversion it has now

  datatype LocalKind = Exact | Ambiguous | Skipped

  function Candidates(z: Zone, typed: int): set<int> {
    {typed - z(typed - DAY), typed - z(typed), typed - z(typed + DAY)}
  }

  /** Candidates that read back as exactly the typed time. */
  function ReadBack(z: Zone, typed: int): set<int> {
    set at | at in Candidates(z, typed) && at + z(at) == typed
  }

  predicate IsLeast(x: int, s: set<int>) {
    x in s && forall y :: y in s ==> x <= y
  }

  predicate IsGreatest(x: int, s: set<int>) {
    x in s && forall y :: y in s ==> y <= x
  }

  function Least(s: set<int>, a: int, b: int, c: int): (m: int)
    requires s != {} && s <= {a, b, c}
    ensures IsLeast(m, s)
  {
    var ab := if a in s && (b !in s || a <= b) then a else b;
    if c in s && ((a !in s && b !in s) || c <= ab) then c else ab
  }

  function Greatest3(a: int, b: int, c: int): (m: int)
    ensures IsGreatest(m, {a, b, c})
  {
    var ab := if a >= b then a else b;
    if c >= ab then c else ab
  }

  /** Every offset in force near the time, each kept only if it reads back; none is a skipped hour. */
  function ResolveLocalInput(z: Zone, typed: int): (int, LocalKind) {
    var a, b, c := typed - z(typed - DAY), typed - z(typed), typed - z(typed + DAY);
    var exact := ReadBack(z, typed);
    if exact == {} then (Greatest3(a, b, c), Skipped)
    else (Least(exact, a, b, c), if |exact| == 1 then Exact else Ambiguous)
  }

  /** Every instant that shows the typed time is a candidate. */
  lemma ReadBackIsComplete(z: Zone, typed: int, at: int)
    requires Ordinary(z) && at + z(at) == typed
    ensures at in ReadBack(z, typed)
  {
    assert -DAY < z(at) < DAY;
    assert WithinTwoDays(typed - DAY, at, typed + DAY);
  }

  /**
   * A typed time resolves to the first instant that shows it, is called ambiguous exactly when two
   * do, and when none does it is moved past the jump by the size of the gap.
   */
  lemma ResolvesRightly(z: Zone, typed: int)
    requires Ordinary(z)
    ensures var (at, kind) := ResolveLocalInput(z, typed);
            && (kind == Skipped <==> forall t :: t + z(t) != typed)
            && (kind != Skipped ==> at + z(at) == typed && forall t :: t + z(t) == typed ==> at <= t)
            && (kind == Ambiguous ==> exists t :: t != at && t + z(t) == typed)
            && (kind == Exact ==> forall t :: t + z(t) == typed ==> t == at)
            && (kind == Skipped ==> at == typed - z(typed - DAY) && z(at) == z(typed + DAY)
                                    && at + z(at) - typed == z(typed + DAY) - z(typed - DAY) > 0)
  {
    var exact := ReadBack(z, typed);
    var (at, kind) := ResolveLocalInput(z, typed);
    forall t | t + z(t) == typed
      ensures t in exact
    {
      ReadBackIsComplete(z, typed, t);
    }
    if kind == Exact {
      assert |exact| == 1 && at in exact;
      forall t | t in exact
        ensures t == at
      {
        assert exact - {at} == {} by {
          assert |exact - {at}| == 0;
        }
      }
    } else if kind == Ambiguous {
      assert exact != {at} by {
        assert |{at}| == 1;
      }
      var t :| t in exact && t != at;
    } else {
      SkippedIsTheJump(z, typed);
    }
  }

  /** With no instant showing the time, the clocks jump forward over it. */
  lemma SkippedIsTheJump(z: Zone, typed: int)
    requires Ordinary(z) && forall t :: t + z(t) != typed
    ensures var before, after := z(typed - DAY), z(typed + DAY);
            && before < after && z(typed - before) == after && z(typed - after) == before
            && (z(typed) == before || z(typed) == after)
            && ResolveLocalInput(z, typed) == (typed - before, Skipped)
  {
    var before, after := z(typed - DAY), z(typed + DAY);
    var p, q := typed - before, typed - after;
    assert p + z(p) != typed && q + z(q) != typed;
    assert -DAY < z(typed - DAY) < DAY && -DAY < z(typed + DAY) < DAY;
    assert WithinTwoDays(typed - DAY, p, typed + DAY);
    assert WithinTwoDays(typed - DAY, q, typed + DAY);
    assert WithinTwoDays(typed - DAY, typed, typed + DAY);
    assert before > after ==> WithinTwoDays(typed - DAY, p, q);
    assert ReadBack(z, typed) == {};
  }

  // ----------------------------------------------------------- what is reported

  /** The script reports a schedule when what was typed should have been stored as another instant. */
  ghost predicate Reported(z: Zone, stored: int, typed: int) {
    ResolveLocalInput(z, typed).0 != stored
  }

  /**
   * What is reported is exactly what shows another time than was typed, and what was stored as the
   * second pass through a repeated hour, which shows the time typed and is reported all the same.
   */
  lemma ReportedExactly(z: Zone, stored: int, typed: int)
    requires Ordinary(z) && TurnedInto(z, typed, stored)
    ensures Reported(z, stored, typed) <==>
              (Shown(z, stored) != typed && ResolveLocalInput(z, typed).0 != stored)
              || (Shown(z, stored) == typed && exists t :: t < stored && t + z(t) == typed)
    ensures Shown(z, stored) != typed && ResolveLocalInput(z, typed).1 != Skipped ==> Reported(z, stored, typed)
  {
    ResolvesRightly(z, typed);
    OffByTheChange(z, typed);
    TypedIsTried(z, stored, typed);
    assert WholeMinute(stored + z(stored)) by {
      assert WholeMinute(z(stored)) && WholeMinute(z(typed));
    }
    var (at, kind) := ResolveLocalInput(z, typed);
    if Shown(z, stored) == typed {
      assert stored + z(stored) == typed;
      if at != stored {
        assert at < stored && at + z(at) == typed;
      }
    }
  }
}
