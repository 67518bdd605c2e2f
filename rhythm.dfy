/** The tap-to-the-beat game (src/components/RhythmGames.tsx): falling beats,
    a hit window, and the score, combo and accuracy counters. */
module Rhythm {
  import opened Wrappers

  /** One falling marker: `position` runs from 0 (spawn) towards 100 (end of path). */
  datatype Beat = Beat(id: nat, position: int, hit: bool)

  const PathEnd: int := 100
  const MoveStep: int := 2
  const WindowLow: int := 80
  const WindowHigh: int := 95
  const WindowCentre: real := 87.5
  const MinPoints: real := 10.0
  const MissPenalty: real := 5.0

  // ---------------------------------------------------------------------------
  // Scoring arithmetic

  function Abs(x: real): real { if x < 0.0 then -x else x }
  function MaxReal(a: real, b: real): real { if a < b then b else a }
  function MinReal(a: real, b: real): real { if a < b then a else b }
  function AbsInt(x: int): int { if x < 0 then -x else x }

  /** `Math.round`: the nearest integer, halves rounded up. */
  function Round(x: real): (r: int)
    ensures r as real - 0.5 <= x < r as real + 0.5
  {
    (x + 0.5).Floor
  }

  /** `Math.max(100 - |87.5 - p| * 10, 10)`: the points a hit at position `p` earns. */
  function Points(p: int): (r: real)
    ensures MinPoints <= r <= 100.0
    ensures WindowLow <= p <= WindowHigh ==> 25.0 <= r
  {
    MaxReal(100.0 - Abs(WindowCentre - p as real) * 10.0, MinPoints)
  }

  /** For a whole-number position the points are the whole number
      `max(100 - |875 - 10p|, 10)`, so rounding them changes nothing. */
  lemma PointsAreWhole(p: int)
    ensures Points(p) == (if 100 - AbsInt(875 - 10 * p) < 10 then 10 else 100 - AbsInt(875 - 10 * p)) as real
    ensures Round(Points(p)) as real == Points(p)
  {
    var d := 875 - 10 * p;
    assert Abs(WindowCentre - p as real) * 10.0 == AbsInt(d) as real;
    var w := if 100 - AbsInt(d) < 10 then 10 else 100 - AbsInt(d);
    assert Points(p) == w as real;
    assert (w as real + 0.5).Floor == w;
  }

  /** The rounded points of a hit are at least 10 and at most 100. */
  lemma RoundedPointsBounds(p: int)
    ensures 10 <= Round(Points(p)) <= 100
  {
    PointsAreWhole(p);
  }

  /** Accuracy after a hit worth `points`: capped at 100, with no lower bound. */
  function AccuracyAfterHit(acc: real, points: real): (r: real)
    ensures r <= 100.0
    ensures acc + (points - 50.0) / 10.0 <= 100.0 ==> r == acc + (points - 50.0) / 10.0
    ensures acc + (points - 50.0) / 10.0 > 100.0 ==> r == 100.0
  {
    MinReal(100.0, acc + (points - 50.0) / 10.0)
  }

  /** Accuracy after a tap that matched nothing: 5 less, floored at 0. */
  function AccuracyAfterMiss(acc: real): (r: real)
    ensures 0.0 <= r
    ensures r <= acc || r == 0.0
    ensures acc >= MissPenalty ==> r == acc - MissPenalty
    ensures acc < MissPenalty ==> r == 0.0
  {
    MaxReal(0.0, acc - MissPenalty)
  }

  /** The window test applies only to a hit and not to the accuracy floor:
      a hit at the window's edge from accuracy 0 leaves accuracy negative. */
  lemma AccuracyCanDropBelowZero()
    ensures AccuracyAfterHit(0.0, Points(WindowLow)) == -2.5
  {
    PointsAreWhole(WindowLow);
  }

  // ---------------------------------------------------------------------------
  // The beat list

  /** `beats.map(b => ({...b, position: b.position + 2}))`. */
  function Shifted(bs: seq<Beat>): (r: seq<Beat>)
    ensures |r| == |bs|
    ensures forall i :: 0 <= i < |bs| ==> r[i] == bs[i].(position := bs[i].position + MoveStep)
  {
    if bs == [] then [] else [bs[0].(position := bs[0].position + MoveStep)] + Shifted(bs[1..])
  }

  /** `beats.filter(b => b.position < 100)`. */
  function OnPath(bs: seq<Beat>): (r: seq<Beat>)
    ensures |r| <= |bs|
    ensures forall b :: b in r ==> b in bs && b.position < PathEnd
    ensures forall b :: b in bs && b.position < PathEnd ==> b in r
  {
    if bs == [] then []
    else (if bs[0].position < PathEnd then [bs[0]] else []) + OnPath(bs[1..])
  }

  /** One move tick applied to the list. */
  function Advance(bs: seq<Beat>): (r: seq<Beat>)
    ensures |r| <= |bs|
    ensures forall b :: b in r ==> b.position < PathEnd
    ensures forall i :: 0 <= i < |bs| && bs[i].position + MoveStep < PathEnd ==>
              bs[i].(position := bs[i].position + MoveStep) in r
  {
    OnPath(Shifted(bs))
  }

  /** Positions do not increase along the list: older beats are further down. */
  predicate NonIncreasing(bs: seq<Beat>)
  {
    forall i, j :: 0 <= i < j < |bs| ==> bs[i].position >= bs[j].position
  }

  /** The number of leading beats that a move tick pushes to the end of the path. */
  function DropCount(bs: seq<Beat>): (k: nat)
    ensures k <= |bs|
    ensures forall i :: 0 <= i < k ==> bs[i].position + MoveStep >= PathEnd
    ensures k < |bs| ==> bs[k].position + MoveStep < PathEnd
  {
    if bs == [] || bs[0].position + MoveStep < PathEnd then 0 else 1 + DropCount(bs[1..])
  }

  /** Filtering a list whose positions are all on the path keeps all of it. */
  lemma {:induction false} OnPathKeepsAll(bs: seq<Beat>)
    requires forall i :: 0 <= i < |bs| ==> bs[i].position < PathEnd
    ensures OnPath(bs) == bs
  {
    if bs != [] {
      OnPathKeepsAll(bs[1..]);
    }
  }

  /** On a non-increasing list every beat after the dropped prefix stays on the path. */
  lemma KeptStayOnPath(bs: seq<Beat>)
    requires NonIncreasing(bs)
    ensures forall i :: DropCount(bs) <= i < |bs| ==> bs[i].position + MoveStep < PathEnd
  {
    var k := DropCount(bs);
    forall i | k <= i < |bs|
      ensures bs[i].position + MoveStep < PathEnd
    {
      assert bs[k].position >= bs[i].position;
    }
  }

  /** On a non-increasing list a move tick drops exactly a prefix: the first
      DropCount beats go, the rest are kept, shifted and in the same order. */
  lemma {:induction false} AdvanceDropsPrefix(bs: seq<Beat>)
    requires NonIncreasing(bs)
    ensures Advance(bs) == Shifted(bs[DropCount(bs)..])
    ensures forall i :: DropCount(bs) <= i < |bs| ==> bs[i].position + MoveStep < PathEnd
  {
    KeptStayOnPath(bs);
    if bs == [] {
    } else if bs[0].position + MoveStep < PathEnd {
      var s := Shifted(bs);
      assert forall i :: 0 <= i < |s| ==> s[i].position == bs[i].position + MoveStep;
      OnPathKeepsAll(s);
    } else {
      var s := Shifted(bs);
      var tail := bs[1..];
      assert s[1..] == Shifted(tail);
      assert OnPath(s) == OnPath(s[1..]);
      assert NonIncreasing(tail);
      AdvanceDropsPrefix(tail);
      assert tail[DropCount(tail)..] == bs[DropCount(bs)..];
    }
  }

  predicate Even(p: int)
  {
    p % 2 == 0
  }

  /** Every beat sits at an even position between 0 and 98. */
  predicate OnTrack(bs: seq<Beat>)
  {
    forall i :: 0 <= i < |bs| ==> 0 <= bs[i].position < PathEnd && Even(bs[i].position)
  }

  /** Every id was handed out by the counter already. */
  predicate IdsBelow(bs: seq<Beat>, nextId: nat)
  {
    forall i :: 0 <= i < |bs| ==> bs[i].id < nextId
  }

  /** Ids strictly increase along the list (so they are distinct). */
  predicate IdsIncreasing(bs: seq<Beat>)
  {
    forall i, j :: 0 <= i < j < |bs| ==> bs[i].id < bs[j].id
  }

  /** The list invariant the game keeps: positions are even and between 0 and
      98, ids are below the counter and strictly increase along the list, and
      positions do not increase along it. */
  predicate WellFormed(bs: seq<Beat>, nextId: nat)
  {
    OnTrack(bs) && IdsBelow(bs, nextId) && IdsIncreasing(bs) && NonIncreasing(bs)
  }

  /** A spawn keeps the invariant. */
  lemma SpawnKeepsWellFormed(bs: seq<Beat>, nextId: nat)
    requires WellFormed(bs, nextId)
    ensures WellFormed(bs + [Beat(nextId, 0, false)], nextId + 1)
  {
  }

  lemma EvenAfterStep(p: int)
    requires Even(p)
    ensures Even(p + MoveStep)
  {
  }

  /** Shifting keeps ids and moves each beat two steps on, so positions stay
      even and, away from the end, on the path. */
  lemma ShiftedOnTrack(bs: seq<Beat>, nextId: nat)
    requires OnTrack(bs) && IdsBelow(bs, nextId)
    requires forall i :: 0 <= i < |bs| ==> bs[i].position + MoveStep < PathEnd
    ensures OnTrack(Shifted(bs)) && IdsBelow(Shifted(bs), nextId)
  {
    var r := Shifted(bs);
    forall i | 0 <= i < |r|
      ensures 0 <= r[i].position < PathEnd && Even(r[i].position) && r[i].id < nextId
    {
      assert r[i] == bs[i].(position := bs[i].position + MoveStep);
      EvenAfterStep(bs[i].position);
    }
  }

  /** Shifting every beat by the same step keeps both orders along the list. */
  lemma ShiftedKeepsOrder(bs: seq<Beat>)
    requires IdsIncreasing(bs) && NonIncreasing(bs)
    ensures IdsIncreasing(Shifted(bs)) && NonIncreasing(Shifted(bs))
  {
    var r := Shifted(bs);
    forall i, j | 0 <= i < j < |r|
      ensures r[i].id < r[j].id && r[i].position >= r[j].position
    {
      assert r[i] == bs[i].(position := bs[i].position + MoveStep);
      assert r[j] == bs[j].(position := bs[j].position + MoveStep);
    }
  }

  /** Shifting a well-formed list none of whose beats reaches the end keeps it well formed. */
  lemma ShiftedKeepsWellFormed(bs: seq<Beat>, nextId: nat)
    requires WellFormed(bs, nextId)
    requires forall i :: 0 <= i < |bs| ==> bs[i].position + MoveStep < PathEnd
    ensures WellFormed(Shifted(bs), nextId)
  {
    ShiftedOnTrack(bs, nextId);
    ShiftedKeepsOrder(bs);
  }

  /** Dropping a prefix keeps the invariant. */
  lemma SuffixKeepsWellFormed(bs: seq<Beat>, nextId: nat, k: nat)
    requires WellFormed(bs, nextId) && k <= |bs|
    ensures WellFormed(bs[k..], nextId)
  {
    var t := bs[k..];
    assert forall i :: 0 <= i < |t| ==> t[i] == bs[k + i];
  }

  /** A move tick keeps the invariant, with every kept position still below 100. */
  lemma AdvanceKeepsWellFormed(bs: seq<Beat>, nextId: nat)
    requires WellFormed(bs, nextId)
    ensures WellFormed(Advance(bs), nextId)
  {
    AdvanceDropsPrefix(bs);
    SuffixKeepsWellFormed(bs, nextId, DropCount(bs));
    var t := bs[DropCount(bs)..];
    assert forall i :: 0 <= i < |t| ==> t[i].position + MoveStep < PathEnd;
    ShiftedKeepsWellFormed(t, nextId);
  }

  /** The beat a tap may match: inside [80, 95] and not already hit. */
  predicate Hittable(b: Beat)
  {
    WindowLow <= b.position <= WindowHigh && !b.hit
  }

  /** `beats.find(...)`: the index of the first (oldest) hittable beat, if any. */
  function FindHit(bs: seq<Beat>): (r: Option<nat>)
    ensures r.Some? ==> r.value < |bs| && Hittable(bs[r.value])
    ensures r.Some? ==> forall j :: 0 <= j < r.value ==> !Hittable(bs[j])
    ensures r.None? <==> forall j :: 0 <= j < |bs| ==> !Hittable(bs[j])
  {
    if bs == [] then None
    else if Hittable(bs[0]) then Some(0)
    else
      match FindHit(bs[1..])
      case None => None
      case Some(k) => Some(k + 1)
  }

  /** `beats.map(b => b.id === id ? {...b, hit: true} : b)`. */
  function MarkHit(bs: seq<Beat>, id: nat): (r: seq<Beat>)
    ensures |r| == |bs|
    ensures forall i :: 0 <= i < |bs| ==> r[i] == if bs[i].id == id then bs[i].(hit := true) else bs[i]
  {
    if bs == [] then []
    else [if bs[0].id == id then bs[0].(hit := true) else bs[0]] + MarkHit(bs[1..], id)
  }

  /** With distinct ids, marking by the matched beat's id flags that beat alone. */
  lemma MarkHitOnlyTarget(bs: seq<Beat>, nextId: nat, i: nat)
    requires WellFormed(bs, nextId)
    requires i < |bs|
    ensures MarkHit(bs, bs[i].id) == bs[i := bs[i].(hit := true)]
  {
    var r := MarkHit(bs, bs[i].id);
    forall j | 0 <= j < |bs|
      ensures r[j] == bs[i := bs[i].(hit := true)][j]
    {
      if j < i {
        assert bs[j].id < bs[i].id;
      } else if i < j {
        assert bs[i].id < bs[j].id;
      }
    }
  }

  /** Setting a hit flag keeps the invariant. */
  lemma MarkKeepsWellFormed(bs: seq<Beat>, nextId: nat, i: nat)
    requires WellFormed(bs, nextId)
    requires i < |bs|
    ensures WellFormed(bs[i := bs[i].(hit := true)], nextId)
  {
  }

  /** Along a list with increasing ids, only index i carries bs[i]'s id. */
  lemma IdIsUnique(bs: seq<Beat>, i: nat, j: nat)
    requires IdsIncreasing(bs) && i < |bs| && j < |bs|
    ensures bs[j].id == bs[i].id ==> j == i
  {
    if j < i {
      assert bs[j].id < bs[i].id;
    } else if i < j {
      assert bs[i].id < bs[j].id;
    }
  }

  /** A beat once hit is never matched again: the next tap skips it, and after
      a move tick the beat carrying its id is still flagged. */
  lemma HitIsFinal(bs: seq<Beat>, nextId: nat, i: nat)
    requires WellFormed(bs, nextId)
    requires i < |bs|
    ensures FindHit(bs[i := bs[i].(hit := true)]) != Some(i)
    ensures forall b :: b in Advance(bs[i := bs[i].(hit := true)]) && b.id == bs[i].id ==> b.hit && !Hittable(b)
  {
    var m := bs[i := bs[i].(hit := true)];
    forall b | b in Advance(m) && b.id == bs[i].id
      ensures b.hit
    {
      var s := Shifted(m);
      var j :| 0 <= j < |s| && s[j] == b;
      IdIsUnique(bs, i, j);
    }
  }

  /** Two beats in the window at once, in a state the game can reach: the
      older one, further along, is matched although the newer one is nearer
      the centre and would earn more. */
  lemma TieBreakPrefersOldest()
    ensures WellFormed([Beat(0, 94, false), Beat(1, 88, false)], 2)
    ensures FindHit([Beat(0, 94, false), Beat(1, 88, false)]) == Some(0)
    ensures Points(88) > Points(94)
  {
  }

  // ---------------------------------------------------------------------------
  // The game component's state

  class RhythmGame {
    var isPlaying: bool
    var score: int
    var combo: int
    var accuracy: real
    /** Seconds of play, advanced a tenth of a second per timer tick. */
    var gameTime: real
    var beats: seq<Beat>
    /** The id the next spawned beat receives (`beatIdRef`). */
    var nextBeatId: nat

    ghost predicate Valid()
      reads this
    {
      WellFormed(beats, nextBeatId) && score >= 0 && combo >= 0 && accuracy <= 100.0 && gameTime >= 0.0
    }

    /** The component's first render. */
    constructor ()
      ensures Valid()
      ensures !isPlaying && score == 0 && combo == 0 && accuracy == 100.0 && gameTime == 0.0
      ensures beats == [] && nextBeatId == 0
    {
      isPlaying, score, combo, accuracy, gameTime := false, 0, 0, 100.0, 0.0;
      beats, nextBeatId := [], 0;
    }

    /** The play/pause button: flips `isPlaying` and nothing else. */
    method TogglePlaying()
      requires Valid()
      modifies this
      ensures Valid()
      ensures isPlaying == !old(isPlaying)
      ensures score == old(score) && combo == old(combo) && accuracy == old(accuracy)
      ensures gameTime == old(gameTime) && beats == old(beats) && nextBeatId == old(nextBeatId)
    {
      isPlaying := !isPlaying;
    }

    /** The game clock's interval body; the interval is armed only while playing. */
    method ClockTick()
      requires Valid()
      modifies this
      ensures Valid()
      ensures gameTime == if old(isPlaying) then old(gameTime) + 0.1 else old(gameTime)
      ensures isPlaying == old(isPlaying) && score == old(score) && combo == old(combo)
      ensures accuracy == old(accuracy) && beats == old(beats) && nextBeatId == old(nextBeatId)
    {
      if isPlaying {
        gameTime := gameTime + 0.1;
      }
    }

    /** The spawn interval's body; the interval is armed only while playing. A new
        beat at position 0, not hit, with the counter's id, joins the end of the list. */
    method SpawnTick()
      requires Valid()
      modifies this
      ensures Valid()
      ensures old(isPlaying) ==> beats == old(beats) + [Beat(old(nextBeatId), 0, false)] && nextBeatId == old(nextBeatId) + 1
      ensures !old(isPlaying) ==> beats == old(beats) && nextBeatId == old(nextBeatId)
      ensures isPlaying == old(isPlaying) && score == old(score) && combo == old(combo)
      ensures accuracy == old(accuracy) && gameTime == old(gameTime)
    {
      if isPlaying {
        SpawnKeepsWellFormed(beats, nextBeatId);
        beats := beats + [Beat(nextBeatId, 0, false)];
        nextBeatId := nextBeatId + 1;
      }
    }

    /** The move interval's body, which runs whether or not the game is playing:
        every beat moves down by 2 and those reaching 100 leave the list. */
    method MoveTick()
      requires Valid()
      modifies this
      ensures Valid()
      ensures beats == Advance(old(beats))
      ensures beats == Shifted(old(beats)[DropCount(old(beats))..])
      ensures isPlaying == old(isPlaying) && score == old(score) && combo == old(combo)
      ensures accuracy == old(accuracy) && gameTime == old(gameTime) && nextBeatId == old(nextBeatId)
    {
      AdvanceKeepsWellFormed(beats, nextBeatId);
      AdvanceDropsPrefix(beats);
      beats := OnPath(Shifted(beats));
    }

    /** The tap button. The oldest hittable beat, if any, is flagged and scored;
        otherwise the combo breaks and accuracy drops by 5, floored at 0. */
    method HandleBeatHit()
      requires Valid()
      modifies this
      ensures Valid()
      ensures isPlaying == old(isPlaying) && gameTime == old(gameTime) && nextBeatId == old(nextBeatId)
      ensures match FindHit(old(beats))
        case Some(i) =>
          var points := Points(old(beats)[i].position);
          && beats == old(beats)[i := old(beats)[i].(hit := true)]
          && score == old(score) + Round(points)
          && combo == old(combo) + 1
          && accuracy == AccuracyAfterHit(old(accuracy), points)
        case None =>
          && beats == old(beats) && score == old(score)
          && combo == 0
          && accuracy == AccuracyAfterMiss(old(accuracy))
    {
      var found := FindHit(beats);
      if found.Some? {
        var i := found.value;
        var points := Points(beats[i].position);
        RoundedPointsBounds(beats[i].position);
        MarkHitOnlyTarget(beats, nextBeatId, i);
        MarkKeepsWellFormed(beats, nextBeatId, i);
        score := score + Round(points);
        combo := combo + 1;
        beats := MarkHit(beats, beats[i].id);
        accuracy := AccuracyAfterHit(accuracy, points);
      } else {
        combo := 0;
        accuracy := AccuracyAfterMiss(accuracy);
      }
    }

    /** The reset button: back to the first render's state, stopped. */
    method Reset()
      requires Valid()
      modifies this
      ensures Valid()
      ensures !isPlaying && score == 0 && combo == 0 && accuracy == 100.0 && gameTime == 0.0
      ensures beats == [] && nextBeatId == 0
    {
      isPlaying := false;
      score := 0;
      combo := 0;
      accuracy := 100.0;
      gameTime := 0.0;
      beats := [];
      nextBeatId := 0;
    }
  }
}
