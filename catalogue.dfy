/** The constant track table and its two lookups (src/data/musicTracks.ts). */
module Catalogue {
  import opened Wrappers

  /** One row of the table; `duration` is in whole seconds. The `url` column is
      kept apart, in TrackUrl, keyed by the row's id; the `image` column is
      presentation and left out. */
  datatype MusicTrack = MusicTrack(
    id: string, name: string, artist: string, album: string, duration: int,
    genre: string, mood: string)

  /** The six mood ids the playlist screen offers, in screen order. */
  function MoodIds(): seq<string> {
    ["chill", "hype", "reflective", "romantic", "morning", "night"]
  }

  /** The whole table, in source order: the six mood groups one after another. */
  function MusicTracks(): (r: seq<MusicTrack>)
    ensures |r| == 14
  {
    ChillTracks() + HypeTracks() + RomanticTracks() + MorningTracks() + NightTracks() + ReflectiveTracks()
  }

  /** The rows of one group share the group's mood, the three-minute duration,
      and the length and first letter of their ids; no two groups share both
      the id length and the first letter, which is what tells them apart. */
  predicate Group(g: seq<MusicTrack>, mood: string, idLength: nat, idFirst: char)
  {
    forall t :: t in g ==>
      t.mood == mood && t.duration == 180 && 0 < |t.id| == idLength && t.id[0] == idFirst
  }

  /** The chill group of the table, in table order. */
  function ChillTracks(): (r: seq<MusicTrack>)
    ensures |r| == 3 && DistinctIds(r) && Group(r, "chill", 7, 'c')
  {
    [
      MusicTrack("chill_1", "Peace Of Mind", "Roa Music", "Chill Collection", 180, "ambient", "chill"),
      MusicTrack("chill_2", "Morning Coffee", "Lo-Fi Collective", "Daily Vibes", 180, "lofi", "chill"),
      MusicTrack("chill_3", "Sunset Breeze", "Calm Waters", "Evening Moods", 180, "ambient", "chill")
    ]
  }

  /** The hype group of the table, in table order. */
  function HypeTracks(): (r: seq<MusicTrack>)
    ensures |r| == 3 && DistinctIds(r) && Group(r, "hype", 6, 'h')
  {
    [
      MusicTrack("hype_1", "Rebel", "Alex-Productions", "High Energy", 180, "electronic", "hype"),
      MusicTrack("hype_2", "Pump It Up", "Beat Crusher", "Workout Mix", 180, "hip-hop", "hype"),
      MusicTrack("hype_3", "Thunder Strike", "Power Surge", "Maximum Energy", 180, "rock", "hype")
    ]
  }

  /** The romantic group of the table, in table order. */
  function RomanticTracks(): (r: seq<MusicTrack>)
    ensures |r| == 2 && DistinctIds(r) && Group(r, "romantic", 10, 'r')
  {
    [
      MusicTrack("romantic_1", "Horizons", "Alex-Productions", "Heart Strings", 180, "acoustic", "romantic"),
      MusicTrack("romantic_2", "Moonlight Serenade", "Tender Hearts", "Love Collection", 180, "jazz", "romantic")
    ]
  }

  /** The morning group of the table, in table order. */
  function MorningTracks(): (r: seq<MusicTrack>)
    ensures |r| == 2 && DistinctIds(r) && Group(r, "morning", 9, 'm')
  {
    [
      MusicTrack("morning_1", "Sunrise", "Morning Glory", "New Day", 180, "pop", "morning"),
      MusicTrack("morning_2", "Fresh Start", "Dawn Chorus", "Morning Rituals", 180, "indie", "morning")
    ]
  }

  /** The night group of the table, in table order. */
  function NightTracks(): (r: seq<MusicTrack>)
    ensures |r| == 2 && DistinctIds(r) && Group(r, "night", 7, 'n')
  {
    [
      MusicTrack("night_1", "Midnight Dreams", "Night Owl", "After Hours", 180, "ambient", "night"),
      MusicTrack("night_2", "City Lights", "Urban Nights", "Nocturnal", 180, "electronic", "night")
    ]
  }

  /** The reflective group of the table, in table order. */
  function ReflectiveTracks(): (r: seq<MusicTrack>)
    ensures |r| == 2 && DistinctIds(r) && Group(r, "reflective", 12, 'r')
  {
    [
      MusicTrack("reflective_1", "Deep Thoughts", "Contemplation", "Inner Peace", 180, "ambient", "reflective"),
      MusicTrack("reflective_2", "Meditation Flow", "Mindful Moments", "Zen Garden", 180, "new age", "reflective")
    ]
  }

  /** The `url` column of the table, by track id (the empty string for an id not in the table). */
  function TrackUrl(id: string): string {
    if id == "chill_1" then
      "https://www.free-stock-music.com/music/roa-music/mp3/roa-music-peace-of-mind.mp3"
    else if id == "chill_2" then
      "https://www.free-stock-music.com/music/mixaund/mp3/mixaund-motivate-me.mp3"
    else if id == "chill_3" then
      "https://www.free-stock-music.com/music/corporate-music-zone/wav/corporate-music-zone-journey-ahead-loop.rar"
    else if id == "hype_1" then
      "https://www.free-stock-music.com/music/alex-productions/mp3/alex-productions-cyberpunk-gaming-trailer-rebel-music-bundle.mp3"
    else if id == "hype_2" then
      "https://www.free-stock-music.com/music/alex-productions/mp3/alex-productions-training-day.mp3"
    else if id == "hype_3" then
      "https://www.free-stock-music.com/music/alex-productions/mp3/alex-productions-blockbuster.mp3"
    else if id == "romantic_1" then
      "https://www.free-stock-music.com/music/alex-productions/mp3/alex-productions-horizons.mp3"
    else if id == "romantic_2" then
      "https://www.free-stock-music.com/music/ethereal88/mp3/ethereal88-rising-dawn.mp3"
    else if id == "morning_1" then
      "https://www.free-stock-music.com/music/mixaund/mp3/mixaund-bright-horizons.mp3"
    else if id == "morning_2" then
      "https://www.free-stock-music.com/music/jay-someday/mp3/jay-someday-feelgood.mp3"
    else if id == "night_1" then
      "https://www.free-stock-music.com/music/escp/mp3/escp-sky-mall.mp3"
    else if id == "night_2" then
      "https://www.free-stock-music.com/music/escp/mp3/escp-neon-metaphor.mp3"
    else if id == "reflective_1" then
      "https://www.free-stock-music.com/music/oraeth/mp3/oraeth-overload.mp3"
    else if id == "reflective_2" then
      "https://www.free-stock-music.com/music/roa-music/mp3/roa-music-alone-in-the-rain.mp3"
    else ""
  }

  /** `ts.filter(t => t.mood === mood)`: the tracks of `ts` with that mood. */
  function FilterMood(ts: seq<MusicTrack>, mood: string): (r: seq<MusicTrack>)
    ensures |r| <= |ts|
    ensures forall t :: t in r ==> t in ts && t.mood == mood
    ensures forall t :: t in ts && t.mood == mood ==> t in r
  {
    if ts == [] then []
    else (if ts[0].mood == mood then [ts[0]] else []) + FilterMood(ts[1..], mood)
  }

  /** `getTracksByMood`: the catalogue tracks of one mood. */
  function GetTracksByMood(mood: string): (r: seq<MusicTrack>)
    ensures forall t :: t in r <==> t in MusicTracks() && t.mood == mood
  {
    FilterMood(MusicTracks(), mood)
  }

  /** `ts.find(t => t.id === id)`: the first track with that id, if any. */
  function FindById(ts: seq<MusicTrack>, id: string): (r: Option<MusicTrack>)
    ensures r.None? <==> forall t :: t in ts ==> t.id != id
    ensures r.Some? ==> r.value in ts && r.value.id == id
    ensures r.Some? ==> exists i :: 0 <= i < |ts| && ts[i] == r.value && forall j :: 0 <= j < i ==> ts[j].id != id
  {
    if ts == [] then None
    else if ts[0].id == id then Some(ts[0])
    else
      var rest := FindById(ts[1..], id);
      if rest.Some? then
        ghost var k :| 0 <= k < |ts| - 1 && ts[1..][k] == rest.value && forall j :: 0 <= j < k ==> ts[1..][j].id != id;
        assert ts[k + 1] == rest.value && forall j :: 0 <= j < k + 1 ==> ts[j].id != id;
        rest
      else
        rest
  }

  /** `getTrackById`: the first catalogue track with that id, or undefined. */
  function GetTrackById(id: string): (r: Option<MusicTrack>)
    ensures r.None? <==> forall t :: t in MusicTracks() ==> t.id != id
    ensures r.Some? ==> r.value in MusicTracks() && r.value.id == id
  {
    FindById(MusicTracks(), id)
  }

  /** Filtering distributes over concatenation, so the result keeps catalogue order. */
  lemma {:induction false} FilterMoodAppend(a: seq<MusicTrack>, b: seq<MusicTrack>, mood: string)
    ensures FilterMood(a + b, mood) == FilterMood(a, mood) + FilterMood(b, mood)
  {
    if a == [] {
      assert a + b == b;
    } else {
      assert (a + b)[1..] == a[1..] + b;
      FilterMoodAppend(a[1..], b, mood);
    }
  }

  /** A list whose tracks all have the mood is returned whole. */
  lemma {:induction false} FilterMoodAll(ts: seq<MusicTrack>, mood: string)
    requires forall t :: t in ts ==> t.mood == mood
    ensures FilterMood(ts, mood) == ts
  {
    if ts != [] {
      FilterMoodAll(ts[1..], mood);
    }
  }

  /** A list with no track of the mood yields the empty list. */
  lemma {:induction false} FilterMoodNone(ts: seq<MusicTrack>, mood: string)
    requires forall t :: t in ts ==> t.mood != mood
    ensures FilterMood(ts, mood) == []
  {
    if ts != [] {
      FilterMoodNone(ts[1..], mood);
    }
  }

  /** In a table split as `before + group + after`, where only `group` holds tracks of
      the mood, filtering by that mood yields exactly `group`. */
  lemma FilterMoodIsolated(table: seq<MusicTrack>, mood: string,
                           before: seq<MusicTrack>, group: seq<MusicTrack>, after: seq<MusicTrack>)
    requires table == before + group + after
    requires forall t :: t in before ==> t.mood != mood
    requires forall t :: t in group ==> t.mood == mood
    requires forall t :: t in after ==> t.mood != mood
    ensures FilterMood(table, mood) == group
  {
    FilterMoodAppend(before + group, after, mood);
    FilterMoodAppend(before, group, mood);
    FilterMoodNone(before, mood);
    FilterMoodAll(group, mood);
    FilterMoodNone(after, mood);
  }

  /** The table's six groups regrouped as `before + group + after`, around each group in turn. */
  lemma TableSplits(a: seq<MusicTrack>, b: seq<MusicTrack>, c: seq<MusicTrack>,
                    d: seq<MusicTrack>, e: seq<MusicTrack>, f: seq<MusicTrack>)
    ensures a + b + c + d + e + f == [] + a + (b + c + d + e + f)
    ensures a + b + c + d + e + f == a + b + (c + d + e + f)
    ensures a + b + c + d + e + f == (a + b) + c + (d + e + f)
    ensures a + b + c + d + e + f == (a + b + c) + d + (e + f)
    ensures a + b + c + d + e + f == (a + b + c + d) + e + f
    ensures a + b + c + d + e + f == (a + b + c + d + e) + f + []
  {
  }

  /** `getTracksByMood("chill")` is the chill group. */
  lemma ChillResult(mood: string)
    requires mood == "chill"
    ensures GetTracksByMood(mood) == ChillTracks()
  {
    var c, h, r, m, n, f := ChillTracks(), HypeTracks(), RomanticTracks(), MorningTracks(), NightTracks(), ReflectiveTracks();
    TableSplits(c, h, r, m, n, f);
    FilterMoodIsolated(MusicTracks(), mood, [], c, h + r + m + n + f);
  }

  /** `getTracksByMood("hype")` is the hype group. */
  lemma HypeResult(mood: string)
    requires mood == "hype"
    ensures GetTracksByMood(mood) == HypeTracks()
  {
    var c, h, r, m, n, f := ChillTracks(), HypeTracks(), RomanticTracks(), MorningTracks(), NightTracks(), ReflectiveTracks();
    TableSplits(c, h, r, m, n, f);
    FilterMoodIsolated(MusicTracks(), mood, c, h, r + m + n + f);
  }

  /** `getTracksByMood("romantic")` is the romantic group. */
  lemma RomanticResult(mood: string)
    requires mood == "romantic"
    ensures GetTracksByMood(mood) == RomanticTracks()
  {
    var c, h, r, m, n, f := ChillTracks(), HypeTracks(), RomanticTracks(), MorningTracks(), NightTracks(), ReflectiveTracks();
    TableSplits(c, h, r, m, n, f);
    FilterMoodIsolated(MusicTracks(), mood, c + h, r, m + n + f);
  }

  /** `getTracksByMood("morning")` is the morning group. */
  lemma MorningResult(mood: string)
    requires mood == "morning"
    ensures GetTracksByMood(mood) == MorningTracks()
  {
    var c, h, r, m, n, f := ChillTracks(), HypeTracks(), RomanticTracks(), MorningTracks(), NightTracks(), ReflectiveTracks();
    TableSplits(c, h, r, m, n, f);
    FilterMoodIsolated(MusicTracks(), mood, c + h + r, m, n + f);
  }

  /** `getTracksByMood("night")` is the night group. */
  lemma NightResult(mood: string)
    requires mood == "night"
    ensures GetTracksByMood(mood) == NightTracks()
  {
    var c, h, r, m, n, f := ChillTracks(), HypeTracks(), RomanticTracks(), MorningTracks(), NightTracks(), ReflectiveTracks();
    TableSplits(c, h, r, m, n, f);
    FilterMoodIsolated(MusicTracks(), mood, c + h + r + m, n, f);
  }

  /** `getTracksByMood("reflective")` is the reflective group. */
  lemma ReflectiveResult(mood: string)
    requires mood == "reflective"
    ensures GetTracksByMood(mood) == ReflectiveTracks()
  {
    var c, h, r, m, n, f := ChillTracks(), HypeTracks(), RomanticTracks(), MorningTracks(), NightTracks(), ReflectiveTracks();
    TableSplits(c, h, r, m, n, f);
    FilterMoodIsolated(MusicTracks(), mood, c + h + r + m + n, f, []);
  }

  /** Each mood's result is exactly its own group, in table order; any other string gives []. */
  lemma TracksByMoodAreGroups(mood: string)
    ensures GetTracksByMood(mood) ==
      if mood == "chill" then ChillTracks()
      else if mood == "hype" then HypeTracks()
      else if mood == "romantic" then RomanticTracks()
      else if mood == "morning" then MorningTracks()
      else if mood == "night" then NightTracks()
      else if mood == "reflective" then ReflectiveTracks()
      else []
  {
    if mood == "chill" {
      ChillResult(mood);
    } else if mood == "hype" {
      HypeResult(mood);
    } else if mood == "romantic" {
      RomanticResult(mood);
    } else if mood == "morning" {
      MorningResult(mood);
    } else if mood == "night" {
      NightResult(mood);
    } else if mood == "reflective" {
      ReflectiveResult(mood);
    } else {
      CatalogueShape();
      FilterMoodNone(MusicTracks(), mood);
    }
  }

  /** The screen's mood ids, one by one. */
  lemma MoodIdsCases(mood: string)
    ensures mood in MoodIds() <==>
      mood == "chill" || mood == "hype" || mood == "reflective" ||
      mood == "romantic" || mood == "morning" || mood == "night"
  {
  }

  /** Every mood the screen offers has at least two tracks; any other mood has none. */
  lemma MoodCoverage(mood: string)
    ensures mood in MoodIds() ==> |GetTracksByMood(mood)| >= 2
    ensures mood !in MoodIds() ==> GetTracksByMood(mood) == []
  {
    TracksByMoodAreGroups(mood);
    MoodIdsCases(mood);
  }

  /** The table has fourteen tracks of three minutes each, and every mood is a screen mood. */
  lemma CatalogueShape()
    ensures |MusicTracks()| == 14
    ensures forall t :: t in MusicTracks() ==> t.duration == 180 && t.mood in MoodIds()
  {
  }

  /** No two tracks of the list share an id. */
  predicate DistinctIds(ts: seq<MusicTrack>)
  {
    forall i, j :: 0 <= i < j < |ts| ==> ts[i].id != ts[j].id
  }

  /** Two lists with distinct ids and no id in common concatenate to a list
      with distinct ids. */
  lemma DistinctAppend(a: seq<MusicTrack>, b: seq<MusicTrack>)
    requires DistinctIds(a) && DistinctIds(b)
    requires forall x, y :: x in a && y in b ==> x.id != y.id
    ensures DistinctIds(a + b)
  {
    forall i, j | 0 <= i < j < |a + b|
      ensures (a + b)[i].id != (a + b)[j].id
    {
      if j < |a| {
        assert (a + b)[i] == a[i] && (a + b)[j] == a[j];
      } else if |a| <= i {
        assert (a + b)[i] == b[i - |a|] && (a + b)[j] == b[j - |a|];
      } else {
        assert (a + b)[i] in a && (a + b)[j] in b;
      }
    }
  }

  /** No two rows of the table share an id. */
  lemma IdsUnique()
    ensures DistinctIds(MusicTracks())
  {
    var c, h, r, m, n, f := ChillTracks(), HypeTracks(), RomanticTracks(), MorningTracks(), NightTracks(), ReflectiveTracks();
    DistinctAppend(c, h);
    DistinctAppend(c + h, r);
    DistinctAppend(c + h + r, m);
    DistinctAppend(c + h + r + m, n);
    DistinctAppend(c + h + r + m + n, f);
  }

  /** Filtering a list with distinct ids leaves a list with distinct ids. */
  lemma {:induction false} FilterMoodDistinct(ts: seq<MusicTrack>, mood: string)
    requires DistinctIds(ts)
    ensures DistinctIds(FilterMood(ts, mood))
  {
    if ts != [] {
      var tail := ts[1..];
      assert DistinctIds(tail);
      FilterMoodDistinct(tail, mood);
      var rest := FilterMood(tail, mood);
      forall t | t in rest
        ensures t.id != ts[0].id
      {
        var k :| 0 <= k < |tail| && tail[k] == t;
        assert ts[k + 1] == t;
      }
    }
  }

  /** In a list with distinct ids, finding a member's id returns that member. */
  lemma FindByIdOfMember(ts: seq<MusicTrack>, t: MusicTrack)
    requires DistinctIds(ts) && t in ts
    ensures FindById(ts, t.id) == Some(t)
  {
    var r := FindById(ts, t.id);
    var i :| 0 <= i < |ts| && ts[i] == r.value && forall j :: 0 <= j < i ==> ts[j].id != t.id;
    var k :| 0 <= k < |ts| && ts[k] == t;
    assert !(k < i);
    assert !(i < k);
  }

  /** Since ids are unique, looking a catalogue track up by its id returns that track. */
  lemma GetTrackByIdOfMember(t: MusicTrack)
    requires t in MusicTracks()
    ensures GetTrackById(t.id) == Some(t)
  {
    IdsUnique();
    FindByIdOfMember(MusicTracks(), t);
  }
}
