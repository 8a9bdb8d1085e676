/**
 * The small pure helpers of the application shell (App.tsx): the music
 * track chosen for a genre, the stat shown as health in the header, and the
 * health bar's coercion of that stat to a number.
 */
module App {
  import opened Text
  import opened Types

  // ---------------------------------------------------------------------------
  // Genre to music track
  // ---------------------------------------------------------------------------

  datatype MusicTrack = AmbientFantasy | AmbientScifi | AmbientHorror | AmbientDefault

  /** `getMusicTrackForGenre`: keyword tests on the lower-cased genre, in priority order. */
  function MusicTrackForGenre(genre: string): MusicTrack
  {
    var lowerGenre := ToLower(genre);
    if Contains(lowerGenre, "fantasy") then AmbientFantasy
    else if Contains(lowerGenre, "sci-fi") || Contains(lowerGenre, "science fiction")
         || Contains(lowerGenre, "cyberpunk") then AmbientScifi
    else if Contains(lowerGenre, "horror") || Contains(lowerGenre, "thriller") then AmbientHorror
    else AmbientDefault
  }

  lemma LowerCharIdempotent(c: char)
    ensures LowerChar(LowerChar(c)) == LowerChar(c)
  {
  }

  /** Lower-casing twice is lower-casing once. */
  lemma ToLowerIdempotent(s: string)
    ensures ToLower(ToLower(s)) == ToLower(s)
  {
    forall i | 0 <= i < |s| ensures ToLower(ToLower(s))[i] == ToLower(s)[i] {
      LowerCharIdempotent(s[i]);
    }
  }

  /** Lower-casing works character by character, so it distributes over concatenation. */
  lemma ToLowerConcat(a: string, b: string)
    ensures ToLower(a + b) == ToLower(a) + ToLower(b)
  {
    assert forall i :: 0 <= i < |a + b| ==> ToLower(a + b)[i] == (ToLower(a) + ToLower(b))[i];
  }

  /** The choice ignores letter case: a genre and its lower-cased form get the same track. */
  lemma GenreIgnoresCase(genre: string)
    ensures MusicTrackForGenre(ToLower(genre)) == MusicTrackForGenre(genre)
  {
    ToLowerIdempotent(genre);
  }

  /** A genre that mentions fantasy, in any letter case, plays the fantasy track whatever else it mentions. */
  lemma FantasyComesFirst(before: string, keyword: string, after: string)
    requires ToLower(keyword) == "fantasy"
    ensures MusicTrackForGenre(before + keyword + after) == AmbientFantasy
  {
    ToLowerConcat(before + keyword, after);
    ToLowerConcat(before, keyword);
    ContainsMiddle(ToLower(before), "fantasy", ToLower(after));
  }

  /** Without fantasy, a science-fiction keyword outranks horror and thriller. */
  lemma ScienceFictionBeforeHorror(before: string, keyword: string, after: string)
    requires ToLower(keyword) in {"sci-fi", "science fiction", "cyberpunk"}
    requires !Contains(ToLower(before + keyword + after), "fantasy")
    ensures MusicTrackForGenre(before + keyword + after) == AmbientScifi
  {
    ToLowerConcat(before + keyword, after);
    ToLowerConcat(before, keyword);
    ContainsMiddle(ToLower(before), ToLower(keyword), ToLower(after));
  }

  /** The default track is chosen exactly when none of the six keywords occurs in the lower-cased genre. */
  lemma DefaultTrackIff(genre: string)
    ensures var lowerGenre := ToLower(genre);
      MusicTrackForGenre(genre) == AmbientDefault <==>
        forall keyword :: keyword in ["fantasy", "sci-fi", "science fiction", "cyberpunk", "horror", "thriller"]
          ==> !Contains(lowerGenre, keyword)
  {
    var keywords := ["fantasy", "sci-fi", "science fiction", "cyberpunk", "horror", "thriller"];
    assert keywords[0] == "fantasy" && keywords[1] == "sci-fi" && keywords[2] == "science fiction";
    assert keywords[3] == "cyberpunk" && keywords[4] == "horror" && keywords[5] == "thriller";
  }

  // ---------------------------------------------------------------------------
  // Header health
  // ---------------------------------------------------------------------------

  /** JavaScript truthiness of a stat value (no stat is NaN: numbers come from a successful parse). */
  predicate Truthy(v: StatValue)
  {
    match v
    case Num(n) => n != 0.0
    case Text(s) => s != ""
  }

  /** The stat names tried for the header's health, in order. */
  const HealthKeys: seq<string> := ["체력", "health", "호감도", "affection"]

  predicate Shows(stats: map<string, StatValue>, key: string)
  {
    key in stats && Truthy(stats[key])
  }

  /** `a || b || … || 0` over the stats named by `keys`. */
  function FirstTruthy(stats: map<string, StatValue>, keys: seq<string>): StatValue
  {
    if |keys| == 0 then Num(0.0)
    else if Shows(stats, keys[0]) then stats[keys[0]]
    else FirstTruthy(stats, keys[1..])
  }

  /** The value the header hands to the health bar. */
  function HeaderHealth(stats: map<string, StatValue>): StatValue
  {
    FirstTruthy(stats, HealthKeys)
  }

  /**
   * The chain yields the first key's value that is truthy, and 0 when there
   * is none: a stat that is 0 or empty text is passed over.
   */
  lemma {:induction false} FirstTruthyIsFirst(stats: map<string, StatValue>, keys: seq<string>)
    ensures forall j ::
              (0 <= j < |keys| && Shows(stats, keys[j]) && (forall i :: 0 <= i < j ==> !Shows(stats, keys[i])))
              ==> FirstTruthy(stats, keys) == stats[keys[j]]
    ensures (forall j :: 0 <= j < |keys| ==> !Shows(stats, keys[j])) ==> FirstTruthy(stats, keys) == Num(0.0)
  {
    if |keys| > 0 {
      FirstTruthyIsFirst(stats, keys[1..]);
      forall j | 0 < j < |keys| && Shows(stats, keys[j]) && (forall i :: 0 <= i < j ==> !Shows(stats, keys[i]))
        ensures FirstTruthy(stats, keys) == stats[keys[j]]
      {
        assert !Shows(stats, keys[0]);
        assert keys[1..][j - 1] == keys[j];
        forall i | 0 <= i < j - 1 ensures !Shows(stats, keys[1..][i]) {
          assert keys[1..][i] == keys[i + 1];
        }
      }
      if forall j :: 0 <= j < |keys| ==> !Shows(stats, keys[j]) {
        assert !Shows(stats, keys[0]);
        forall j | 0 <= j < |keys| - 1 ensures !Shows(stats, keys[1..][j]) {
          assert keys[1..][j] == keys[j + 1];
        }
      }
    }
  }

  // ---------------------------------------------------------------------------
  // Health bar
  // ---------------------------------------------------------------------------

  /** The number of segments of the health bar (its `max`). */
  const HealthBarSegments := 10

  /** The bar's coercion: a value that is not a number counts as 0. */
  function NumericHealth(health: StatValue): real
  {
    match health
    case Num(n) => n
    case Text(_) => 0.0
  }

  /** `HealthBar`: segment `i` is filled when `i` is below the coerced health. */
  function HealthBar(health: StatValue): (filled: seq<bool>)
    ensures |filled| == HealthBarSegments
  {
    seq(HealthBarSegments, i => (i as real) < NumericHealth(health))
  }

  /** A health between k-1 (exclusive) and k (inclusive) fills exactly the first k segments. */
  lemma HealthBarFillsPrefix(n: real, k: int)
    requires 0 <= k <= HealthBarSegments && (k - 1) as real < n <= k as real
    ensures forall i :: 0 <= i < HealthBarSegments ==> (HealthBar(Num(n))[i] <==> i < k)
  {
    forall i | 0 <= i < HealthBarSegments ensures HealthBar(Num(n))[i] <==> i < k {
      if i < k {
        assert (i as real) <= (k - 1) as real;
      }
    }
  }

  /** A health stat the model sent as text shows an empty bar, and hides any later candidate. */
  lemma TextHealthShowsEmptyBar(stats: map<string, StatValue>, s: string)
    requires "체력" in stats && stats["체력"] == Text(s) && s != ""
    ensures HeaderHealth(stats) == Text(s)
    ensures forall i :: 0 <= i < HealthBarSegments ==> !HealthBar(HeaderHealth(stats))[i]
  {
    assert HealthKeys[0] == "체력";
  }
}
