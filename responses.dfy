/**
 * The structured reply of the story model and its normalisation into a
 * player state (hooks/useGameEngine.ts, `processAIResponse`): the key/value
 * lists of stats and item descriptions become maps, numeric stat texts
 * become numbers.
 */
module Responses {
  import opened Wrappers
  import opened Types

  /** One `{key, value}` entry of the stats list; the value may be missing. */
  datatype RawStat = RawStat(key: string, value: Option<string>)

  /** One `{key, value}` entry of the item-description list. */
  datatype RawItem = RawItem(key: string, value: string)

  /** The player state as the model sends it; a list that is not an array is `None`. */
  datatype RawPlayerState = RawPlayerState(
    stats: Option<seq<RawStat>>,
    inventory: Option<seq<string>>,
    itemDescriptions: Option<seq<RawItem>>,
    currentLocation: string,
    day: int,
    timeOfDay: string)

  /** A parsed reply; a missing (null or undefined) dialogue or player state is `None`. */
  datatype Envelope = Envelope(
    dialogue: Option<seq<string>>,
    playerState: Option<RawPlayerState>,
    choices: seq<Choice>,
    isEnding: bool)

  /** A stats entry is taken when its key is non-empty and its value is present. */
  predicate StatKept(e: RawStat)
  {
    e.key != "" && e.value.Some?
  }

  /** An item entry is taken when both its key and its text are non-empty. */
  predicate ItemKept(e: RawItem)
  {
    e.key != "" && e.value != ""
  }

  /**
   * A stat text becomes a number when `parseFloat` reads one from it
   * (`parseFloat` yields `None` for NaN), and stays text otherwise.
   */
  function StatValueOf(text: string, parseFloat: string -> Option<real>): (v: StatValue)
    ensures v.Num? <==> parseFloat(text).Some?
    ensures v.Num? ==> v.n == parseFloat(text).value
    ensures v.Text? ==> v.s == text
  {
    match parseFloat(text)
    case None => Text(text)
    case Some(n) => Num(n)
  }

  /** The stats map built from the entries in order; a later entry overwrites an earlier one. */
  function Stats(entries: seq<RawStat>, parseFloat: string -> Option<real>): map<string, StatValue>
  {
    if |entries| == 0 then map[]
    else
      var m := Stats(entries[..|entries| - 1], parseFloat);
      var e := entries[|entries| - 1];
      if StatKept(e) then m[e.key := StatValueOf(e.value.value, parseFloat)] else m
  }

  /** The item-description map built from the entries in order. */
  function Items(entries: seq<RawItem>): map<string, string>
  {
    if |entries| == 0 then map[]
    else
      var m := Items(entries[..|entries| - 1]);
      var e := entries[|entries| - 1];
      if ItemKept(e) then m[e.key := e.value] else m
  }

  /** Exactly the keys of the taken entries are in the stats map. */
  lemma {:induction false} StatsDomain(entries: seq<RawStat>, parseFloat: string -> Option<real>, k: string)
    ensures k in Stats(entries, parseFloat) <==>
      exists j :: 0 <= j < |entries| && StatKept(entries[j]) && entries[j].key == k
  {
    if |entries| > 0 {
      var init := entries[..|entries| - 1];
      StatsDomain(init, parseFloat, k);
      assert forall j :: 0 <= j < |init| ==> init[j] == entries[j];
      if k in Stats(entries, parseFloat) && k !in Stats(init, parseFloat) {
        assert entries[|entries| - 1].key == k;
      }
    }
  }

  /** A key maps to the value of the last taken entry that carries it. */
  lemma {:induction false} StatsLastWins(entries: seq<RawStat>, parseFloat: string -> Option<real>, j: int)
    requires 0 <= j < |entries| && StatKept(entries[j])
    requires forall l :: j < l < |entries| && StatKept(entries[l]) ==> entries[l].key != entries[j].key
    ensures entries[j].key in Stats(entries, parseFloat)
    ensures Stats(entries, parseFloat)[entries[j].key] == StatValueOf(entries[j].value.value, parseFloat)
  {
    if j < |entries| - 1 {
      var init := entries[..|entries| - 1];
      assert init[j] == entries[j];
      assert forall l :: j < l < |init| ==> init[l] == entries[l];
      StatsLastWins(init, parseFloat, j);
    }
  }

  /** Exactly the keys of the taken entries are in the item-description map. */
  lemma {:induction false} ItemsDomain(entries: seq<RawItem>, k: string)
    ensures k in Items(entries) <==> exists j :: 0 <= j < |entries| && ItemKept(entries[j]) && entries[j].key == k
  {
    if |entries| > 0 {
      var init := entries[..|entries| - 1];
      ItemsDomain(init, k);
      assert forall j :: 0 <= j < |init| ==> init[j] == entries[j];
      if k in Items(entries) && k !in Items(init) {
        assert entries[|entries| - 1].key == k;
      }
    }
  }

  /** A key maps to the text of the last taken entry that carries it. */
  lemma {:induction false} ItemsLastWins(entries: seq<RawItem>, j: int)
    requires 0 <= j < |entries| && ItemKept(entries[j])
    requires forall l :: j < l < |entries| && ItemKept(entries[l]) ==> entries[l].key != entries[j].key
    ensures entries[j].key in Items(entries) && Items(entries)[entries[j].key] == entries[j].value
  {
    if j < |entries| - 1 {
      var init := entries[..|entries| - 1];
      assert init[j] == entries[j];
      assert forall l :: j < l < |init| ==> init[l] == entries[l];
      ItemsLastWins(init, j);
    }
  }

  /** The stats loop: a list that is not an array gives an empty map. */
  method ConvertStats(stats: Option<seq<RawStat>>, parseFloat: string -> Option<real>)
    returns (converted: map<string, StatValue>)
    ensures converted == if stats.Some? then Stats(stats.value, parseFloat) else map[]
  {
    converted := map[];
    if stats.Some? {
      var entries := stats.value;
      for i := 0 to |entries|
        invariant converted == Stats(entries[..i], parseFloat)
      {
        assert entries[..i + 1][..i] == entries[..i];
        var e := entries[i];
        if e.key != "" && e.value.Some? {
          converted := converted[e.key := StatValueOf(e.value.value, parseFloat)];
        }
      }
      assert entries[..|entries|] == entries;
    }
  }

  /** The item-description loop: a list that is not an array gives an empty map. */
  method ConvertItems(items: Option<seq<RawItem>>) returns (converted: map<string, string>)
    ensures converted == if items.Some? then Items(items.value) else map[]
  {
    converted := map[];
    if items.Some? {
      var entries := items.value;
      for i := 0 to |entries|
        invariant converted == Items(entries[..i])
      {
        assert entries[..i + 1][..i] == entries[..i];
        var e := entries[i];
        if e.key != "" && e.value != "" {
          converted := converted[e.key := e.value];
        }
      }
      assert entries[..|entries|] == entries;
    }
  }

  /**
   * The stored player state: the two lists are replaced by the converted maps
   * (empty when the model did not send an array) and every other field is the
   * model's own.
   */
  function Normalize(raw: RawPlayerState, parseFloat: string -> Option<real>): PlayerState
  {
    PlayerState(
      if raw.stats.Some? then Stats(raw.stats.value, parseFloat) else map[],
      raw.inventory,
      if raw.itemDescriptions.Some? then Items(raw.itemDescriptions.value) else map[],
      raw.currentLocation, raw.day, raw.timeOfDay)
  }
}
