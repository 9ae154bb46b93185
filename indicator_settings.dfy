/** The list of chosen indicators on the indicator page (frontend/src/App.js,
    `IndicatorSettingsCard`): adding one from the catalogue, removing one by id and
    changing one of its parameters. Each operation is the updater the component
    hands to `setActiveIndicators`, so each is a function from the old list to
    the new one. */
module IndicatorSettings {
  import opened Wrappers
  import opened Lists
  import D = Dict

  /** A catalogue entry: a name and its default parameters, in display order. */
  datatype Indicator = Indicator(name: string, params: D.Dict<string, real>)

  /** A chosen indicator; `id` is the `Date.now()` value at the time it was added. */
  datatype ActiveIndicator = ActiveIndicator(name: string, params: D.Dict<string, real>, id: int)

  /** `available`. */
  const Available: seq<Indicator> := [
    Indicator("SMA", [("period", 20.0)]),
    Indicator("EMA", [("period", 20.0)]),
    Indicator("DEMA", [("period", 20.0)]),
    Indicator("EMACross", [("fast", 10.0), ("slow", 30.0)]),
    Indicator("RSI", [("period", 14.0)]),
    Indicator("StochRSI", [("rsi_period", 14.0), ("stoch_period", 14.0)]),
    Indicator("MACD", [("fast", 12.0), ("slow", 26.0), ("signal", 9.0)]),
    Indicator("BBands", [("period", 20.0), ("std_dev", 2.0)]),
    Indicator("BBands_%B", [("period", 20.0), ("std_dev", 2.0)]),
    Indicator("StdDev", [("period", 20.0)]),
    Indicator("Klinger", [("fast", 34.0), ("slow", 55.0), ("signal", 13.0)]),
    Indicator("LinReg", [("period", 14.0)]),
    Indicator("TSI", [("long", 25.0), ("short", 13.0)]),
    Indicator("OBV", [])
  ]

  /** `available.find(ind => ind.name === name)`. */
  function Find(catalogue: seq<Indicator>, name: string): (r: Option<Indicator>)
    ensures r.Some? ==> r.value in catalogue && r.value.name == name
    ensures r.None? ==> forall i :: 0 <= i < |catalogue| ==> catalogue[i].name != name
  {
    if catalogue == [] then None
    else if catalogue[0].name == name then Some(catalogue[0])
    else Find(catalogue[1..], name)
  }

  /** `addIndicator`: an empty or unknown name changes nothing; a known one is
      appended with its default parameters and the given id. */
  function Added(active: seq<ActiveIndicator>, name: string, id: int): (r: seq<ActiveIndicator>)
    ensures |active| <= |r| <= |active| + 1 && r[..|active|] == active
    ensures |r| == |active| + 1 <==> name != "" && exists i :: 0 <= i < |Available| && Available[i].name == name
    ensures |r| == |active| + 1 ==>
              r[|active|].name == name && r[|active|].id == id && Indicator(name, r[|active|].params) in Available
  {
    if name == "" then active
    else
      match Find(Available, name)
      case None => active
      case Some(ind) => active + [ActiveIndicator(ind.name, ind.params, id)]
  }

  /** `removeIndicator`: every entry with that id goes, the rest stay in order. */
  function Removed(active: seq<ActiveIndicator>, id: int): (r: seq<ActiveIndicator>)
    ensures forall i :: 0 <= i < |r| ==> r[i].id != id && r[i] in active
    ensures forall i :: 0 <= i < |active| && active[i].id != id ==> active[i] in r
  {
    Filter(active, (ind: ActiveIndicator) => ind.id != id)
  }

  /** `updateParam`: the entries with that id get `key` set to `value`. */
  function Updated(active: seq<ActiveIndicator>, id: int, key: string, value: real): (r: seq<ActiveIndicator>)
    ensures |r| == |active|
    ensures forall i :: 0 <= i < |active| ==> r[i].name == active[i].name && r[i].id == active[i].id
    ensures forall i :: 0 <= i < |active| && active[i].id != id ==> r[i] == active[i]
  {
    seq(|active|, i requires 0 <= i < |active| =>
      if active[i].id == id then active[i].(params := D.Put(active[i].params, key, value)) else active[i])
  }

  /** Removal keeps the order of the entries it keeps. */
  lemma RemovedKeepsOrder(active: seq<ActiveIndicator>, id: int)
    ensures IsSubsequence(Removed(active, id), active)
  {
    FilterIsSubsequence(active, (ind: ActiveIndicator) => ind.id != id);
  }

  /** Removing an indicator just added under a fresh id restores the list. */
  lemma AddThenRemove(active: seq<ActiveIndicator>, name: string, id: int)
    requires forall i :: 0 <= i < |active| ==> active[i].id != id
    ensures Removed(Added(active, name, id), id) == active
  {
    var keep := (ind: ActiveIndicator) => ind.id != id;
    FilterKeepsAll(active, keep);
    var r := Added(active, name, id);
    if |r| == |active| + 1 {
      assert r == active + [r[|active|]];
      FilterDropsLast(active, r[|active|], keep);
    } else {
      assert r == active;
    }
  }

  /** After an update, the changed entry reads back the new value under `key`
      and its other parameters are as before. */
  lemma UpdateReadsBack(active: seq<ActiveIndicator>, id: int, key: string, value: real, i: nat, other: string)
    requires i < |active| && active[i].id == id
    ensures D.Get(Updated(active, id, key, value)[i].params, key) == Some(value)
    ensures other != key ==> D.Get(Updated(active, id, key, value)[i].params, other) == D.Get(active[i].params, other)
  {
    D.PutGet(active[i].params, key, value, key);
    D.PutGet(active[i].params, key, value, other);
  }
}
