/** The initial request state, `BASE_INPUTS`. */
module Input {
  import opened Outcomes
  import opened PyDict
  import opened GraphState

  const AllKeys: set<Key> := {Query, Agent, KgContext, DbContext, WebsearchContext, Metrics, Reasons, Answer}

  /**
   * A `defaultdict(str)` lookup `d[k]`: the stored value, or `""` for an absent key.
   * For the metrics dictionary, whose values are integers, the absent case is
   * `None` and stands for that same `""`.
   */
  function DefaultLookup(d: Dict<string>, k: string): (r: string)
    ensures k !in Keys(d) ==> r == ""
    ensures Get(d, k).Some? ==> r == Get(d, k).value
  {
    match Get(d, k)
    case Some(v) => v
    case None => ""
  }

  /**
   * `BASE_INPUTS` in the value view: exactly the eight keys, every string field
   * empty, and both dictionaries empty, so that every lookup in them yields the
   * default.
   */
  function BaseInputs(): (s: State)
    ensures s.Keys == AllKeys && |s| == 8
    ensures forall k :: k in s && IsTextKey(k) ==> s[k] == Text("")
    ensures s[Metrics] == Scores([]) && s[Reasons] == Notes([])
    ensures forall name :: Get(s[Metrics].scores, name) == None && DefaultLookup(s[Reasons].notes, name) == ""
    ensures WellTyped(s)
  {
    var s := map k | k in AllKeys :: if k == Metrics then Scores([]) else if k == Reasons then Notes([]) else Text("");
    AllKeysCount();
    s
  }

  lemma AllKeysCount()
    ensures |AllKeys| == 8
  {
    var k2: set<Key> := {Query, Agent};
    var k4 := k2 + {KgContext, DbContext};
    var k6 := k4 + {WebsearchContext, Metrics};
    var k8 := k6 + {Reasons, Answer};
    assert |k2| == 2;
    assert k4 - k2 == {KgContext, DbContext};
    assert |k4| == 4;
    assert k6 - k4 == {WebsearchContext, Metrics};
    assert |k6| == 6;
    assert k8 - k6 == {Reasons, Answer};
    assert |k8| == 8;
    assert k8 == AllKeys;
  }

  /**
   * Building `BASE_INPUTS` when the module is imported: two fresh, distinct,
   * empty `defaultdict(str)` objects and empty strings elsewhere.
   */
  method CreateBaseInputs() returns (live: LiveState)
    ensures LiveWellTyped(live) && live.Keys == AllKeys
    ensures fresh(live[Metrics].scoreDict) && fresh(live[Reasons].noteDict)
    ensures Snapshot(live) == BaseInputs()
  {
    var metrics := new DefaultDict<int>();
    var reasons := new DefaultDict<string>();
    live := map[
      Query := Str(""), Agent := Str(""), KgContext := Str(""), DbContext := Str(""),
      WebsearchContext := Str(""), Metrics := ScoreDict(metrics), Reasons := NoteDict(reasons),
      Answer := Str("")];
    assert live.Keys == AllKeys;
    BaseSnapshot(live);
  }

  /** A heap state with the eight keys, empty strings and two empty dictionaries reads as `BASE_INPUTS`. */
  lemma BaseSnapshot(live: LiveState)
    requires LiveWellTyped(live) && live.Keys == AllKeys
    requires forall k :: k in live && IsTextKey(k) ==> live[k] == Str("")
    requires live[Metrics].scoreDict.items == [] && live[Reasons].noteDict.items == []
    ensures Snapshot(live) == BaseInputs()
  {
    var b := BaseInputs();
    var d := Denote(live, [], []);
    SnapshotDenotes(live);
    forall k | k in live
      ensures d[k] == b[k]
    {
      if k == Metrics {
        assert d[k] == Scores([]);
      } else if k == Reasons {
        assert d[k] == Notes([]);
      } else {
        assert d[k] == Text("") == b[k];
      }
    }
    assert d == b;
  }
}
