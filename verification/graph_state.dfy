/**
 * The request state that the agents read and patch.
 *
 * A state is a Python dict with eight string keys. Six hold strings; `metrics`
 * and `reasons` hold dictionaries (metric name to score, metric name to reason).
 * Nodes return sparse patches that the graph runtime merges into the state by
 * per-key overwrite.
 *
 * Two views are modelled. `State` is the value view used by the scheduler.
 * `LiveState` is the heap view: the two dictionaries are objects that the grading agent
 * updates in place and that every shallow copy of the state shares.
 */
module GraphState {
  import opened Outcomes
  import opened PyDict

  datatype Key = Query | Agent | KgContext | DbContext | WebsearchContext | Metrics | Reasons | Answer

  /** The Python name of each key. */
  function KeyName(k: Key): string
  {
    match k
    case Query => "query"
    case Agent => "agent"
    case KgContext => "kg_context"
    case DbContext => "db_context"
    case WebsearchContext => "websearch_context"
    case Metrics => "metrics"
    case Reasons => "reasons"
    case Answer => "answer"
  }

  /** The keys whose values are strings. */
  predicate IsTextKey(k: Key)
  {
    k != Metrics && k != Reasons
  }

  datatype Value = Text(s: string) | Scores(scores: Dict<int>) | Notes(notes: Dict<string>)

  type State = map<Key, Value>
  type Patch = map<Key, Value>

  /** Every key present holds a value of the kind its field declares. */
  predicate WellTyped(s: map<Key, Value>)
  {
    forall k :: k in s ==> HasKind(k, s[k])
  }

  predicate HasKind(k: Key, v: Value)
  {
    match k
    case Metrics => v.Scores?
    case Reasons => v.Notes?
    case _ => v.Text?
  }

  /**
   * The runtime's merge of a node's patch: every key of the patch is overwritten,
   * every other key keeps its value.
   */
  function Apply(s: State, p: Patch): (r: State)
    ensures r.Keys == s.Keys + p.Keys
    ensures forall k :: k in p ==> r[k] == p[k]
    ensures forall k :: k in s && k !in p ==> r[k] == s[k]
  {
    s + p
  }

  lemma ApplyWellTyped(s: State, p: Patch)
    requires WellTyped(s) && WellTyped(p)
    ensures WellTyped(Apply(s, p))
  {
  }

  /** Patches that write disjoint keys commute. */
  lemma ApplyDisjointCommutes(s: State, p: Patch, q: Patch)
    requires p.Keys !! q.Keys
    ensures Apply(Apply(s, p), q) == Apply(Apply(s, q), p)
  {
  }

  /** `state[k]` for a string field: `KeyError` when absent. */
  function GetText(s: State, k: Key): (r: Result<string>)
    ensures r.Ok? <==> k in s && s[k].Text?
    ensures r.Ok? ==> s[k] == Text(r.value)
  {
    if k !in s then Err(KeyError(KeyName(k)))
    else if !s[k].Text? then Err(TypeError("not a string: " + KeyName(k)))
    else Ok(s[k].s)
  }

  /** `state["metrics"]`. */
  function GetScores(s: State): (r: Result<Dict<int>>)
    ensures r.Ok? <==> Metrics in s && s[Metrics].Scores?
    ensures r.Ok? ==> s[Metrics] == Scores(r.value)
  {
    if Metrics !in s then Err(KeyError("metrics"))
    else if !s[Metrics].Scores? then Err(TypeError("not a dict: metrics"))
    else Ok(s[Metrics].scores)
  }

  /** `state["reasons"]`. */
  function GetNotes(s: State): (r: Result<Dict<string>>)
    ensures r.Ok? <==> Reasons in s && s[Reasons].Notes?
    ensures r.Ok? ==> s[Reasons] == Notes(r.value)
  {
    if Reasons !in s then Err(KeyError("reasons"))
    else if !s[Reasons].Notes? then Err(TypeError("not a dict: reasons"))
    else Ok(s[Reasons].notes)
  }

  // ----- heap view -----

  /** A `collections.defaultdict` object; its contents are updated in place. */
  class DefaultDict<V> {
    var items: Dict<V>

    constructor ()
      ensures items == []
    {
      items := [];
    }

    /** `self[k] = v`. */
    method SetItem(k: string, v: V)
      modifies this
      ensures items == Set(old(items), k, v)
    {
      items := Set(items, k, v);
    }
  }

  /** What a key of the heap view holds: a string, or a reference to a dictionary object. */
  datatype Slot = Str(s: string) | ScoreDict(scoreDict: DefaultDict<int>) | NoteDict(noteDict: DefaultDict<string>)

  type LiveState = map<Key, Slot>
  type LivePatch = map<Key, Slot>

  /** The dictionary objects a heap state refers to. */
  function Objects(live: map<Key, Slot>): set<object>
  {
    (set k | k in live && live[k].ScoreDict? :: live[k].scoreDict as object)
    + (set k | k in live && live[k].NoteDict? :: live[k].noteDict as object)
  }

  function SlotValue(x: Slot): Value
    reads if x.ScoreDict? then {x.scoreDict as object} else if x.NoteDict? then {x.noteDict as object} else {}
  {
    match x
    case Str(s) => Text(s)
    case ScoreDict(d) => Scores(d.items)
    case NoteDict(d) => Notes(d.items)
  }

  /** The value a heap state denotes in the current heap. */
  function Snapshot(live: map<Key, Slot>): (r: map<Key, Value>)
    reads Objects(live)
    ensures r.Keys == live.Keys
  {
    map k | k in live :: SlotValue(live[k])
  }

  /**
   * The value a well-typed heap state denotes when its metrics dictionary holds
   * `m` and its reasons dictionary holds `n`; it does not depend on the heap.
   */
  function Denote(live: LiveState, m: Dict<int>, n: Dict<string>): (r: State)
    requires LiveWellTyped(live)
    ensures r.Keys == live.Keys
  {
    map k | k in live :: if k == Metrics then Scores(m) else if k == Reasons then Notes(n) else Text(live[k].s)
  }

  lemma SnapshotDenotes(live: LiveState)
    requires LiveWellTyped(live)
    ensures Snapshot(live) == Denote(live, live[Metrics].scoreDict.items, live[Reasons].noteDict.items)
  {
  }

  /** Replacing the two dictionaries' contents is the merge of a patch holding both. */
  lemma DenoteUpdate(live: LiveState, m: Dict<int>, n: Dict<string>, m': Dict<int>, n': Dict<string>)
    requires LiveWellTyped(live)
    ensures Denote(live, m', n') == Apply(Denote(live, m, n), map[Metrics := Scores(m'), Reasons := Notes(n')])
  {
  }

  lemma SnapshotOfDicts(m: DefaultDict<int>, n: DefaultDict<string>)
    ensures Snapshot(map[Metrics := ScoreDict(m), Reasons := NoteDict(n)]) == map[Metrics := Scores(m.items), Reasons := Notes(n.items)]
  {
    var live := map[Metrics := ScoreDict(m), Reasons := NoteDict(n)];
    assert Snapshot(live)[Metrics] == SlotValue(live[Metrics]);
    assert Snapshot(live)[Reasons] == SlotValue(live[Reasons]);
  }

  /** The metrics and reasons slots hold dictionary objects, as in the initial state. */
  predicate LiveWellTyped(live: LiveState)
  {
    && Metrics in live && live[Metrics].ScoreDict?
    && Reasons in live && live[Reasons].NoteDict?
    && forall k :: k in live && IsTextKey(k) ==> live[k].Str?
  }
}
