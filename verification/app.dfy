/**
 * The chat handler of app.py: each user message starts a run of the graph
 * from a shallow copy of `BASE_INPUTS` with the query set, and folds the
 * streamed events into one growing answer message, context messages for the
 * updates that carry a context, and a final message with the chosen answer.
 *
 * The graph run itself is the sequence of events it streams, a parameter.
 */
module App {
  import opened Outcomes
  import opened GraphState
  import Input
  import opened UiUtils
  import Workflow

  // ----- the initial state -----

  /** `BASE_INPUTS.copy()` followed by `inputs["query"] = query`. */
  function InitialInputs(base: LiveState, query: string): (r: LiveState)
    ensures r.Keys == base.Keys + {Query}
    ensures r[Query] == Str(query)
  {
    base[Query := Str(query)]
  }

  /**
   * The copy is shallow: every key but the query holds what `BASE_INPUTS`
   * holds, the same dictionary objects included, so the grading agent's in-place
   * writes to them are seen through `BASE_INPUTS` by every later run; the
   * state the run starts from is the current contents of `BASE_INPUTS` with
   * only the query replaced.
   */
  lemma InitialInputsShallow(base: LiveState, query: string)
    requires LiveWellTyped(base)
    ensures LiveWellTyped(InitialInputs(base, query))
    ensures forall k :: k in base && k != Query ==> InitialInputs(base, query)[k] == base[k]
    ensures Objects(InitialInputs(base, query)) == Objects(base)
    ensures Snapshot(InitialInputs(base, query)) == Snapshot(base)[Query := Text(query)]
  {
    var r := InitialInputs(base, query);
    assert Objects(r) == Objects(base) by {
      forall o | o in Objects(r) ensures o in Objects(base) {
        var k :| k in r && ((r[k].ScoreDict? && o == r[k].scoreDict) || (r[k].NoteDict? && o == r[k].noteDict));
        assert k != Query && r[k] == base[k];
      }
      forall o | o in Objects(base) ensures o in Objects(r) {
        var k :| k in base && ((base[k].ScoreDict? && o == base[k].scoreDict) || (base[k].NoteDict? && o == base[k].noteDict));
        assert k != Query && r[k] == base[k];
      }
    }
  }

  /** On the first message, while `BASE_INPUTS` is untouched, the run starts from the empty state with the query set. */
  lemma FirstRunInputs(base: LiveState, query: string)
    requires LiveWellTyped(base) && base.Keys == Input.AllKeys
    requires Snapshot(base) == Input.BaseInputs()
    ensures Snapshot(InitialInputs(base, query)) == Input.BaseInputs()[Query := Text(query)]
    ensures Snapshot(InitialInputs(base, query))[Metrics] == Scores([])
  {
    InitialInputsShallow(base, query);
  }

  // ----- the event fold -----

  /** One streamed event: an answer chunk with the node it came from, or one node's update. */
  datatype Event = Messages(chunk: string, node: Option<string>) | Updates(update: Update)

  const Header := "Answer Generation Agent's Initial Answer: \n\n"
  const FinalPrefix := "Final Chosen Answer: \n\n"
  const VectorLabel := "Vector DB Retriever Agent"
  const KgLabel := "KG DB Retriever Agent"
  const InsulinMessage := Sent(Catalogue[0].name, PdfElement(Catalogue[0].name, Catalogue[0].path))

  /** The loop's variables: the `first` flag, `final_answer`, the answer message's content, and the messages sent. */
  datatype Fold = Fold(first: bool, finalAnswer: string, content: string, sent: seq<Sent>)

  const Start := Fold(true, "", "", [])

  /** The context message of an update, labelled by the first of vector store, graph and web search that reported. */
  function ContextMessages(update: Update, context: Value): seq<Sent>
  {
    if Reported(update, Workflow.SearchVectorDb) then [Sent(VectorLabel, TextElement(VectorLabel, context))]
    else if Reported(update, Workflow.SearchKgDb) then [Sent(KgLabel, TextElement(KgLabel, context))]
    else if Reported(update, Workflow.Websearch) then [Sent(WebsearchLabel, TextElement(WebsearchLabel, context))]
    else []
  }

  /** One pass of the loop body. */
  function Step(f: Fold, e: Event): Fold
  {
    match e
    case Messages(chunk, node) =>
      var g := if f.first then f.(first := false, content := f.content + Header) else f;
      var piece := if FromGrader(node) then "" else chunk;
      g.(content := g.content + piece, finalAnswer := g.finalAnswer + piece)
    case Updates(update) =>
      var context := RetrievedContext(update);
      if !Truthy(context) then f
      else f.(sent := f.sent + ContextMessages(update, context.value) + [InsulinMessage])
  }

  function Run(events: seq<Event>): Fold
  {
    if events == [] then Start else Step(Run(events[..|events| - 1]), events[|events| - 1])
  }

  /**
   * `on_message` after the initial state is built: the events are folded in
   * arrival order, then the final answer is sent. It returns the messages
   * sent and the streamed answer message's content.
   */
  method OnMessage(events: seq<Event>) returns (sent: seq<Sent>, shown: string)
    ensures sent == Run(events).sent + [Sent(FinalPrefix + Run(events).finalAnswer, NoElement)]
    ensures shown == Run(events).content
  {
    var first := true;
    var finalAnswer := "";
    var message := new ChatMessage();
    sent := [];
    for i := 0 to |events|
      invariant Fold(first, finalAnswer, message.content, sent) == Run(events[..i])
    {
      RunSnoc(events, i);
      match events[i]
      case Messages(chunk, node) =>
        if first {
          message.content := message.content + Header;
          first := false;
        }
        var piece := if FromGrader(node) then "" else chunk;
        message.content := message.content + piece;
        finalAnswer := finalAnswer + piece;
      case Updates(update) =>
        var context := RetrievedContext(update);
        if !Truthy(context) {
          continue;
        }
        var tagged: seq<Sent> := [];
        if Reported(update, Workflow.SearchVectorDb) {
          tagged := [Sent(VectorLabel, TextElement(VectorLabel, context.value))];
        } else if Reported(update, Workflow.SearchKgDb) {
          tagged := [Sent(KgLabel, TextElement(KgLabel, context.value))];
        } else if Reported(update, Workflow.Websearch) {
          tagged := [Sent(WebsearchLabel, TextElement(WebsearchLabel, context.value))];
        }
        sent := sent + tagged + [InsulinMessage];
    }
    assert events[..|events|] == events;
    sent := sent + [Sent(FinalPrefix + finalAnswer, NoElement)];
    shown := message.content;
  }

  lemma RunSnoc(events: seq<Event>, i: nat)
    requires i < |events|
    ensures Run(events[..i + 1]) == Step(Run(events[..i]), events[i])
  {
    assert events[..i + 1][..i] == events[..i];
  }

  // ----- what the fold keeps -----

  predicate IsMessages(e: Event)
  {
    e.Messages?
  }

  /** No "messages" event among the events. */
  predicate NoMessages(events: seq<Event>)
  {
    forall i :: 0 <= i < |events| ==> !IsMessages(events[i])
  }

  /** The chunks of "messages" events from nodes other than the grading agent, concatenated in arrival order. */
  function Answered(events: seq<Event>): string
  {
    if events == [] then ""
    else
      var e := events[|events| - 1];
      Answered(events[..|events| - 1]) + (if e.Messages? && !FromGrader(e.node) then e.chunk else "")
  }

  /**
   * `first` is down exactly once a "messages" event has arrived; the answer is
   * the concatenation of the non-grader chunks; and the message shows the
   * header, added once, followed by the answer (nothing before the first
   * "messages" event).
   */
  lemma {:induction false} RunAnswer(events: seq<Event>)
    ensures Run(events).first <==> NoMessages(events)
    ensures Run(events).finalAnswer == Answered(events)
    ensures Run(events).content == (if Run(events).first then "" else Header) + Run(events).finalAnswer
    ensures Run(events).first ==> Run(events).finalAnswer == ""
  {
    if events != [] {
      var init := events[..|events| - 1];
      var last := events[|events| - 1];
      RunAnswer(init);
      StepAnswer(Run(init), last);
      NoMessagesLast(events);
    }
  }

  /** One pass keeps the message equal to the header (once opened) followed by the answer. */
  lemma StepAnswer(f: Fold, e: Event)
    requires f.content == (if f.first then "" else Header) + f.finalAnswer
    requires f.first ==> f.finalAnswer == ""
    ensures Step(f, e).first ==> Step(f, e).finalAnswer == ""
    ensures Step(f, e).first == (f.first && !e.Messages?)
    ensures Step(f, e).finalAnswer == f.finalAnswer + (if e.Messages? && !FromGrader(e.node) then e.chunk else "")
    ensures Step(f, e).content == (if Step(f, e).first then "" else Header) + Step(f, e).finalAnswer
  {
    if e.Messages? {
      var piece := if FromGrader(e.node) then "" else e.chunk;
      if f.first {
        assert f.content == "" && f.finalAnswer == "";
        assert f.content + Header + piece == Header + (f.finalAnswer + piece);
      } else {
        assert f.content + piece == Header + (f.finalAnswer + piece);
      }
    }
  }

  lemma NoMessagesLast(events: seq<Event>)
    requires events != []
    ensures NoMessages(events) <==> NoMessages(events[..|events| - 1]) && !events[|events| - 1].Messages?
  {
    var init := events[..|events| - 1];
    if NoMessages(events) {
      assert !IsMessages(events[|events| - 1]);
      forall i | 0 <= i < |init| ensures !IsMessages(init[i]) {
        assert init[i] == events[i];
      }
    }
    if NoMessages(init) && !events[|events| - 1].Messages? {
      forall i | 0 <= i < |events| ensures !IsMessages(events[i]) {
        if i < |init| {
          assert init[i] == events[i];
        }
      }
    }
  }

  /** An update whose three context lookups are all empty changes nothing. */
  lemma SkippedUpdate(f: Fold, update: Update)
    requires forall i :: 0 <= i < 3 ==> !Truthy(ContextLookups(update)[i])
    ensures Step(f, Updates(update)) == f
  {
    RetrievedContextFirst(update);
  }

  /**
   * An update with a context adds the context message, labelled with the
   * agent `get_agent_type` names for it (never the grading agent), followed by the
   * insulin PDF message, whatever the context says.
   */
  lemma ContextUpdate(f: Fold, update: Update)
    requires Truthy(RetrievedContext(update))
    ensures AgentType(update).Some? && AgentType(update) != Some(GraderLabel)
    ensures Step(f, Updates(update)).sent
      == f.sent + [Sent(AgentType(update).value, TextElement(AgentType(update).value, RetrievedContext(update).value)), InsulinMessage]
    ensures Step(f, Updates(update)).finalAnswer == f.finalAnswer && Step(f, Updates(update)).content == f.content
  {
    RetrievedContextFirst(update);
    var l := ContextLookups(update);
    var i :| FirstTruthy(l, i) && RetrievedContext(update) == l[i];
    if i == 0 {
      assert Reported(update, Workflow.SearchVectorDb);
    } else if i == 1 {
      assert Reported(update, Workflow.SearchKgDb);
    } else {
      assert Reported(update, Workflow.Websearch);
    }
  }
}
