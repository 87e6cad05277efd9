/** The reflexion graph: three nodes over an append-only message log, two
    fixed edges, and one conditional edge after `revise` that loops back to
    the tool node until the log holds more than MAX_ITERATIONS tool
    messages. */
module ReflexionGraph {
  import opened Wrappers
  import opened Messages
  import opened Sequences
  import ToolExecutor

  const MAX_ITERATIONS: nat := 2

  datatype Node = Draft | ExecuteTools | Revise

  /** Where control goes after a node: another node, or END. */
  datatype Next = Goto(node: Node) | End

  // ---------------------------------------------------------------------
  // event_loop
  // ---------------------------------------------------------------------

  /** How many messages of the log are tool messages. */
  function CountToolMessages(state: seq<Message>): nat
  {
    if state == [] then 0
    else CountToolMessages(state[..|state| - 1]) + (if state[|state| - 1].Tool? then 1 else 0)
  }

  /** The conditional edge out of `revise`. */
  function EventLoop(state: seq<Message>): Next
  {
    if CountToolMessages(state) > MAX_ITERATIONS then End else Goto(ExecuteTools)
  }

  /** The positions of the log that hold tool messages. */
  function ToolPositions(state: seq<Message>): set<nat>
  {
    set k: nat | k < |state| && state[k].Tool?
  }

  /** The count is the number of tool positions. */
  lemma {:induction false} CountIsToolPositions(state: seq<Message>)
    ensures CountToolMessages(state) == |ToolPositions(state)|
  {
    if state != [] {
      var m := |state| - 1;
      CountIsToolPositions(state[..m]);
      if state[m].Tool? {
        assert ToolPositions(state) == ToolPositions(state[..m]) + {m};
      } else {
        assert ToolPositions(state) == ToolPositions(state[..m]);
      }
    }
  }

  /** event_loop ends the run exactly when more than MAX_ITERATIONS positions
      of the log hold tool messages, and otherwise sends control back to the
      tool node. */
  lemma EventLoopDecision(state: seq<Message>)
    ensures EventLoop(state) == End <==> |ToolPositions(state)| > MAX_ITERATIONS
    ensures EventLoop(state) != End ==> EventLoop(state) == Goto(ExecuteTools)
  {
    CountIsToolPositions(state);
  }

  /** The count over a concatenation is the sum of the counts. */
  lemma {:induction false} CountAppend(s: seq<Message>, t: seq<Message>)
    ensures CountToolMessages(s + t) == CountToolMessages(s) + CountToolMessages(t)
  {
    if t == [] {
      assert s + t == s;
    } else {
      var m := |t| - 1;
      CountAppend(s, t[..m]);
      assert (s + t)[..|s + t| - 1] == s + t[..m];
      assert (s + t)[|s + t| - 1] == t[m];
    }
  }

  /** A sequence of tool messages only counts as its length. */
  lemma {:induction false} CountAllTools(msgs: seq<Message>)
    requires forall k :: 0 <= k < |msgs| ==> msgs[k].Tool?
    ensures CountToolMessages(msgs) == |msgs|
  {
    if msgs != [] {
      CountAllTools(msgs[..|msgs| - 1]);
    }
  }

  /** The decision depends on which positions hold tool messages, not on
      what any message contains. */
  lemma EventLoopIgnoresContent(s1: seq<Message>, s2: seq<Message>)
    requires |s1| == |s2|
    requires forall k :: 0 <= k < |s1| ==> (s1[k].Tool? <==> s2[k].Tool?)
    ensures EventLoop(s1) == EventLoop(s2)
  {
    CountIsToolPositions(s1);
    CountIsToolPositions(s2);
    assert ToolPositions(s1) == ToolPositions(s2);
  }

  /** Nor does it depend on where the tool messages stand: any rearrangement
      of the log gives the same decision. */
  lemma {:induction false} CountPermutation(s1: seq<Message>, s2: seq<Message>)
    requires multiset(s1) == multiset(s2)
    ensures CountToolMessages(s1) == CountToolMessages(s2)
    decreases |s1|
  {
    if s1 != [] {
      var m := |s1| - 1;
      var x := s1[m];
      assert s1 == s1[..m] + [x];
      assert x in multiset(s2);
      var j :| 0 <= j < |s2| && s2[j] == x;
      var rest := s2[..j] + s2[j + 1..];
      assert s2 == s2[..j] + [x] + s2[j + 1..];
      assert multiset(s2) == multiset(s2[..j]) + multiset{x} + multiset(s2[j + 1..]);
      assert multiset(rest) == multiset(s2[..j]) + multiset(s2[j + 1..]);
      assert multiset(s1) == multiset(s1[..m]) + multiset{x};
      assert multiset(s1[..m]) == multiset(s1) - multiset{x};
      assert multiset(rest) == multiset(s2) - multiset{x};
      CountPermutation(s1[..m], rest);
      CountAppend(s1[..m], [x]);
      CountAppend(s2[..j] + [x], s2[j + 1..]);
      CountAppend(s2[..j], [x]);
      CountAppend(s2[..j], s2[j + 1..]);
    }
  }

  lemma EventLoopPermutation(s1: seq<Message>, s2: seq<Message>)
    requires multiset(s1) == multiset(s2)
    ensures EventLoop(s1) == EventLoop(s2)
  {
    CountPermutation(s1, s2);
  }

  /** Appending messages that are not tool messages never changes the
      decision. */
  lemma EventLoopAppendNonTool(state: seq<Message>, extra: seq<Message>)
    requires forall k :: 0 <= k < |extra| ==> !extra[k].Tool?
    ensures EventLoop(state + extra) == EventLoop(state)
  {
    CountAppend(state, extra);
    CountIsToolPositions(extra);
    assert ToolPositions(extra) == {};
  }

  /** Appending messages can turn "execute_tools" into END, never END back
      into "execute_tools". */
  lemma EventLoopMonotone(state: seq<Message>, extra: seq<Message>)
    ensures EventLoop(state) == End ==> EventLoop(state + extra) == End
    ensures EventLoop(state + extra) == Goto(ExecuteTools) ==> EventLoop(state) == Goto(ExecuteTools)
  {
    CountAppend(state, extra);
  }

  // ---------------------------------------------------------------------
  // The graph
  // ---------------------------------------------------------------------

  const ENTRY_POINT: Node := Draft

  /** The edges of the compiled graph: two unconditional ones and the
      conditional edge `revise -> event_loop(state)`. */
  function Edge(from: Node, state: seq<Message>): Next
  {
    match from
    case Draft => Goto(ExecuteTools)
    case ExecuteTools => Goto(Revise)
    case Revise => EventLoop(state)
  }

  /** The fixed shape of the graph: entry `draft`; `draft -> execute_tools`
      and `execute_tools -> revise` whatever the log; only `revise` may end
      the run, and otherwise it goes back to `execute_tools`; nothing leads
      back to `draft`. */
  lemma GraphShape(state: seq<Message>, from: Node)
    ensures ENTRY_POINT == Draft
    ensures Edge(Draft, state) == Goto(ExecuteTools)
    ensures Edge(ExecuteTools, state) == Goto(Revise)
    ensures Edge(from, state) == End ==> from == Revise
    ensures Edge(Revise, state) in {Goto(ExecuteTools), End}
    ensures Edge(from, state) != Goto(Draft)
  {
  }

  /** The node functions: each reads the log and returns the messages that
      MessageGraph appends to it, or None when it raises. */
  datatype Nodes = Nodes(
    draft: seq<Message> -> Option<seq<Message>>,
    executeTools: seq<Message> -> Option<seq<Message>>,
    revise: seq<Message> -> Option<seq<Message>>)

  function Action(nodes: Nodes, node: Node): seq<Message> -> Option<seq<Message>>
  {
    match node
    case Draft => nodes.draft
    case ExecuteTools => nodes.executeTools
    case Revise => nodes.revise
  }

  /** The tool node is execute_tools, for a given output parser and batch
      executor; an exception it raises becomes None. */
  function ToolNode(parse: Message -> Option<seq<ParsedCall>>,
                    batch: seq<ToolExecutor.Invocation> -> seq<SearchOutput>): seq<Message> -> Option<seq<Message>>
  {
    (state: seq<Message>) =>
      match ToolExecutor.ExecuteToolsSpec(state, parse, batch)
      case Ok(msgs) => Some(msgs)
      case Err(_) => None
  }

  /** How a run ends: at END; with an exception from a node; or at the
      runtime's step limit. Each carries the final log and the nodes run. */
  datatype Outcome =
    | Finished(log: seq<Message>, visited: seq<Node>)
    | Failed(log: seq<Message>, visited: seq<Node>, failedAt: Node)
    | StepLimit(log: seq<Message>, visited: seq<Node>)

  /** The run from `at` with log `log`, having visited `visited`, allowed
      `fuel` more node executions. */
  function Execute(at: Next, log: seq<Message>, visited: seq<Node>, fuel: nat, nodes: Nodes): Outcome
    decreases fuel
  {
    match at
    case End => Finished(log, visited)
    case Goto(node) =>
      if fuel == 0 then StepLimit(log, visited)
      else match Action(nodes, node)(log)
        case None => Failed(log, visited + [node], node)
        case Some(out) =>
          var log' := log + out;
          Execute(Edge(node, log'), log', visited + [node], fuel - 1, nodes)
  }

  /** One step of a run: the node runs on the log, its messages are
      appended, and control follows the node's edge on the new log. */
  lemma ExecuteStep(node: Node, log: seq<Message>, visited: seq<Node>, fuel: nat, nodes: Nodes)
    requires fuel > 0 && Action(nodes, node)(log).Some?
    ensures var log' := log + Action(nodes, node)(log).value;
      Execute(Goto(node), log, visited, fuel, nodes)
        == Execute(Edge(node, log'), log', visited + [node], fuel - 1, nodes)
  {
  }

  /** Invoking the compiled graph: seed the log with the question, start at the
      entry point, and step until END, an exception or the step limit. */
  method Invoke(question: string, nodes: Nodes, stepLimit: nat) returns (outcome: Outcome)
    ensures outcome == Execute(Goto(ENTRY_POINT), [Human(question)], [], stepLimit, nodes)
  {
    var at := Goto(ENTRY_POINT);
    var log := [Human(question)];
    var visited: seq<Node> := [];
    var fuel := stepLimit;
    while at.Goto? && fuel > 0
      invariant Execute(at, log, visited, fuel, nodes)
                == Execute(Goto(ENTRY_POINT), [Human(question)], [], stepLimit, nodes)
      decreases fuel
    {
      var node := at.node;
      var out := Action(nodes, node)(log);
      if out.None? {
        return Failed(log, visited + [node], node);
      }
      log := log + out.value;
      visited := visited + [node];
      at := Edge(node, log);
      fuel := fuel - 1;
    }
    if at.End? {
      outcome := Finished(log, visited);
    } else {
      outcome := StepLimit(log, visited);
    }
  }

  // ---------------------------------------------------------------------
  // Round counts
  // ---------------------------------------------------------------------

  /** `k` execute_tools/revise cycles. */
  function Rounds(k: nat): seq<Node>
  {
    if k == 0 then [] else [ExecuteTools, Revise] + Rounds(k - 1)
  }

  /** What node function `f` returns on `log`. The round-count hypotheses
      below are stated on this name so that they are used only where a
      proof asks for them. */
  function Appended(f: seq<Message> -> Option<seq<Message>>, log: seq<Message>): Option<seq<Message>>
  {
    f(log)
  }

  /** A node that never fails on a non-empty log and appends exactly `n`
      tool messages. */
  ghost predicate AppendsTools(f: seq<Message> -> Option<seq<Message>>, n: nat)
  {
    forall log {:trigger Appended(f, log)} :: |log| > 0 ==>
      Appended(f, log).Some? && CountToolMessages(Appended(f, log).value) == n
  }

  /** A node that never fails on a non-empty log and appends at least one
      tool message. */
  ghost predicate AppendsSomeTools(f: seq<Message> -> Option<seq<Message>>)
  {
    forall log {:trigger Appended(f, log)} :: |log| > 0 ==>
      Appended(f, log).Some? && CountToolMessages(Appended(f, log).value) >= 1
  }

  lemma UseAppendsTools(f: seq<Message> -> Option<seq<Message>>, n: nat, log: seq<Message>)
    requires AppendsTools(f, n) && |log| > 0
    ensures f(log).Some? && CountToolMessages(f(log).value) == n
  {
    assert Appended(f, log) == f(log);
  }

  lemma UseAppendsSomeTools(f: seq<Message> -> Option<seq<Message>>, log: seq<Message>)
    requires AppendsSomeTools(f) && |log| > 0
    ensures f(log).Some? && CountToolMessages(f(log).value) >= 1
  {
    assert Appended(f, log) == f(log);
  }

  /** Draft and revise append assistant messages only, and every tool round
      appends exactly one tool message. */
  ghost predicate OneToolMessagePerRound(nodes: Nodes)
  {
    AppendsTools(nodes.draft, 0) && AppendsTools(nodes.executeTools, 1) && AppendsTools(nodes.revise, 0)
  }

  /** Draft and revise append assistant messages only, and every tool round
      appends at least one tool message. */
  ghost predicate ProgressPerRound(nodes: Nodes)
  {
    AppendsTools(nodes.draft, 0) && AppendsSomeTools(nodes.executeTools) && AppendsTools(nodes.revise, 0)
  }

  /** One execute_tools/revise cycle from the tool node: both nodes run and
      control follows event_loop on the log they leave. */
  lemma Cycle(log: seq<Message>, visited: seq<Node>, fuel: nat, nodes: Nodes)
    requires fuel >= 2 && nodes.executeTools(log).Some?
    requires nodes.revise(log + nodes.executeTools(log).value).Some?
    ensures var log1 := log + nodes.executeTools(log).value;
      var log2 := log1 + nodes.revise(log1).value;
      Execute(Goto(ExecuteTools), log, visited, fuel, nodes)
        == Execute(EventLoop(log2), log2, visited + Rounds(1), fuel - 2, nodes)
  {
    var log1 := log + nodes.executeTools(log).value;
    ExecuteStep(ExecuteTools, log, visited, fuel, nodes);
    ExecuteStep(Revise, log1, visited + [ExecuteTools], fuel - 1, nodes);
    assert visited + [ExecuteTools] + [Revise] == visited + Rounds(1);
  }

  /** With one step left at the tool node, the run stops at the step limit
      after execute_tools. */
  lemma HalfCycle(log: seq<Message>, visited: seq<Node>, nodes: Nodes)
    requires nodes.executeTools(log).Some?
    ensures Execute(Goto(ExecuteTools), log, visited, 1, nodes).StepLimit?
  {
    ExecuteStep(ExecuteTools, log, visited, 1, nodes);
  }

  /** One more cycle in front of `r` cycles is `r + 1` cycles. */
  lemma RoundsAppend(visited: seq<Node>, r: nat)
    ensures visited + Rounds(1) + Rounds(r) == visited + Rounds(r + 1)
  {
    assert Rounds(1) == [ExecuteTools, Revise];
    assert Rounds(r + 1) == [ExecuteTools, Revise] + Rounds(r);
  }

  /** At END the run is finished, whatever budget is left. */
  lemma ExecuteEnd(log: seq<Message>, visited: seq<Node>, fuel: nat, nodes: Nodes)
    ensures Execute(End, log, visited, fuel, nodes) == Finished(log, visited)
  {
  }

  /** From the tool node, `k` tool messages short of END, exactly `k` more
      cycles run, taking 2 * k steps. */
  lemma {:induction false} ExactRounds(log: seq<Message>, visited: seq<Node>, fuel: nat, nodes: Nodes, k: nat)
    requires OneToolMessagePerRound(nodes)
    requires |log| > 0 && k >= 1 && CountToolMessages(log) + k == MAX_ITERATIONS + 1
    ensures var o := Execute(Goto(ExecuteTools), log, visited, fuel, nodes);
      if fuel >= 2 * k then
        o.Finished? && o.visited == visited + Rounds(k) && CountToolMessages(o.log) == MAX_ITERATIONS + 1
      else o.StepLimit?
    decreases k
  {
    if fuel > 0 {
      UseAppendsTools(nodes.executeTools, 1, log);
      var log1 := log + nodes.executeTools(log).value;
      if fuel == 1 {
        HalfCycle(log, visited, nodes);
      } else {
        CountAppend(log, nodes.executeTools(log).value);
        UseAppendsTools(nodes.revise, 0, log1);
        var log2 := log1 + nodes.revise(log1).value;
        CountAppend(log1, nodes.revise(log1).value);
        assert CountToolMessages(log2) == CountToolMessages(log) + 1;
        Cycle(log, visited, fuel, nodes);
        var v2 := visited + Rounds(1);
        if k == 1 {
          assert EventLoop(log2) == End;
          ExecuteEnd(log2, v2, fuel - 2, nodes);
        } else {
          assert EventLoop(log2) == Goto(ExecuteTools);
          ExactRounds(log2, v2, fuel - 2, nodes, k - 1);
          RoundsAppend(visited, k - 1);
        }
      }
    }
  }

  /** With one tool message per round, the run is `draft` followed by
      MAX_ITERATIONS + 1 = 3 execute_tools/revise cycles, then END, leaving 3
      tool messages in the log: event_loop compares with a strict `>`
      after the round's message is appended. The run needs 7 steps; with
      fewer it stops at the step limit. */
  lemma OneToolMessagePerRoundTrace(question: string, nodes: Nodes, fuel: nat)
    requires OneToolMessagePerRound(nodes)
    ensures var o := Execute(Goto(ENTRY_POINT), [Human(question)], [], fuel, nodes);
      (o.Finished? <==> fuel >= 2 * (MAX_ITERATIONS + 1) + 1) &&
      (o.Finished? ==> o.visited == [Draft] + Rounds(MAX_ITERATIONS + 1)
                       && CountToolMessages(o.log) == MAX_ITERATIONS + 1) &&
      (!o.Finished? ==> o.StepLimit?)
  {
    var log0 := [Human(question)];
    if fuel > 0 {
      UseAppendsTools(nodes.draft, 0, log0);
      var out := nodes.draft(log0).value;
      CountAppend(log0, out);
      assert CountToolMessages(log0) == 0 by {
        assert log0[..0] == [];
      }
      ExecuteStep(Draft, log0, [], fuel, nodes);
      assert [] + [Draft] == [Draft];
      ExactRounds(log0 + out, [Draft], fuel - 1, nodes, MAX_ITERATIONS + 1);
    }
  }

  /** From the tool node with at most MAX_ITERATIONS tool messages, if every
      round appends at least one, END is reached after between 1 and
      MAX_ITERATIONS + 1 - count cycles, within 2 steps per possible
      cycle. */
  lemma {:induction false} BoundedRounds(log: seq<Message>, visited: seq<Node>, fuel: nat, nodes: Nodes)
    requires ProgressPerRound(nodes)
    requires |log| > 0 && CountToolMessages(log) <= MAX_ITERATIONS
    requires fuel >= 2 * (MAX_ITERATIONS + 1 - CountToolMessages(log))
    ensures var o := Execute(Goto(ExecuteTools), log, visited, fuel, nodes);
      o.Finished? && CountToolMessages(o.log) > MAX_ITERATIONS &&
      exists r :: 1 <= r <= MAX_ITERATIONS + 1 - CountToolMessages(log) && o.visited == visited + Rounds(r)
    decreases MAX_ITERATIONS + 1 - CountToolMessages(log)
  {
    UseAppendsSomeTools(nodes.executeTools, log);
    var log1 := log + nodes.executeTools(log).value;
    CountAppend(log, nodes.executeTools(log).value);
    UseAppendsTools(nodes.revise, 0, log1);
    var log2 := log1 + nodes.revise(log1).value;
    CountAppend(log1, nodes.revise(log1).value);
    assert CountToolMessages(log2) > CountToolMessages(log);
    Cycle(log, visited, fuel, nodes);
    var v2 := visited + Rounds(1);
    if CountToolMessages(log2) <= MAX_ITERATIONS {
      assert EventLoop(log2) == Goto(ExecuteTools);
      BoundedRounds(log2, v2, fuel - 2, nodes);
      var o := Execute(Goto(ExecuteTools), log2, v2, fuel - 2, nodes);
      var r: nat :| 1 <= r <= MAX_ITERATIONS + 1 - CountToolMessages(log2) && o.visited == v2 + Rounds(r);
      RoundsAppend(visited, r);
      assert 1 <= r + 1 <= MAX_ITERATIONS + 1 - CountToolMessages(log) && o.visited == visited + Rounds(r + 1);
    } else {
      assert EventLoop(log2) == End;
      ExecuteEnd(log2, v2, fuel - 2, nodes);
      assert 1 <= MAX_ITERATIONS + 1 - CountToolMessages(log);
    }
  }

  /** If every tool round appends at least one tool message, the run ends,
      after at most MAX_ITERATIONS + 1 execute_tools/revise cycles. */
  lemma ProgressTerminates(question: string, nodes: Nodes, fuel: nat)
    requires ProgressPerRound(nodes)
    requires fuel >= 2 * (MAX_ITERATIONS + 1) + 1
    ensures var o := Execute(Goto(ENTRY_POINT), [Human(question)], [], fuel, nodes);
      o.Finished? &&
      exists r :: 1 <= r <= MAX_ITERATIONS + 1 && o.visited == [Draft] + Rounds(r)
  {
    var log0 := [Human(question)];
    UseAppendsTools(nodes.draft, 0, log0);
    var out := nodes.draft(log0).value;
    CountAppend(log0, out);
    assert CountToolMessages(log0) == 0 by {
      assert log0[..0] == [];
    }
    ExecuteStep(Draft, log0, [], fuel, nodes);
    assert [] + [Draft] == [Draft];
    BoundedRounds(log0 + out, [Draft], fuel - 1, nodes);
  }

  /** From any node, a run whose log holds no tool message and whose nodes
      add none never reaches END. */
  lemma {:induction false} NoProgressFrom(node: Node, log: seq<Message>, visited: seq<Node>, fuel: nat, nodes: Nodes)
    requires AppendsTools(nodes.draft, 0) && AppendsTools(nodes.executeTools, 0) && AppendsTools(nodes.revise, 0)
    requires |log| > 0 && CountToolMessages(log) == 0
    ensures Execute(Goto(node), log, visited, fuel, nodes).StepLimit?
    decreases fuel
  {
    if fuel > 0 {
      UseAppendsTools(Action(nodes, node), 0, log);
      var out := Action(nodes, node)(log).value;
      CountAppend(log, out);
      ExecuteStep(node, log, visited, fuel, nodes);
      NoProgressFrom(Edge(node, log + out).node, log + out, visited + [node], fuel - 1, nodes);
    }
  }

  /** A tool round that appends no tool message (every call had zero
      queries) leaves the count unchanged: when that happens every round,
      the run never reaches END and only the step limit stops it. */
  lemma NoProgressNeverEnds(question: string, nodes: Nodes, fuel: nat)
    requires AppendsTools(nodes.draft, 0) && AppendsTools(nodes.executeTools, 0) && AppendsTools(nodes.revise, 0)
    ensures Execute(Goto(ENTRY_POINT), [Human(question)], [], fuel, nodes).StepLimit?
  {
    assert [Human(question)][..0] == [];
    NoProgressFrom(ENTRY_POINT, [Human(question)], [], fuel, nodes);
  }

  // ---------------------------------------------------------------------
  // The run with the real tool node
  // ---------------------------------------------------------------------

  /** The tool node on one log whose last message parses to a single call
      with at least one query, when the batch returns an output: it appends
      exactly one tool message. */
  lemma ToolNodeStep(parse: Message -> Option<seq<ParsedCall>>,
                     batch: seq<ToolExecutor.Invocation> -> seq<SearchOutput>,
                     log: seq<Message>, call: ParsedCall)
    requires |log| > 0 && parse(log[|log| - 1]) == Some([call])
    requires call.searchQueries.Some? && |call.searchQueries.value| > 0
    requires |batch(ToolExecutor.FlatInvocations([call]))| > 0
    ensures Appended(ToolNode(parse, batch), log).Some?
            && CountToolMessages(Appended(ToolNode(parse, batch), log).value) == 1
  {
    ToolExecutor.SingleCallOneMessage(log, parse, batch, call);
    var msgs := ToolExecutor.ExecuteToolsSpec(log, parse, batch).value;
    assert Appended(ToolNode(parse, batch), log) == Some(msgs);
    CountAllTools(msgs);
  }

  /** If every assistant message parses to one call with at least one query
      and the batch always returns an output, the tool node appends exactly
      one tool message per round. */
  lemma ToolNodeOneMessage(parse: Message -> Option<seq<ParsedCall>>,
                           batch: seq<ToolExecutor.Invocation> -> seq<SearchOutput>)
    requires forall m :: parse(m).Some? && |parse(m).value| == 1 &&
                         parse(m).value[0].searchQueries.Some? && |parse(m).value[0].searchQueries.value| > 0
    requires forall invs :: |invs| > 0 ==> |batch(invs)| > 0
    ensures AppendsTools(ToolNode(parse, batch), 1)
  {
    forall log | |log| > 0
      ensures Appended(ToolNode(parse, batch), log).Some?
              && CountToolMessages(Appended(ToolNode(parse, batch), log).value) == 1
    {
      var calls := parse(log[|log| - 1]).value;
      var call := calls[0];
      assert calls == [call];
      ToolExecutor.FlattenLengths([call]);
      assert [call][..0] == [];
      ToolNodeStep(parse, batch, log, call);
    }
  }

  /** The nodes of main.py: the first responder and the reviser each append
      the one assistant message their chain returns; the tool node is
      execute_tools. */
  function ReflexionNodes(respond: seq<Message> -> Message,
                          revise: seq<Message> -> Message,
                          parse: Message -> Option<seq<ParsedCall>>,
                          batch: seq<ToolExecutor.Invocation> -> seq<SearchOutput>): Nodes
  {
    Nodes(log => Some([respond(log)]), ToolNode(parse, batch), log => Some([revise(log)]))
  }

  /** A node that appends one assistant message appends no tool message. */
  lemma OneAssistantMessage(f: seq<Message> -> Message)
    requires forall log :: f(log).AI?
    ensures AppendsTools(log => Some([f(log)]), 0)
  {
    forall log | |log| > 0
      ensures Appended(log => Some([f(log)]), log).Some?
              && CountToolMessages(Appended(log => Some([f(log)]), log).value) == 0
    {
      assert Appended(log => Some([f(log)]), log).value == [f(log)];
      assert [f(log)][..0] == [];
    }
  }

  /** The run of main.py with its own tool node: when the first responder
      and the reviser each append one assistant message, every assistant
      message parses to one call with at least one query and each batch
      returns outputs, the run with a step limit of at least 7 is `draft`
      and then three execute_tools/revise cycles, ending with three tool
      messages in the log. */
  lemma ReflexionRunTrace(question: string,
                          respond: seq<Message> -> Message,
                          revise: seq<Message> -> Message,
                          parse: Message -> Option<seq<ParsedCall>>,
                          batch: seq<ToolExecutor.Invocation> -> seq<SearchOutput>,
                          fuel: nat)
    requires forall log :: respond(log).AI? && revise(log).AI?
    requires forall m :: parse(m).Some? && |parse(m).value| == 1 &&
                         parse(m).value[0].searchQueries.Some? && |parse(m).value[0].searchQueries.value| > 0
    requires forall invs :: |invs| > 0 ==> |batch(invs)| > 0
    requires fuel >= 2 * (MAX_ITERATIONS + 1) + 1
    ensures var o := Execute(Goto(ENTRY_POINT), [Human(question)], [], fuel, ReflexionNodes(respond, revise, parse, batch));
      o.Finished? && o.visited == [Draft, ExecuteTools, Revise, ExecuteTools, Revise, ExecuteTools, Revise] &&
      CountToolMessages(o.log) == 3
  {
    var nodes := ReflexionNodes(respond, revise, parse, batch);
    ToolNodeOneMessage(parse, batch);
    OneAssistantMessage(respond);
    OneAssistantMessage(revise);
    assert OneToolMessagePerRound(nodes);
    OneToolMessagePerRoundTrace(question, nodes, fuel);
    assert Rounds(3) == [ExecuteTools, Revise] + Rounds(2);
    assert [Draft] + Rounds(3) == [Draft, ExecuteTools, Revise, ExecuteTools, Revise, ExecuteTools, Revise];
  }
}
