/** oci_genai_magics.py: the notebook commands and the conversation history
    they keep. The language model itself is not modelled: a command receives
    the chunks the model streams back as a sequence of strings, and records
    the message list it sent in `lastRequest`. */
module Magics {
  import opened Text
  import opened Context

  /** The three message kinds of the chat client. */
  datatype Message =
    | SystemMessage(content: string)
    | HumanMessage(content: string)
    | AIMessage(content: string)

  /** The system prompts of prompts.py; only their identity matters here. */
  datatype Prompts = Prompts(ask: string, askCode: string, askData: string)

  /** The settings show_model_config reports, from config.py. */
  const ModelId: string := "meta.llama-3.3-70b-instruct"
  const ServiceEndpoint: string := "https://inference.generativeai.eu-frankfurt-1.oci.oraclecloud.com"
  const Temperature: string := "0.1"   // the float 0.1 as Python prints it
  const MaxTokens: nat := 1024

  /** A history made of whole turns: a question, then its answer, repeated. */
  predicate Alternating(h: seq<Message>)
    decreases |h|
  {
    if h == [] then true
    else |h| >= 2 && h[0].HumanMessage? && h[1].AIMessage? && Alternating(h[2..])
  }

  /** Appending one turn keeps the history made of whole turns. */
  lemma {:induction false} AlternatingAppend(h: seq<Message>, question: string, answer: string)
    requires Alternating(h)
    ensures Alternating(h + [HumanMessage(question), AIMessage(answer)])
    decreases |h|
  {
    var turn := [HumanMessage(question), AIMessage(answer)];
    if h == [] {
      assert h + turn == turn && turn[2..] == [];
    } else {
      AlternatingAppend(h[2..], question, answer);
      assert (h + turn)[2..] == h[2..] + turn;
    }
  }

  /** Whole turns, position by position: even length, questions at even
      positions and answers at odd ones. */
  lemma {:induction false} AlternatingPositions(h: seq<Message>)
    ensures Alternating(h) <==>
      && |h| % 2 == 0
      && forall i :: 0 <= i < |h| ==> if i % 2 == 0 then h[i].HumanMessage? else h[i].AIMessage?
    decreases |h|
  {
    if |h| >= 2 {
      AlternatingPositions(h[2..]);
      assert forall i :: 2 <= i < |h| ==> h[i] == h[2..][i - 2] && (i % 2 == (i - 2) % 2);
    }
  }

  /** The assistant of one notebook session. */
  class GenaiMagics {
    const prompts: Prompts
    /** The completed turns, oldest first. */
    var history: seq<Message>
    /** The messages the latest model call was given. */
    var lastRequest: seq<Message>

    ghost predicate Valid()
      reads this
    {
      Alternating(history)
    }

    /** `__init__`: a session starts with no history. */
    constructor(prompts: Prompts)
      ensures this.prompts == prompts
      ensures history == [] && lastRequest == []
      ensures Valid()
    {
      this.prompts := prompts;
      history := [];
      lastRequest := [];
    }

    /** print_stream: the chunks' contents concatenated in arrival order
        (printing them is not modelled). */
    method PrintStream(chunks: seq<string>) returns (allChunks: string)
      ensures allChunks == Concat(chunks)
      ensures |allChunks| == TotalLength(chunks)
      ensures chunks == [] ==> allChunks == ""
    {
      allChunks := "";
      for i := 0 to |chunks|
        invariant allChunks == Concat(chunks[..i])
      {
        assert chunks[..i + 1] == chunks[..i] + [chunks[i]];
        ConcatAppend(chunks[..i], chunks[i]);
        allChunks := allChunks + chunks[i];
      }
      assert chunks[..|chunks|] == chunks;
      ConcatLength(chunks);
    }

    /** clear_history: whatever it held, the history is empty afterwards. */
    method ClearHistory()
      modifies this
      ensures history == []
      ensures lastRequest == old(lastRequest)
      ensures Valid()
    {
      history := [];
    }

    /** Saving a question and its answer in the history, as ask and ask_code
        do after the reply has streamed. */
    method RecordTurn(question: string, answer: string)
      requires Valid()
      modifies this`history
      ensures history == old(history) + [HumanMessage(question), AIMessage(answer)]
      ensures Valid()
    {
      AlternatingAppend(history, question, answer);
      history := history + [HumanMessage(question)];
      history := history + [AIMessage(answer)];
    }

    /** ask: sends the system prompt, the whole history and the question, then
        records the question and the streamed answer as one more turn. */
    method Ask(line: string, stream: seq<string>)
      requires Valid()
      modifies this
      ensures lastRequest == [SystemMessage(prompts.ask)] + old(history) + [HumanMessage(line)]
      ensures |lastRequest| == |old(history)| + 2
      ensures history == old(history) + [HumanMessage(line), AIMessage(Concat(stream))]
      ensures Valid()
    {
      lastRequest := [SystemMessage(prompts.ask)] + history + [HumanMessage(line)];
      var allText := PrintStream(stream);
      RecordTurn(line, allText);
    }

    /** ask_code: like ask, but the question sent is prefixed with the context
        of the variables it names; the history records the bare question. */
    method AskCode(namespace: Namespace, line: string, stream: seq<string>) returns (ghost context: string)
      requires Valid()
      modifies this
      ensures IsContext(namespace, line, context)
      ensures lastRequest
           == [SystemMessage(prompts.askCode)] + old(history) + [HumanMessage("Context: " + context + "\n\n" + line)]
      ensures history == old(history) + [HumanMessage(line), AIMessage(Concat(stream))]
      ensures Valid()
    {
      var ctx := GetContext(namespace, line);
      context := ctx;
      lastRequest := [SystemMessage(prompts.askCode)] + history + [HumanMessage("Context: " + ctx + "\n\n" + line)];
      var allText := PrintStream(stream);
      RecordTurn(line, allText);
    }

    /** ask_data: a one-shot question with context; the history is neither
        sent nor changed. */
    method AskData(namespace: Namespace, line: string, stream: seq<string>) returns (ghost context: string)
      modifies this`lastRequest
      ensures IsContext(namespace, line, context)
      ensures lastRequest == [SystemMessage(prompts.askData), HumanMessage("Context: " + context + "\n\n" + line)]
      ensures history == old(history)
    {
      var ctx := GetContext(namespace, line);
      context := ctx;
      lastRequest := [SystemMessage(prompts.askData), HumanMessage("Context: " + ctx + "\n\n" + line)];
      var _ := PrintStream(stream);
    }

    /** show_variables: the entries it lists are those filter_variables keeps;
        no session state is read or changed. */
    method ShowVariables(namespace: Namespace) returns (shown: Namespace)
      requires UniqueNames(namespace)
      ensures forall e :: e in shown <==> e in namespace && IsUserVariable(e)
      ensures shown == UserVariables(namespace)
    {
      shown := FilterVariables(namespace);
    }

    /** show_model_config: the lines it prints; no session state is read or changed. */
    method ShowModelConfig() returns (lines: seq<string>)
      ensures |lines| == 5 && lines[0] == "Model configuration defined in config.py:"
      ensures lines[1..] == [
        "* Model:  " + ModelId,
        "* Endpoint:  " + ServiceEndpoint,
        "* Temperature:  " + Temperature,
        "* Max_tokens:  " + NatToString(MaxTokens)]
    {
      lines := [
        "Model configuration defined in config.py:",
        "* Model:  " + ModelId,
        "* Endpoint:  " + ServiceEndpoint,
        "* Temperature:  " + Temperature,
        "* Max_tokens:  " + NatToString(MaxTokens)];
    }
  }

  /** One example session: ask, ask_data, ask_code, then clear_history. */
  method SessionExample(namespace: Namespace, p: Prompts)
  {
    var m := new GenaiMagics(p);
    m.Ask("hello", ["Hi", " there"]);
    assert m.history == [HumanMessage("hello"), AIMessage(Concat(["Hi", " there"]))];
    var _ := m.AskData(namespace, "describe df", ["ok"]);
    assert |m.history| == 2;
    var _ := m.AskCode(namespace, "plot df", ["```python\nplot()\n```"]);
    assert |m.history| == 4 && m.history[2] == HumanMessage("plot df");
    m.ClearHistory();
    assert m.history == [];
  }
}
