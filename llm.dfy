/**
 * The stream-assembly fold of `OllamaHandler.stream_response` (app/llm.py).
 *
 * The HTTP body arrives as a sequence of text chunks, each one JSON object of the
 * chat-style wire variant. The fold keeps a display buffer (`md_text`) and a mode
 * flag (`is_thinking`), appends each chunk's text to the buffer, inserting a banner
 * when reasoning text starts and a section break when it ends, and yields the whole
 * buffer after every chunk. A chunk carrying `error`, a chunk without `message` and
 * a chunk that is not JSON end the stream with an exception.
 */
module Llm {
  import opened Wrappers

  /** The `message` object of one chunk: its optional `thinking` and `content` keys. */
  datatype Message = Message(thinking: Option<string>, content: Option<string>)

  /** A decoded chunk, reduced to the two top-level keys the fold looks at. */
  datatype Record = Record(error: Option<string>, message: Option<Message>)

  /** One chunk of the response body: its raw text and its JSON decoding (None when it is not JSON). */
  datatype Chunk = Chunk(raw: string, parsed: Option<Record>)

  /** The exceptions that end a stream: `OllamaError` and the JSON decoder's own error. */
  datatype StreamError =
    | OllamaError(reason: string)
    | DecodeError(raw: string)

  const ThinkingBanner: string := "THINKING 🤔: "
  const SectionBreak: string := "\n\n---\n"
  /** What a non-thinking message without `content` contributes. */
  const Placeholder: string := "\n"
  const NoMessagePrefix: string := "No message in response: "

  /** The fold's local state: `md_text` and `is_thinking`. */
  datatype State = State(text: string, thinking: bool)

  const Initial: State := State("", false)

  /** What the generator produced: the snapshots it yielded, then the exception it raised, if any. */
  datatype Outcome = Outcome(snapshots: seq<string>, error: Option<StreamError>)

  /** A chunk the fold accepts: it decodes, carries no `error` and has a `message`. */
  predicate WellFormed(c: Chunk) {
    c.parsed.Some? && c.parsed.value.error.None? && c.parsed.value.message.Some?
  }

  /**
   * The checks made on each chunk, in the source's order: decoding, then `error`,
   * then `message`.
   */
  function Classify(c: Chunk): (r: Result<Message, StreamError>)
    ensures r.Success? <==> WellFormed(c)
    ensures r.Success? ==> r.value == c.parsed.value.message.value
  {
    match c.parsed
    case None => Failure(DecodeError(c.raw))
    case Some(data) =>
      if data.error.Some? then Failure(OllamaError(data.error.value))
      else if data.message.None? then Failure(OllamaError(NoMessagePrefix + c.raw))
      else Success(data.message.value)
  }

  /** The marker written when the mode changes from `wasThinking` to `nowThinking`. */
  function Marker(wasThinking: bool, nowThinking: bool): string {
    if nowThinking && !wasThinking then ThinkingBanner
    else if wasThinking && !nowThinking then SectionBreak
    else ""
  }

  /** The text a message contributes: its thinking text when it has one, else its content, else a newline. */
  function Payload(m: Message): string {
    if m.thinking.Some? then m.thinking.value else m.content.GetOr(Placeholder)
  }

  /** One iteration of the loop body on an accepted message. */
  function Step(st: State, m: Message): State {
    if m.thinking.Some? then
      var text := if st.thinking then st.text else st.text + ThinkingBanner;
      State(text + m.thinking.value, true)
    else
      var text := if st.thinking then st.text + SectionBreak else st.text;
      State(text + m.content.GetOr(Placeholder), false)
  }

  /**
   * The mode after a message is "thinking" exactly when the message has a
   * `thinking` key, and the buffer grows by the marker for that mode change
   * followed by the message's payload: a banner only when thinking starts, a
   * section break only when it stops, and the thinking text wins over `content`.
   */
  lemma StepAppends(st: State, m: Message)
    ensures Step(st, m).thinking == m.thinking.Some?
    ensures Step(st, m).text == st.text + Marker(st.thinking, m.thinking.Some?) + Payload(m)
  {
  }

  /** The generator run from state `st` over the chunks `cs`. */
  function Run(st: State, cs: seq<Chunk>): Outcome
    decreases |cs|
  {
    if cs == [] then Outcome([], None)
    else
      match Classify(cs[0])
      case Failure(e) => Outcome([], Some(e))
      case Success(m) =>
        var next := Step(st, m);
        var rest := Run(next, cs[1..]);
        Outcome([next.text] + rest.snapshots, rest.error)
  }

  /** The messages of the longest prefix of `cs` whose chunks are all accepted. */
  function Accepted(cs: seq<Chunk>): (ms: seq<Message>)
    ensures |ms| <= |cs|
    ensures forall k :: 0 <= k < |ms| ==> WellFormed(cs[k]) && ms[k] == cs[k].parsed.value.message.value
    ensures |ms| < |cs| ==> !WellFormed(cs[|ms|])
  {
    if cs == [] || !WellFormed(cs[0]) then []
    else [cs[0].parsed.value.message.value] + Accepted(cs[1..])
  }

  /** The state after folding the messages `ms`, in order, into `st`. */
  function Fold(st: State, ms: seq<Message>): State
    decreases |ms|
  {
    if ms == [] then st else Fold(Step(st, ms[0]), ms[1..])
  }

  /** Folding one more message is one more step. */
  lemma {:induction false} FoldSnoc(st: State, ms: seq<Message>, m: Message)
    ensures Fold(st, ms + [m]) == Step(Fold(st, ms), m)
    decreases |ms|
  {
    if ms == [] {
      assert [m][1..] == [];
    } else {
      assert (ms + [m])[1..] == ms[1..] + [m];
      FoldSnoc(Step(st, ms[0]), ms[1..], m);
    }
  }

  /** After folding, the mode says whether the last message had a `thinking` key. */
  lemma {:induction false} FoldMode(st: State, ms: seq<Message>)
    ensures Fold(st, ms).thinking == if ms == [] then st.thinking else ms[|ms| - 1].thinking.Some?
    decreases |ms|
  {
    if ms != [] {
      FoldMode(Step(st, ms[0]), ms[1..]);
      if |ms| > 1 {
        assert ms[1..][|ms| - 2] == ms[|ms| - 1];
      }
    }
  }

  /** The buffer only grows: each snapshot extends the starting text and every earlier snapshot. */
  lemma {:induction false} SnapshotsAppendOnly(st: State, cs: seq<Chunk>)
    ensures forall i :: 0 <= i < |Run(st, cs).snapshots| ==> st.text <= Run(st, cs).snapshots[i]
    ensures forall i, j :: 0 <= i <= j < |Run(st, cs).snapshots| ==>
      Run(st, cs).snapshots[i] <= Run(st, cs).snapshots[j]
    decreases |cs|
  {
    if cs != [] && Classify(cs[0]).Success? {
      var next := Step(st, Classify(cs[0]).value);
      SnapshotsAppendOnly(next, cs[1..]);
      var s := Run(st, cs).snapshots;
      var rest := Run(next, cs[1..]).snapshots;
      assert s == [next.text] + rest;
      assert st.text <= next.text;
      forall i | 0 <= i < |s| ensures next.text <= s[i] {
        if i > 0 { assert s[i] == rest[i - 1]; }
      }
    }
  }

  /**
   * One snapshot per accepted chunk, in arrival order: snapshot k is the buffer
   * after folding the first k + 1 messages.
   */
  lemma {:induction false} SnapshotsAreFolds(st: State, cs: seq<Chunk>)
    ensures |Run(st, cs).snapshots| == |Accepted(cs)|
    ensures forall k :: 0 <= k < |Accepted(cs)| ==>
      Run(st, cs).snapshots[k] == Fold(st, Accepted(cs)[..k + 1]).text
    decreases |cs|
  {
    if cs != [] && WellFormed(cs[0]) {
      var m := cs[0].parsed.value.message.value;
      var next := Step(st, m);
      SnapshotsAreFolds(next, cs[1..]);
      var ms := Accepted(cs);
      var rest := Accepted(cs[1..]);
      assert ms == [m] + rest;
      forall k | 0 <= k < |ms| ensures Run(st, cs).snapshots[k] == Fold(st, ms[..k + 1]).text {
        assert ms[..k + 1][1..] == rest[..k];
        assert ms[..k + 1][0] == m;
      }
    }
  }

  /** The stream ends with an exception exactly when some chunk is not accepted. */
  lemma {:induction false} RunCompletes(st: State, cs: seq<Chunk>)
    ensures Run(st, cs).error.None? <==> forall k :: 0 <= k < |cs| ==> WellFormed(cs[k])
    decreases |cs|
  {
    if cs != [] {
      if WellFormed(cs[0]) {
        RunCompletes(Step(st, cs[0].parsed.value.message.value), cs[1..]);
        assert forall k :: 1 <= k < |cs| ==> cs[k] == cs[1..][k - 1];
      }
    }
  }

  /**
   * The first rejected chunk ends the stream: nothing is yielded for it or for any
   * later chunk, and the exception is decided by `error` before `message`.
   */
  lemma {:induction false} RunAbortsAtFirstRejected(st: State, cs: seq<Chunk>, k: nat)
    requires k < |cs|
    requires forall j :: 0 <= j < k ==> WellFormed(cs[j])
    requires !WellFormed(cs[k])
    ensures |Run(st, cs).snapshots| == k
    ensures cs[k].parsed.None? ==> Run(st, cs).error == Some(DecodeError(cs[k].raw))
    ensures cs[k].parsed.Some? && cs[k].parsed.value.error.Some? ==>
      Run(st, cs).error == Some(OllamaError(cs[k].parsed.value.error.value))
    ensures cs[k].parsed.Some? && cs[k].parsed.value.error.None? ==>
      Run(st, cs).error == Some(OllamaError(NoMessagePrefix + cs[k].raw))
    decreases k
  {
    if k > 0 {
      assert forall j :: 0 <= j < k - 1 ==> cs[1..][j] == cs[j + 1];
      RunAbortsAtFirstRejected(Step(st, cs[0].parsed.value.message.value), cs[1..], k - 1);
    }
  }

  /**
   * Consecutive snapshots differ by exactly the marker for the mode change between
   * the two messages and the later message's payload: one banner when thinking
   * starts, one section break when it stops, nothing extra otherwise.
   */
  lemma SnapshotDelta(st: State, cs: seq<Chunk>, k: nat)
    requires k < |Run(st, cs).snapshots|
    ensures |Run(st, cs).snapshots| == |Accepted(cs)|
    ensures Run(st, cs).snapshots[k] ==
      (if k == 0 then st.text else Run(st, cs).snapshots[k - 1])
      + Marker(if k == 0 then st.thinking else Accepted(cs)[k - 1].thinking.Some?,
               Accepted(cs)[k].thinking.Some?)
      + Payload(Accepted(cs)[k])
  {
    SnapshotsAreFolds(st, cs);
    var ms := Accepted(cs);
    var prev := Fold(st, ms[..k]);
    assert Fold(st, ms[..k + 1]) == Step(prev, ms[k]) by {
      assert ms[..k + 1] == ms[..k] + [ms[k]];
      FoldSnoc(st, ms[..k], ms[k]);
    }
    assert prev.thinking == if k == 0 then st.thinking else ms[k - 1].thinking.Some? by {
      FoldMode(st, ms[..k]);
      if k > 0 {
        assert ms[..k][k - 1] == ms[k - 1];
      }
    }
    assert prev.text == if k == 0 then st.text else Run(st, cs).snapshots[k - 1] by {
      if k > 0 {
        assert ms[..k] == ms[..k - 1 + 1];
      }
    }
    StepAppends(prev, ms[k]);
  }

  /**
   * The loop of `stream_response` over an already-received chunk sequence. It
   * returns the snapshots it yielded and the exception that ended it, if any; both
   * are what `Run` describes from the empty buffer.
   */
  method StreamResponse(chunks: seq<Chunk>) returns (yielded: seq<string>, err: Option<StreamError>)
    ensures Outcome(yielded, err) == Run(Initial, chunks)
  {
    var mdText := "";
    var isThinking := false;
    yielded, err := [], None;
    var i := 0;
    while i < |chunks|
      invariant 0 <= i <= |chunks|
      invariant Run(Initial, chunks) ==
        Outcome(yielded + Run(State(mdText, isThinking), chunks[i..]).snapshots,
                Run(State(mdText, isThinking), chunks[i..]).error)
    {
      var chunk := chunks[i];
      ghost var before := State(mdText, isThinking);
      assert chunks[i..][0] == chunk;
      if chunk.parsed.None? {
        err := Some(DecodeError(chunk.raw));
        return;
      }
      var data := chunk.parsed.value;
      if data.error.Some? {
        err := Some(OllamaError(data.error.value));
        return;
      }
      if data.message.None? {
        err := Some(OllamaError(NoMessagePrefix + chunk.raw));
        return;
      }
      var message := data.message.value;
      if message.thinking.Some? {
        if !isThinking {
          mdText := mdText + ThinkingBanner;
          isThinking := true;
        }
        mdText := mdText + message.thinking.value;
      } else {
        if isThinking {
          mdText := mdText + SectionBreak;
          isThinking := false;
        }
        mdText := mdText + message.content.GetOr(Placeholder);
      }
      ghost var rest := Run(State(mdText, isThinking), chunks[i + 1..]);
      assert Run(before, chunks[i..]) == Outcome([mdText] + rest.snapshots, rest.error) by {
        assert chunks[i..][1..] == chunks[i + 1..];
      }
      assert yielded + ([mdText] + rest.snapshots) == (yielded + [mdText]) + rest.snapshots;
      yielded := yielded + [mdText];
      i := i + 1;
    }
  }

  /** A reasoning chunk then an answer chunk: banner, reasoning, section break, answer. */
  lemma ThinkingThenAnswer()
    ensures Run(Initial, [Chunk("{\"message\":{\"thinking\":\"A\"}}", Some(Record(None, Some(Message(Some("A"), None))))),
                          Chunk("{\"message\":{\"content\":\"B\"}}", Some(Record(None, Some(Message(None, Some("B"))))))])
      == Outcome(["THINKING 🤔: A", "THINKING 🤔: A\n\n---\nB"], None)
  {
    var c0 := Chunk("{\"message\":{\"thinking\":\"A\"}}", Some(Record(None, Some(Message(Some("A"), None)))));
    var c1 := Chunk("{\"message\":{\"content\":\"B\"}}", Some(Record(None, Some(Message(None, Some("B"))))));
    assert [c0, c1][1..] == [c1];
    assert [c1][1..] == [];
    var s1 := Step(Initial, Message(Some("A"), None));
    assert s1.text == "THINKING 🤔: A";
    var s2 := Step(s1, Message(None, Some("B")));
    assert s2.text == "THINKING 🤔: A\n\n---\nB";
    assert Run(s2, []) == Outcome([], None);
    assert Run(s1, [c1]) == Outcome([s2.text], None);
  }

  /** Two answer chunks concatenate with no marker. */
  lemma AnswerOnly()
    ensures Run(Initial, [Chunk("{\"message\":{\"content\":\"he\"}}", Some(Record(None, Some(Message(None, Some("he")))))),
                          Chunk("{\"message\":{\"content\":\"llo\"}}", Some(Record(None, Some(Message(None, Some("llo"))))))])
      == Outcome(["he", "hello"], None)
  {
    var c0 := Chunk("{\"message\":{\"content\":\"he\"}}", Some(Record(None, Some(Message(None, Some("he"))))));
    var c1 := Chunk("{\"message\":{\"content\":\"llo\"}}", Some(Record(None, Some(Message(None, Some("llo"))))));
    assert [c0, c1][1..] == [c1];
    assert [c1][1..] == [];
    var s1 := Step(Initial, Message(None, Some("he")));
    assert s1.text == "he";
    var s2 := Step(s1, Message(None, Some("llo")));
    assert s2.text == "hello";
    assert Run(s2, []) == Outcome([], None);
    assert Run(s1, [c1]) == Outcome([s2.text], None);
  }

  /** An `error` chunk wins over its own `message` and hides every later chunk. */
  lemma ErrorAfterAnswer()
    ensures Run(Initial, [Chunk("{\"message\":{\"content\":\"he\"}}", Some(Record(None, Some(Message(None, Some("he")))))),
                          Chunk("{\"error\":\"boom\",\"message\":{\"content\":\"x\"}}", Some(Record(Some("boom"), Some(Message(None, Some("x")))))),
                          Chunk("{\"message\":{\"content\":\"llo\"}}", Some(Record(None, Some(Message(None, Some("llo"))))))])
      == Outcome(["he"], Some(OllamaError("boom")))
  {
    var c0 := Chunk("{\"message\":{\"content\":\"he\"}}", Some(Record(None, Some(Message(None, Some("he"))))));
    var c1 := Chunk("{\"error\":\"boom\",\"message\":{\"content\":\"x\"}}", Some(Record(Some("boom"), Some(Message(None, Some("x"))))));
    var c2 := Chunk("{\"message\":{\"content\":\"llo\"}}", Some(Record(None, Some(Message(None, Some("llo"))))));
    assert [c0, c1, c2][1..] == [c1, c2];
    var s1 := Step(Initial, Message(None, Some("he")));
    assert s1.text == "he";
    assert Run(s1, [c1, c2]) == Outcome([], Some(OllamaError("boom")));
  }
}
