/** The generation client's aggregation (ollama_proxy.py lines 110-131): the backend's
    body is a sequence of lines, each with what JSON decoding made of it; the
    `response` fragments are concatenated in order and the result is stripped. */
module Generation {
  import opened Text

  /** What `json.loads` and the `response` lookup make of one stripped line. */
  datatype Decoded =
    | Malformed                        // `json.JSONDecodeError`: the line is skipped
    | Chunk(response: Option<string>)  // a decoded value with, or without, a string `response`
    | Unreadable(error: string)        // a decoded value on which reading `response` raises

  /** One line of the backend's body, and its decoding. */
  datatype Line = Line(text: string, decoded: Decoded)

  /** What the request to the backend came to: `httpx.post` raised, or a body arrived. */
  datatype BackendOutcome = Unreachable(error: string) | Replied(lines: seq<Line>)

  /** The request payload: the augmented prompt and, when one was given, the model. */
  datatype Payload = Payload(prompt: string, model: Option<string>)

  /** The line loop's outcome: the accumulated text, or the message of the exception
      that left the loop. */
  datatype Collected = Collected(text: string) | Aborted(error: string)

  /** The prefix of every placeholder answer. */
  const FailurePrefix: string := "[LLM Failure] "

  /** The message of the error raised when the aggregate is empty (ollama_proxy.py line 126). */
  const EmptyResponseError: string := "Empty response field"

  function Failure(error: string): string {
    FailurePrefix + error
  }

  /** A line the loop skips: blank after stripping, or not decodable as JSON. */
  predicate Skipped(line: Line) {
    Blank(line.text) || line.decoded.Malformed?
  }

  /** One iteration of the loop, on the text accumulated so far. */
  function Step(acc: string, line: Line): Collected {
    if Blank(line.text) then Collected(acc)
    else match line.decoded
      case Malformed => Collected(acc)
      case Chunk(None) => Collected(acc)
      case Chunk(Some(fragment)) => Collected(acc + fragment)
      case Unreadable(e) => Aborted(e)
  }

  /** The loop over all lines; an exception ends it. */
  function Collect(lines: seq<Line>): Collected
    decreases |lines|
  {
    if lines == [] then Collected("")
    else match Collect(lines[..|lines| - 1])
      case Aborted(e) => Aborted(e)
      case Collected(acc) => Step(acc, lines[|lines| - 1])
  }

  /** The line loop of ollama_proxy.py lines 112-123: append each `response` fragment
      to the text so far, and leave the loop when reading one raises. */
  method CollectResponse(lines: seq<Line>) returns (outcome: Collected)
    ensures outcome == Collect(lines)
  {
    var response := "";
    var i := 0;
    while i < |lines|
      invariant 0 <= i <= |lines|
      invariant Collect(lines[..i]) == Collected(response)
    {
      var line := lines[i];
      assert Collect(lines[..i + 1]) == Step(response, line) by {
        assert lines[..i + 1][..i] == lines[..i];
      }
      BlankIff(line.text);
      if Strip(line.text) != [] {
        match line.decoded {
          case Malformed =>
          case Chunk(None) =>
          case Chunk(Some(fragment)) =>
            response := response + fragment;
          case Unreadable(e) =>
            AbortedPersists(lines, i + 1);
            return Aborted(e);
        }
      }
      i := i + 1;
    }
    assert lines[..i] == lines;
    outcome := Collected(response);
  }

  /** Once the loop has aborted, later lines do not matter. */
  lemma {:induction false} AbortedPersists(lines: seq<Line>, n: nat)
    requires n <= |lines| && Collect(lines[..n]).Aborted?
    ensures Collect(lines) == Collect(lines[..n])
    decreases |lines| - n
  {
    if n == |lines| {
      assert lines[..n] == lines;
    } else {
      assert lines[..n + 1][..n] == lines[..n];
      AbortedPersists(lines, n + 1);
    }
  }

  /** The single response text backing the answer: `Respond` applied to a backend outcome. */
  function FinalResponse(outcome: BackendOutcome): string {
    match outcome
    case Unreachable(e) => Failure(e)
    case Replied(lines) =>
      match Collect(lines)
      case Aborted(e) => Failure(e)
      case Collected(text) =>
        var response := Strip(text);
        if response == [] then Failure(EmptyResponseError) else response
  }

  /** The tail of the `try` around the backend call: aggregate, strip, and fall back to
      a placeholder when nothing is left or an exception was raised. */
  method Respond(outcome: BackendOutcome) returns (response: string)
    ensures response == FinalResponse(outcome)
  {
    match outcome {
      case Unreachable(e) =>
        response := FailurePrefix + e;
      case Replied(lines) =>
        var collected := CollectResponse(lines);
        match collected {
          case Aborted(e) =>
            response := FailurePrefix + e;
          case Collected(text) =>
            response := Strip(text);
            if response == [] {
              response := FailurePrefix + EmptyResponseError;
            }
        }
    }
  }

  /** The `response` fragments of the lines the loop reads, in order. */
  function Fragments(lines: seq<Line>): seq<string>
    decreases |lines|
  {
    if lines == [] then []
    else
      var rest := Fragments(lines[1..]);
      if Skipped(lines[0]) then rest
      else match lines[0].decoded
        case Chunk(Some(fragment)) => [fragment] + rest
        case _ => rest
  }

  /** Concatenation of a sequence of strings. */
  function Concat(parts: seq<string>): string
    decreases |parts|
  {
    if parts == [] then "" else parts[0] + Concat(parts[1..])
  }

  /** A line on which the loop raises. */
  predicate Raises(line: Line) {
    !Skipped(line) && line.decoded.Unreadable?
  }

  lemma {:induction false} ConcatAppend(a: seq<string>, b: seq<string>)
    ensures Concat(a + b) == Concat(a) + Concat(b)
    decreases |a|
  {
    if a == [] {
      assert a + b == b;
    } else {
      assert (a + b)[0] == a[0];
      assert (a + b)[1..] == a[1..] + b;
      ConcatAppend(a[1..], b);
    }
  }

  lemma {:induction false} FragmentsAppend(a: seq<Line>, b: seq<Line>)
    ensures Fragments(a + b) == Fragments(a) + Fragments(b)
    decreases |a|
  {
    if a == [] {
      assert a + b == b;
    } else {
      assert (a + b)[0] == a[0];
      assert (a + b)[1..] == a[1..] + b;
      FragmentsAppend(a[1..], b);
    }
  }

  /** When no line raises, the loop yields exactly the in-order concatenation of the
      `response` fields of the non-blank, decodable lines; other lines are skipped. */
  lemma {:induction false} CollectConcatenates(lines: seq<Line>)
    requires forall i :: 0 <= i < |lines| ==> !Raises(lines[i])
    ensures Collect(lines) == Collected(Concat(Fragments(lines)))
    decreases |lines|
  {
    if lines != [] {
      var init, last := lines[..|lines| - 1], lines[|lines| - 1];
      assert lines == init + [last];
      assert forall i :: 0 <= i < |init| ==> !Raises(init[i]) by {
        forall i | 0 <= i < |init| ensures !Raises(init[i]) {
          assert init[i] == lines[i];
        }
      }
      CollectConcatenates(init);
      FragmentsAppend(init, [last]);
      ConcatAppend(Fragments(init), Fragments([last]));
      StepFragments(Concat(Fragments(init)), last);
    }
  }

  /** When no line raises, the loop runs to the end. */
  lemma NoRaiseCollects(lines: seq<Line>)
    requires forall i :: 0 <= i < |lines| ==> !Raises(lines[i])
    ensures Collect(lines).Collected?
  {
    CollectConcatenates(lines);
  }

  /** One step of the loop on a line that does not raise appends that line's fragments. */
  lemma StepFragments(acc: string, line: Line)
    requires !Raises(line)
    ensures Step(acc, line) == Collected(acc + Concat(Fragments([line])))
  {
    assert [line][1..] == [];
    assert [line][0] == line;
  }

  /** When some line raises, the loop stops at the first such line with its message. */
  lemma {:induction false} CollectAbortsAtFirstRaise(lines: seq<Line>, k: nat)
    requires k < |lines| && Raises(lines[k])
    requires forall i :: 0 <= i < k ==> !Raises(lines[i])
    ensures Collect(lines) == Aborted(lines[k].decoded.error)
  {
    var prefix, upto := lines[..k], lines[..k + 1];
    forall i | 0 <= i < |prefix| ensures !Raises(prefix[i]) {
      assert prefix[i] == lines[i];
    }
    NoRaiseCollects(prefix);
    assert upto[..|upto| - 1] == prefix && upto[|upto| - 1] == lines[k];
    assert Collect(upto) == Aborted(lines[k].decoded.error);
    AbortedPersists(lines, k + 1);
  }

  /** The answer is never empty: it is the stripped aggregate when that is non-empty,
      and otherwise a placeholder starting with `[LLM Failure] `. */
  lemma FinalResponseNonEmpty(outcome: BackendOutcome)
    ensures FinalResponse(outcome) != ""
    ensures outcome.Replied? && Collect(outcome.lines).Collected? && Strip(Collect(outcome.lines).text) != []
            ==> FinalResponse(outcome) == Strip(Collect(outcome.lines).text)
    ensures !(outcome.Replied? && Collect(outcome.lines).Collected? && Strip(Collect(outcome.lines).text) != [])
            ==> StartsWith(FinalResponse(outcome), FailurePrefix)
  {
  }

  /** End to end, for a body in which no line raises: the answer is the stripped
      concatenation of the fragments, or the empty-response placeholder. */
  lemma FinalResponseOfFragments(lines: seq<Line>)
    requires forall i :: 0 <= i < |lines| ==> !Raises(lines[i])
    ensures var text := Strip(Concat(Fragments(lines)));
      FinalResponse(Replied(lines)) == if text == [] then Failure(EmptyResponseError) else text
  {
    CollectConcatenates(lines);
  }
}
