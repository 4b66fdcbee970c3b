/**
 * The chat routes' own decisions: the confidence of a chat answer and the
 * sources it cites, the normalisation and confidence of a sentiment
 * label, and the parsing of `ollama list` output into model entries. The
 * Ollama calls themselves are inputs.
 */
module AiChat {
  import opened Maybe
  import opened PyJson
  import PyText

  // ---------------------------------------------------------------- chat

  /** A `ChatRequest`; the context is a JSON object when given. */
  datatype ChatRequest = ChatRequest(message: string, context: Option<map<string, Json>>, model: string)

  datatype ChatResponse = ChatResponse(response: string, confidence: real, sources: seq<string>)

  const BaseSources: seq<string> := ["ollama_ai", "financial_knowledge_base"]

  /** A longer answer is taken as a better one: 0.85 beyond 50 characters, 0.7 otherwise. */
  function ChatConfidence(response: string): (c: real)
    ensures c == 0.85 <==> |response| > 50
    ensures c == 0.7 <==> |response| <= 50
  {
    if |response| > 50 then 0.85 else 0.7
  }

  /** Lengthening an answer never lowers its confidence. */
  lemma {:induction false} ChatConfidenceMonotone(a: string, b: string)
    requires |a| <= |b|
    ensures ChatConfidence(a) <= ChatConfidence(b)
  {
  }

  /** `key in request.context`, behind the context's truthiness test. */
  predicate Mentions(context: Option<map<string, Json>>, key: string) {
    context.Some? && |context.value| > 0 && key in context.value
  }

  /**
   * The sources a chat answer cites: the model and the knowledge base
   * always, then "portfolio_data" and "market_data", in that order, for the
   * keys the context carries, and nothing else.
   */
  predicate CitesFor(context: Option<map<string, Json>>, sources: seq<string>) {
    && |sources| == 2 + (if Mentions(context, "portfolio_data") then 1 else 0)
                      + (if Mentions(context, "market_data") then 1 else 0)
    && sources[..2] == BaseSources
    && ("portfolio_data" in sources <==> Mentions(context, "portfolio_data"))
    && ("market_data" in sources <==> Mentions(context, "market_data"))
    && (Mentions(context, "portfolio_data") ==> sources[2] == "portfolio_data")
    && (Mentions(context, "market_data") ==> sources[|sources| - 1] == "market_data")
  }

  /** The `sources` list of `chat_with_ai`, built by appending to the base list. */
  method Sources(context: Option<map<string, Json>>) returns (sources: seq<string>)
    ensures CitesFor(context, sources)
  {
    sources := BaseSources;
    if context.Some? && |context.value| > 0 {
      if "portfolio_data" in context.value {
        sources := sources + ["portfolio_data"];
      }
      if "market_data" in context.value {
        sources := sources + ["market_data"];
      }
    }
  }

  /**
   * `chat_with_ai`: `answer` is what the Ollama call returned (already
   * stripped), or the error it raised, which becomes an HTTP 500 with
   * that message.
   */
  method ChatWithAi(req: ChatRequest, answer: Result<string>) returns (r: Result<ChatResponse>)
    ensures answer.Err? ==> r == Err(answer.msg)
    ensures answer.Ok? ==> r.Ok? && r.value.response == answer.value
                           && r.value.confidence == ChatConfidence(answer.value)
                           && CitesFor(req.context, r.value.sources)
  {
    if answer.Err? {
      return Err(answer.msg);
    }
    var confidence := ChatConfidence(answer.value);
    var sources := Sources(req.context);
    return Ok(ChatResponse(answer.value, confidence, sources));
  }

  // ---------------------------------------------------------------- sentiment

  const Labels: seq<string> := ["positive", "negative", "neutral"]

  /** A label kept when it is one of the three, "neutral" otherwise. */
  function Classify(word: string): (s: string)
    ensures s in Labels
    ensures word in Labels ==> s == word
    ensures word !in Labels ==> s == "neutral"
  {
    if word in Labels then word else "neutral"
  }

  /** The model's one-word answer, stripped and lower-cased; anything but the three labels is "neutral". */
  function NormalizeSentiment(reply: string): (s: string)
    ensures s in Labels
    ensures PyText.Lower(PyText.Strip(reply)) in Labels ==> s == PyText.Lower(PyText.Strip(reply))
    ensures PyText.Lower(PyText.Strip(reply)) !in Labels ==> s == "neutral"
  {
    Classify(PyText.Lower(PyText.Strip(reply)))
  }

  /** The letter case of the model's answer does not matter. */
  lemma {:induction false} SentimentIgnoresCase(reply: string)
    ensures NormalizeSentiment(PyText.Upper(reply)) == NormalizeSentiment(reply)
  {
    PyText.StripUpper(reply);
    PyText.LowerUpper(PyText.Strip(reply));
    assert PyText.Lower(PyText.Strip(PyText.Upper(reply))) == PyText.Lower(PyText.Strip(reply));
  }

  /** A word of lower-case letters alone is left alone by stripping and lower-casing. */
  lemma {:induction false} LowerWordKept(w: string)
    requires w != [] && forall k :: 0 <= k < |w| ==> 'a' <= w[k] <= 'z'
    ensures PyText.Lower(PyText.Strip(w)) == w
  {
    assert !PyText.IsSpace(w[0]) && !PyText.IsSpace(w[|w| - 1]);
    PyText.StripUnpadded(w);
    LowerCaseKept(w);
  }

  /** Lower-casing leaves a string of lower-case letters alone. */
  lemma {:induction false} LowerCaseKept(w: string)
    requires forall k :: 0 <= k < |w| ==> 'a' <= w[k] <= 'z'
    ensures PyText.Lower(w) == w
  {
    assert forall k :: 0 <= k < |w| ==> PyText.LowerChar(w[k]) == w[k];
  }

  /** A clean label is kept as it is. */
  lemma {:induction false} LabelKept(word: string)
    requires word in Labels
    ensures NormalizeSentiment(word) == word
  {
    LowerWordKept(word);
  }

  /** 0.8 for a positive or negative label, 0.6 for neutral. */
  function SentimentConfidence(sentiment: string): (c: real)
    requires sentiment in Labels
    ensures c == 0.8 <==> sentiment != "neutral"
    ensures c == 0.6 <==> sentiment == "neutral"
  {
    if sentiment in ["positive", "negative"] then 0.8 else 0.6
  }

  /** The response of `analyze_chat_sentiment`. */
  datatype SentimentResult = SentimentResult(sentiment: string, confidence: real, message: string)

  /**
   * `analyze_chat_sentiment`: `answer` is the stripped text of the Ollama
   * call, or the error it raised (an HTTP 500).
   */
  method AnalyzeChatSentiment(answer: Result<string>) returns (r: Result<SentimentResult>)
    ensures answer.Err? ==> r == Err(answer.msg)
    ensures answer.Ok? ==> r.Ok? && r.value.sentiment in Labels
                           && r.value.sentiment == NormalizeSentiment(answer.value)
                           && r.value.confidence == SentimentConfidence(r.value.sentiment)
                           && r.value.message == "Sentiment analysis completed: " + r.value.sentiment
  {
    if answer.Err? {
      return Err(answer.msg);
    }
    var sentiment := NormalizeSentiment(answer.value);
    var confidence := SentimentConfidence(sentiment);
    return Ok(SentimentResult(sentiment, confidence, "Sentiment analysis completed: " + sentiment));
  }

  // ---------------------------------------------------------------- model list

  /** One entry of the model list. */
  datatype ModelInfo = ModelInfo(name: string, id: string, size: string)

  /** What `subprocess.run(["ollama", "list"])` reports. */
  datatype Completed = Completed(returncode: int, stdout: string, stderr: string)


  /**
   * One line of the listing: skipped (None) when blank or with fewer than
   * two fields; otherwise its first field is the name, its second the id,
   * and its third the size, "Unknown" when there is none.
   */
  function ModelEntry(line: string): (m: Option<ModelInfo>)
    ensures m.Some? ==> PyText.IsWord(m.value.name) && PyText.IsWord(m.value.id)
    ensures m.Some? <==> |PyText.Words(line)| >= 2
  {
    if PyText.Strip(line) == [] then
      assert PyText.Words(line) == [] by {
        WordsOfBlank(line);
      }
      None
    else
      var parts := PyText.Words(line);
      if |parts| >= 2 then Some(ModelInfo(parts[0], parts[1], if |parts| > 2 then parts[2] else "Unknown"))
      else None
  }

  /** A line that strips to nothing has no words. */
  lemma {:induction false} WordsOfBlank(line: string)
    requires PyText.Strip(line) == []
    ensures PyText.Words(line) == []
  {
    if PyText.TrimStart(line) != [] {
      PyText.StripNonEmpty(line, |line| - |PyText.TrimStart(line)|);
    }
  }

  /** The elements of `[first] + tail`, one by one. */
  lemma {:induction false} ConsElements(ws: seq<string>, first: string, tail: seq<string>)
    requires ws == [first] + tail
    ensures |ws| == |tail| + 1 && ws[0] == first && forall i :: 0 <= i < |tail| ==> ws[i + 1] == tail[i]
  {
  }

  /** Two words joined by a space split back into those two words. */
  lemma {:induction false} TwoWords(first: string, second: string)
    requires PyText.IsWord(first) && PyText.IsWord(second)
    ensures var ws := PyText.Words(first + " " + second);
            |ws| == 2 && ws[0] == first && ws[1] == second
  {
    PyText.WordsCons(first, second);
    PyText.WordsOfWord(second);
    ConsElements(PyText.Words(first + " " + second), first, PyText.Words(second));
  }

  /** Three words joined by spaces split back into those three words. */
  lemma {:induction false} ThreeWords(first: string, second: string, third: string)
    requires PyText.IsWord(first) && PyText.IsWord(second) && PyText.IsWord(third)
    ensures var ws := PyText.Words(first + " " + second + " " + third);
            |ws| == 3 && ws[0] == first && ws[1] == second && ws[2] == third
  {
    var rest := second + " " + third;
    assert first + " " + second + " " + third == first + " " + rest;
    PyText.WordsCons(first, rest);
    TwoWords(second, third);
    ConsElements(PyText.Words(first + " " + rest), first, PyText.Words(rest));
  }

  /** A line "name id size" lists exactly that model. */
  lemma {:induction false} EntryOfThreeFields(name: string, id: string, size: string)
    requires PyText.IsWord(name) && PyText.IsWord(id) && PyText.IsWord(size)
    ensures ModelEntry(name + " " + id + " " + size) == Some(ModelInfo(name, id, size))
  {
    PyText.StripNonEmpty(name + " " + id + " " + size, 0);
    ThreeWords(name, id, size);
  }

  /** A line "name id" lists that model with an unknown size. */
  lemma {:induction false} EntryOfTwoFields(name: string, id: string)
    requires PyText.IsWord(name) && PyText.IsWord(id)
    ensures ModelEntry(name + " " + id) == Some(ModelInfo(name, id, "Unknown"))
  {
    PyText.StripNonEmpty(name + " " + id, 0);
    TwoWords(name, id);
  }

  /** The entries of the listed lines, in line order. */
  function ModelsOf(lines: seq<string>): (models: seq<ModelInfo>)
    ensures |models| <= |lines|
  {
    Somes(MapSeq(ModelEntry, lines))
  }

  /** The loop's step: a line adds its entry, if it has one. */
  lemma {:induction false} ModelsOfNext(lines: seq<string>)
    requires lines != []
    ensures var e := ModelEntry(lines[|lines| - 1]);
            ModelsOf(lines) == ModelsOf(lines[..|lines| - 1]) + (if e.Some? then [e.value] else [])
  {
    SomesMapNext(ModelEntry, lines);
  }

  /** Every listed model has a one-word name and a one-word id. */
  lemma {:induction false} ModelsAreWords(lines: seq<string>)
    ensures forall i :: 0 <= i < |ModelsOf(lines)| ==>
              PyText.IsWord(ModelsOf(lines)[i].name) && PyText.IsWord(ModelsOf(lines)[i].id)
    decreases |lines|
  {
    if lines != [] {
      ModelsOfNext(lines);
      ModelsAreWords(lines[..|lines| - 1]);
    }
  }

  /** The listing is read line by line: the entries of two runs of lines are those of each, in order. */
  lemma {:induction false} ModelsOfAppend(a: seq<string>, b: seq<string>)
    ensures ModelsOf(a + b) == ModelsOf(a) + ModelsOf(b)
  {
    MapSeqAppend(ModelEntry, a, b);
    SomesAppend(MapSeq(ModelEntry, a), MapSeq(ModelEntry, b));
  }

  /** The lines after the header: `stdout.strip().split('\n')[1:]`. */
  function ListedLines(stdout: string): seq<string> {
    PyText.SplitOn(PyText.Strip(stdout), '\n')[1..]
  }

  /** The loop of `list_available_models` over the listed lines. */
  method ParseModelList(stdout: string) returns (models: seq<ModelInfo>)
    ensures models == ModelsOf(ListedLines(stdout))
  {
    var lines := ListedLines(stdout);
    models := [];
    for i := 0 to |lines|
      invariant models == ModelsOf(lines[..i])
    {
      assert lines[..i + 1][..i] == lines[..i];
      ModelsOfNext(lines[..i + 1]);
      var line := lines[i];
      if PyText.Strip(line) != [] {
        var parts := PyText.Words(line);
        if |parts| >= 2 {
          models := models + [ModelInfo(parts[0], parts[1], if |parts| > 2 then parts[2] else "Unknown")];
        }
      }
    }
    assert lines[..|lines|] == lines;
  }

  /**
   * `list_available_models`: `run` is the completed `ollama list`, or the
   * error starting it raised. A non-zero exit status is an error carrying
   * stderr; every error becomes an HTTP 500.
   */
  method ListAvailableModels(run: Result<Completed>) returns (r: Result<seq<ModelInfo>>)
    ensures run.Err? ==> r == Err(run.msg)
    ensures run.Ok? && run.value.returncode != 0 ==> r == Err("Error listing models: " + run.value.stderr)
    ensures run.Ok? && run.value.returncode == 0 ==> r == Ok(ModelsOf(ListedLines(run.value.stdout)))
  {
    if run.Err? {
      return Err(run.msg);
    }
    if run.value.returncode != 0 {
      return Err("Error listing models: " + run.value.stderr);
    }
    var models := ParseModelList(run.value.stdout);
    return Ok(models);
  }
}
