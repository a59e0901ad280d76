/**
 * The pure parts of the chat controller: the fixed texts it shows, the choice
 * of error text after a failed call, and the dialogue string the summary
 * request is built from.
 */
module ChatText {
  import opened ChatTypes
  import opened Text

  const GenericErrorText: string := "Ошибка при обращении к модели."
  const TooLongErrorText: string := "Слишком длинный диалог! Превышен лимит модели (128K токенов). Очистите чат."
  const InvalidKeyErrorText: string := "Неверный API-ключ или доступ запрещён."
  /** The assistant entry that stands in for a reply that failed. */
  const ApologyText: string := "Извините, не могу обработать запрос."
  /** The opener of the guided book conversation. */
  const BookOpenerText: string := "Хочу подобрать книгу. Задавай мне вопросы и порекомендуй книгу"
  const SummaryFailedErrorText: string := "Не удалось создать резюме диалога."
  /** The summary used when the summary request fails. */
  const SummaryUnavailableText: string := "Резюме недоступно."
  /** Prefix of the single system entry that replaces a summarised transcript. */
  const SummaryTag: string := "[РЕЗЮМЕ ПРЕДЫДУЩЕГО ДИАЛОГА]: "
  /** The summary request's fixed instruction; the dialogue follows it. */
  const SummaryInstruction: string := "Кратко резюмируй следующий диалог между Пользователем и Ассистентом.\nСосредоточься на ключевых темах, решениях и выводах. Не добавляй ничего от себя.\nРезюме должно быть на русском языке и занимать не более 6 предложений.\"\n\nДиалог:\n"

  const ContextLengthMarker: string := "context length"
  const InputTooLongMarker: string := "Input too long"
  const UnauthorizedStatus: int := 401

  const UserLabel: string := "Пользователь"
  const AssistantLabel: string := "Ассистент"
  const LabelSeparator: string := ": "
  const TurnSeparator: string := "\n\n"

  /** The error message names one of the two context-limit markers. */
  ghost predicate ReportsTooLong(errMessage: Option<string>) {
    errMessage.Some? && (Occurs(errMessage.value, ContextLengthMarker) || Occurs(errMessage.value, InputTooLongMarker))
  }

  /**
   * The error text for a failed send. A context-limit marker in the error
   * message wins over a 401 status, which wins over everything else; the
   * three texts are distinct, so the text tells which case applied.
   */
  function ErrorText(errMessage: Option<string>, status: Option<int>): (r: string)
    ensures r == TooLongErrorText <==> ReportsTooLong(errMessage)
    ensures r == InvalidKeyErrorText <==> !ReportsTooLong(errMessage) && status == Some(UnauthorizedStatus)
    ensures r == GenericErrorText <==> !ReportsTooLong(errMessage) && status != Some(UnauthorizedStatus)
  {
    if errMessage.Some? && (Contains(errMessage.value, ContextLengthMarker) || Contains(errMessage.value, InputTooLongMarker)) then
      TooLongErrorText
    else if status == Some(UnauthorizedStatus) then
      InvalidKeyErrorText
    else
      GenericErrorText
  }

  /** The entries the dialogue keeps: user and assistant turns. */
  predicate IsTurn(m: Message) {
    m.role == User || m.role == Assistant
  }

  /** `"<label>: <content>"` for one turn. */
  function Line(m: Message): (r: string)
    ensures |m.content| < |r| && r[|r| - |m.content|..] == m.content
  {
    (if m.role == User then UserLabel else AssistantLabel) + LabelSeparator + m.content
  }

  /** The transcript's turns, in order, with system entries dropped. */
  function Turns(ms: seq<Message>): (r: seq<Message>)
    ensures |r| <= |ms|
    ensures forall m :: m in r <==> m in ms && IsTurn(m)
  {
    if ms == [] then []
    else (if IsTurn(ms[0]) then [ms[0]] else []) + Turns(ms[1..])
  }

  /** `xs.join(sep)`. */
  function Join(xs: seq<string>, sep: string): string {
    if |xs| == 0 then ""
    else if |xs| == 1 then xs[0]
    else Join(xs[..|xs| - 1], sep) + sep + xs[|xs| - 1]
  }

  /** A join starts with the first element and ends with the last. */
  lemma {:induction false} JoinEnds(xs: seq<string>, sep: string)
    requires xs != []
    ensures StartsWith(Join(xs, sep), xs[0]) && EndsWith(Join(xs, sep), xs[|xs| - 1])
  {
    if |xs| > 1 {
      var init := xs[..|xs| - 1];
      var r := Join(xs, sep);
      JoinEnds(init, sep);
      assert r == Join(init, sep) + sep + xs[|xs| - 1];
      assert init[0] == xs[0];
      assert r[..|xs[0]|] == Join(init, sep)[..|xs[0]|];
      assert r[|r| - |xs[|xs| - 1]|..] == xs[|xs| - 1];
    }
  }

  function Lines(ts: seq<Message>): seq<string> {
    seq(|ts|, i requires 0 <= i < |ts| => Line(ts[i]))
  }

  /** The dialogue the summary request quotes. */
  function Dialogue(ms: seq<Message>): string {
    Join(Lines(Turns(ms)), TurnSeparator)
  }

  /** The dialogue opens with the first turn's line and closes with the last turn's line. */
  lemma DialogueEnds(ms: seq<Message>)
    requires Turns(ms) != []
    ensures StartsWith(Dialogue(ms), Line(Turns(ms)[0]))
    ensures EndsWith(Dialogue(ms), Line(Turns(ms)[|Turns(ms)| - 1]))
  {
    JoinEnds(Lines(Turns(ms)), TurnSeparator);
  }

  /** The single user message the summary request sends. */
  function SummaryPrompt(ms: seq<Message>): string {
    SummaryInstruction + Dialogue(ms)
  }

  /**
   * The summary prompt is the fixed instruction followed by the dialogue,
   * quoted verbatim; a system entry added to the transcript leaves it as it
   * was.
   */
  lemma SummaryPromptQuotesDialogue(ms: seq<Message>, m: Message)
    requires m.role == System
    ensures StartsWith(SummaryPrompt(ms), SummaryInstruction)
    ensures SummaryPrompt(ms)[|SummaryInstruction|..] == Dialogue(ms)
    ensures SummaryPrompt(ms + [m]) == SummaryPrompt(ms)
  {
    var p := SummaryPrompt(ms);
    assert p[..|SummaryInstruction|] == SummaryInstruction;
    assert ms + [m] + [] == ms + [m] && ms + [] == ms;
    DialogueSkipsSystem(ms, m, []);
  }

  /** Reads a turn back out of its line: the role from the label, then the content. */
  function ParseLine(line: string): Option<(Role, string)> {
    if StartsWith(line, UserLabel + LabelSeparator) then
      Some((User, line[|UserLabel + LabelSeparator|..]))
    else if StartsWith(line, AssistantLabel + LabelSeparator) then
      Some((Assistant, line[|AssistantLabel + LabelSeparator|..]))
    else
      None
  }

  /** A turn's line keeps its role and its content intact. */
  lemma LineRoundTrip(m: Message)
    requires IsTurn(m)
    ensures ParseLine(Line(m)) == Some((m.role, m.content))
  {
    var u := UserLabel + LabelSeparator;
    var a := AssistantLabel + LabelSeparator;
    if m.role == User {
      assert Line(m) == u + m.content;
      assert Line(m)[..|u|] == u;
    } else {
      assert Line(m) == a + m.content;
      assert Line(m)[0] == a[0] != u[0];
      assert Line(m)[..|a|] == a;
    }
  }

  /** Filtering commutes with concatenation, so the turns keep their order. */
  lemma {:induction false} TurnsAppend(a: seq<Message>, b: seq<Message>)
    ensures Turns(a + b) == Turns(a) + Turns(b)
  {
    if a != [] {
      assert (a + b)[0] == a[0];
      assert (a + b)[1..] == a[1..] + b;
      TurnsAppend(a[1..], b);
    } else {
      assert a + b == b;
    }
  }

  lemma LinesAppend(a: seq<Message>, b: seq<Message>)
    ensures Lines(a + b) == Lines(a) + Lines(b)
  {
  }

  /** Joining two non-empty lists is joining each and putting `sep` between. */
  lemma {:induction false} JoinAppend(xs: seq<string>, ys: seq<string>, sep: string)
    requires xs != [] && ys != []
    ensures Join(xs + ys, sep) == Join(xs, sep) + sep + Join(ys, sep)
  {
    var zs := xs + ys;
    var last := ys[|ys| - 1];
    assert zs[|zs| - 1] == last;
    assert Join(zs, sep) == Join(zs[..|zs| - 1], sep) + sep + last;
    if |ys| == 1 {
      assert zs[..|zs| - 1] == xs;
      assert Join(ys, sep) == last;
    } else {
      var ys' := ys[..|ys| - 1];
      assert zs[..|zs| - 1] == xs + ys';
      assert Join(ys, sep) == Join(ys', sep) + sep + last;
      JoinAppend(xs, ys', sep);
      calc {
        Join(zs, sep);
        Join(xs + ys', sep) + sep + last;
        (Join(xs, sep) + sep + Join(ys', sep)) + sep + last;
        Join(xs, sep) + sep + (Join(ys', sep) + sep + last);
      }
    }
  }

  /** The dialogue of a concatenation: each part's dialogue, separated by a blank line when both are non-empty. */
  lemma DialogueAppend(a: seq<Message>, b: seq<Message>)
    ensures Dialogue(a + b) ==
      if Turns(a) == [] then Dialogue(b)
      else if Turns(b) == [] then Dialogue(a)
      else Dialogue(a) + TurnSeparator + Dialogue(b)
  {
    TurnsAppend(a, b);
    LinesAppend(Turns(a), Turns(b));
    if Turns(a) != [] && Turns(b) != [] {
      JoinAppend(Lines(Turns(a)), Lines(Turns(b)), TurnSeparator);
    } else if Turns(a) == [] {
      assert Turns(a + b) == Turns(b);
    } else {
      assert Turns(a + b) == Turns(a);
    }
  }

  /** One entry on its own: its line if it is a turn, nothing if it is a system entry. */
  lemma DialogueSingle(m: Message)
    ensures Dialogue([m]) == if IsTurn(m) then Line(m) else ""
  {
    assert [m][1..] == [];
  }

  /** System entries never reach the dialogue, wherever they sit. */
  lemma DialogueSkipsSystem(a: seq<Message>, m: Message, b: seq<Message>)
    requires m.role == System
    ensures Dialogue(a + [m] + b) == Dialogue(a + b)
  {
    TurnsAppend(a + [m], b);
    TurnsAppend(a, [m]);
    TurnsAppend(a, b);
    assert [m][1..] == [];
    assert Turns([m]) == [];
    assert Turns(a + [m]) == Turns(a);
    assert Turns(a + [m] + b) == Turns(a + b);
  }

  /** Appending a turn adds its line at the end of the dialogue. */
  lemma DialogueSnoc(ms: seq<Message>, m: Message)
    requires IsTurn(m)
    ensures Dialogue(ms + [m]) ==
      if Turns(ms) == [] then Line(m) else Dialogue(ms) + TurnSeparator + Line(m)
  {
    DialogueAppend(ms, [m]);
    DialogueSingle(m);
    assert [m][1..] == [];
  }

  lemma {:induction false} JoinEmpty(xs: seq<string>, sep: string)
    requires forall i :: 0 <= i < |xs| ==> xs[i] != ""
    ensures Join(xs, sep) == "" <==> xs == []
  {
    if |xs| > 1 {
      assert Join(xs, sep) == Join(xs[..|xs| - 1], sep) + sep + xs[|xs| - 1];
    }
  }

  /** The dialogue is empty exactly when the transcript has no user or assistant turn. */
  lemma DialogueEmptyIff(ms: seq<Message>)
    ensures Dialogue(ms) == "" <==> Turns(ms) == []
  {
    var ls := Lines(Turns(ms));
    forall i | 0 <= i < |ls| ensures ls[i] != "" {
      assert |ls[i]| >= |LabelSeparator|;
    }
    JoinEmpty(ls, TurnSeparator);
  }
}
