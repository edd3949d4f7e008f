/**
  The conversation state of the `Home` page and its two handlers, `handleSendMessage` and
  `handleNewSession`. The two genkit flows are collaborators whose answers are given as
  functions: `generate` maps a prompt to generated code or to a rejection, `refine` maps the
  existing code and a refinement prompt to refined code or to a rejection. React's state
  setters are modelled as assignments that take effect in program order.
*/
module Conversation {
  import opened Wrappers

  datatype Role = User | Assistant

  datatype ChatMessage = ChatMessage(role: Role, content: string)

  /**
    The current artifact. The source declares this type with the fields `jsx` and `css` but
    reads and writes `tsx` and `css` everywhere; the model uses `tsx`.
  */
  datatype GeneratedCode = GeneratedCode(tsx: string, css: string)

  /** What `generateComponentCode` resolves to. */
  datatype GenerateOutput = GenerateOutput(jsxTsxCode: string, cssCode: string)

  /** What `refineComponentCode` resolves to. */
  datatype RefineOutput = RefineOutput(refinedCode: string)

  /** The one collaborator call a submission makes. */
  datatype Request =
    | Generate(prompt: string)
    | Refine(existingCode: string, refinementPrompt: string)

  /** How the awaited call settled. */
  datatype Outcome =
    | Rejected
    | Generated(generated: GenerateOutput)
    | Refined(refined: RefineOutput)

  /** `outcome` is an answer the collaborator named by `request` can give. */
  predicate Answers(outcome: Outcome, request: Request) {
    match outcome
    case Rejected => true
    case Generated(_) => request.Generate?
    case Refined(_) => request.Refine?
  }

  /** The assistant turn appended after every successful call. */
  const Acknowledgement: string := "Here is the component you requested."

  /** The markup of the placeholder component shown before the first generation. */
  const InitialTsx: string :=
    "import React from 'react';\n"
    + "\n"
    + "const WelcomePlaceholder = () => {\n"
    + "  return (\n"
    + "    <div className=\"welcome-container\">\n"
    + "      <h1 className=\"welcome-title\">Welcome to ComponentCraft AI</h1>\n"
    + "      <p className=\"welcome-message\">\n"
    + "        Start by describing the component you want to build in the chat on the right.\n"
    + "      </p>\n"
    + "      <div className=\"features-grid\">\n"
    + "        <div className=\"feature-card\">\n"
    + "          <h3>Generate</h3>\n"
    + "          <p>Describe UI in plain English.</p>\n"
    + "        </div>\n"
    + "        <div className=\"feature-card\">\n"
    + "          <h3>Refine</h3>\n"
    + "          <p>Iterate with feedback.</p>\n"
    + "        </div>\n"
    + "        <div className=\"feature-card\">\n"
    + "          <h3>Export</h3>\n"
    + "          <p>Copy or download your code.</p>\n"
    + "        </div>\n"
    + "      </div>\n"
    + "    </div>\n"
    + "  );\n"
    + "};\n"
    + "\n"
    + "export default WelcomePlaceholder;\n"

  /** The stylesheet of the placeholder component. */
  const InitialCss: string :=
    "\n"
    + ".welcome-container {\n"
    + "  display: flex;\n"
    + "  flex-direction: column;\n"
    + "  align-items: center;\n"
    + "  justify-content: center;\n"
    + "  height: 100%;\n"
    + "  text-align: center;\n"
    + "  padding: 2rem;\n"
    + "  background: linear-gradient(145deg, hsl(var(--background) / 0.9), hsl(var(--secondary) / 0.9));\n"
    + "  border-radius: 0.5rem;\n"
    + "}\n"
    + "\n"
    + ".welcome-title {\n"
    + "  font-size: 2.5rem;\n"
    + "  font-weight: 700;\n"
    + "  color: hsl(var(--primary));\n"
    + "  margin-bottom: 0.5rem;\n"
    + "}\n"
    + "\n"
    + ".welcome-message {\n"
    + "  font-size: 1.125rem;\n"
    + "  color: hsl(var(--muted-foreground));\n"
    + "  max-width: 500px;\n"
    + "  margin-bottom: 2rem;\n"
    + "}\n"
    + "\n"
    + ".features-grid {\n"
    + "  display: grid;\n"
    + "  grid-template-columns: repeat(3, 1fr);\n"
    + "  gap: 1.5rem;\n"
    + "  width: 100%;\n"
    + "  max-width: 800px;\n"
    + "}\n"
    + "\n"
    + ".feature-card {\n"
    + "  background-color: hsl(var(--card));\n"
    + "  padding: 1.5rem;\n"
    + "  border-radius: 0.5rem;\n"
    + "  border: 1px solid hsl(var(--border));\n"
    + "  box-shadow: 0 4px 6px -1px rgb(0 0 0 / 0.1), 0 2px 4px -2px rgb(0 0 0 / 0.1);\n"
    + "}\n"
    + "\n"
    + ".feature-card h3 {\n"
    + "  font-size: 1.25rem;\n"
    + "  font-weight: 600;\n"
    + "  color: hsl(var(--foreground));\n"
    + "  margin-bottom: 0.5rem;\n"
    + "}\n"
    + "\n"
    + ".feature-card p {\n"
    + "  font-size: 1rem;\n"
    + "  color: hsl(var(--muted-foreground));\n"
    + "}\n"

  /** `initialCode`: the placeholder artifact of a new session. */
  const InitialCode: GeneratedCode := GeneratedCode(InitialTsx, InitialCss)

  /**
    A history at rest: user turns and fixed acknowledgements alternate, starting with a user
    turn, so every completed exchange adds exactly one of each.
  */
  ghost predicate Alternating(h: seq<ChatMessage>) {
    && |h| % 2 == 0
    && forall i :: 0 <= i < |h| ==>
         h[i] == (if i % 2 == 0 then ChatMessage(User, h[i].content) else ChatMessage(Assistant, Acknowledgement))
  }

  lemma {:induction false} AlternatingExchange(h: seq<ChatMessage>, message: string)
    requires Alternating(h)
    ensures Alternating(h + [ChatMessage(User, message), ChatMessage(Assistant, Acknowledgement)])
  {
    var h' := h + [ChatMessage(User, message), ChatMessage(Assistant, Acknowledgement)];
    forall i | 0 <= i < |h'|
      ensures h'[i] == (if i % 2 == 0 then ChatMessage(User, h'[i].content) else ChatMessage(Assistant, Acknowledgement))
    {
      if i < |h| {
        assert h'[i] == h[i];
      } else if i == |h| {
        assert i % 2 == 0;
      } else {
        assert i == |h| + 1 && i % 2 == 1;
      }
    }
  }

  /**
    What a running `handleSendMessage` closed over when it was called: the history and code
    of that render, and the message.
  */
  datatype PendingSend = PendingSend(history: seq<ChatMessage>, code: GeneratedCode, message: string) {

    /**
      `chatHistory.length === 0` on the history from before the user turn was appended
      selects generation from the raw message; any other history selects refinement of the
      current TSX.
    */
    function Request(): Request {
      if |history| == 0 then Generate(message) else Refine(code.tsx, message)
    }
  }

  class Home {
    var chatHistory: seq<ChatMessage>
    var generatedCode: GeneratedCode
    var isLoading: bool
    /** The successful submissions since the session started. */
    ghost var exchanges: nat

    /** No call is outstanding and the history holds exactly the completed exchanges. */
    ghost predicate Settled()
      reads this
    {
      !isLoading && Alternating(chatHistory) && |chatHistory| == 2 * exchanges
    }

    constructor ()
      ensures chatHistory == [] && generatedCode == InitialCode && !isLoading
      ensures exchanges == 0 && Settled()
    {
      chatHistory := [];
      generatedCode := InitialCode;
      isLoading := false;
      exchanges := 0;
    }

    /** `handleNewSession`: the empty history and the placeholder code; `isLoading` is left alone. */
    method NewSession()
      modifies this
      ensures chatHistory == [] && generatedCode == InitialCode && isLoading == old(isLoading)
      ensures exchanges == 0 && (!isLoading ==> Settled())
    {
      chatHistory := [];
      generatedCode := InitialCode;
      exchanges := 0;
    }

    /**
      `handleSendMessage` up to the `await`: the user turn is appended optimistically and
      `isLoading` is set. Nothing here checks `isLoading`; only the chat panel's disabled
      controls keep a second call from starting.
    */
    method BeginSend(message: string) returns (p: PendingSend)
      modifies this
      ensures p == PendingSend(old(chatHistory), old(generatedCode), message)
      ensures chatHistory == old(chatHistory) + [ChatMessage(User, message)]
      ensures isLoading && generatedCode == old(generatedCode) && exchanges == old(exchanges)
    {
      p := PendingSend(chatHistory, generatedCode, message);
      chatHistory := chatHistory + [ChatMessage(User, message)];
      isLoading := true;
    }

    /**
      `handleSendMessage` after the `await`. On success the code is replaced (refinement keeps
      the CSS captured at the call) and the acknowledgement is appended to the history as it is
      now; on failure the history captured at the call is restored and the code is left alone;
      `isLoading` ends false either way.
    */
    method CompleteSend(p: PendingSend, outcome: Outcome)
      requires Answers(outcome, p.Request())
      modifies this
      ensures !isLoading
      ensures outcome.Rejected? ==> chatHistory == p.history && generatedCode == old(generatedCode)
      ensures outcome.Rejected? ==> exchanges == old(exchanges)
      ensures outcome.Generated? ==>
                generatedCode == GeneratedCode(outcome.generated.jsxTsxCode, outcome.generated.cssCode)
      ensures outcome.Refined? ==> generatedCode == GeneratedCode(outcome.refined.refinedCode, p.code.css)
      ensures !outcome.Rejected? ==>
                chatHistory == old(chatHistory) + [ChatMessage(Assistant, Acknowledgement)]
                && exchanges == old(exchanges) + 1
    {
      match outcome {
        case Rejected =>
          chatHistory := p.history;
        case Generated(g) =>
          generatedCode := GeneratedCode(g.jsxTsxCode, g.cssCode);
          chatHistory := chatHistory + [ChatMessage(Assistant, Acknowledgement)];
          exchanges := exchanges + 1;
        case Refined(r) =>
          generatedCode := GeneratedCode(r.refinedCode, p.code.css);
          chatHistory := chatHistory + [ChatMessage(Assistant, Acknowledgement)];
          exchanges := exchanges + 1;
      }
      isLoading := false;
    }

    /**
      One whole `handleSendMessage` with nothing else happening meanwhile: exactly one
      collaborator call, chosen by whether the history was empty; without retries.
    */
    method SendMessage(message: string,
                       generate: string -> Option<GenerateOutput>,
                       refine: (string, string) -> Option<RefineOutput>)
      returns (request: Request, outcome: Outcome)
      modifies this
      ensures request == (if old(chatHistory) == [] then Generate(message)
                          else Refine(old(generatedCode).tsx, message))
      ensures outcome == match request
                         case Generate(prompt) =>
                           (match generate(prompt) case Some(g) => Generated(g) case None => Rejected)
                         case Refine(code, prompt) =>
                           (match refine(code, prompt) case Some(r) => Refined(r) case None => Rejected)
      ensures !isLoading
      ensures outcome.Rejected? ==> chatHistory == old(chatHistory) && generatedCode == old(generatedCode)
      ensures !outcome.Rejected? ==>
                chatHistory == old(chatHistory) + [ChatMessage(User, message), ChatMessage(Assistant, Acknowledgement)]
      ensures outcome.Generated? ==>
                generatedCode == GeneratedCode(outcome.generated.jsxTsxCode, outcome.generated.cssCode)
      ensures outcome.Refined? ==>
                generatedCode == GeneratedCode(outcome.refined.refinedCode, old(generatedCode).css)
      ensures old(Settled()) ==> Settled()
      ensures exchanges == old(exchanges) + (if outcome.Rejected? then 0 else 1)
    {
      ghost var settled := Settled();
      var p := BeginSend(message);
      request := p.Request();
      match request {
        case Generate(prompt) =>
          var result := generate(prompt);
          outcome := match result case Some(g) => Generated(g) case None => Rejected;
        case Refine(code, prompt) =>
          var result := refine(code, prompt);
          outcome := match result case Some(r) => Refined(r) case None => Rejected;
      }
      CompleteSend(p, outcome);
      if settled && !outcome.Rejected? {
        AlternatingExchange(p.history, message);
      }
    }
  }

  /**
    A first message on a fresh page is a generation; once it succeeded a second message is a
    refinement of the generated TSX, and when that succeeds too the styles are still the
    generated CSS.
  */
  method TwoTurnConversation(generate: string -> Option<GenerateOutput>,
                             refine: (string, string) -> Option<RefineOutput>)
    returns (first: Request, second: Request, styles: string)
    ensures first == Generate("make a red button")
    ensures generate("make a red button").Some? ==>
              second == Refine(generate("make a red button").value.jsxTsxCode, "make it blue")
    ensures generate("make a red button").None? ==> second == Generate("make it blue")
    ensures generate("make a red button").Some? ==> styles == generate("make a red button").value.cssCode
  {
    var home := new Home();
    var outcome;
    first, outcome := home.SendMessage("make a red button", generate, refine);
    second, outcome := home.SendMessage("make it blue", generate, refine);
    styles := home.generatedCode.css;
  }

  /**
    Why the single-flight guard matters: if a second submission starts before the first
    settles and the first then fails, restoring the history the first call captured also
    erases the second message's user turn.
  */
  method OverlappingFailure(first: string, second: string) returns (history: seq<ChatMessage>)
    ensures history == []
  {
    var home := new Home();
    var p1 := home.BeginSend(first);
    var p2 := home.BeginSend(second);
    assert home.chatHistory == [ChatMessage(User, first), ChatMessage(User, second)];
    home.CompleteSend(p1, Rejected);
    history := home.chatHistory;
  }

  /**
    `handleNewSession` does not wait for an outstanding call: when that call then succeeds,
    its acknowledgement lands in the new session's empty history without a user turn before
    it, and its code replaces the placeholder.
  */
  method NewSessionDuringSend(message: string, output: GenerateOutput)
    returns (history: seq<ChatMessage>, code: GeneratedCode)
    ensures history == [ChatMessage(Assistant, Acknowledgement)]
    ensures code == GeneratedCode(output.jsxTsxCode, output.cssCode)
  {
    var home := new Home();
    var p := home.BeginSend(message);
    home.NewSession();
    home.CompleteSend(p, Generated(output));
    history, code := home.chatHistory, home.generatedCode;
  }

  /** After `handleNewSession` the next submission is a generation from the raw message again. */
  method SendAfterNewSession(home: Home, message: string,
                             generate: string -> Option<GenerateOutput>,
                             refine: (string, string) -> Option<RefineOutput>)
    returns (request: Request)
    modifies home
    ensures request == Generate(message)
    ensures home.generatedCode == (match generate(message)
                                   case Some(g) => GeneratedCode(g.jsxTsxCode, g.cssCode)
                                   case None => InitialCode)
  {
    home.NewSession();
    var outcome;
    request, outcome := home.SendMessage(message, generate, refine);
  }
}
