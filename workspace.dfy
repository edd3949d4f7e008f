/**
  The page's wiring: the chat panel receives `isLoading` and forwards messages to
  `handleSendMessage`, and the preview panel is rendered with the current artifact.
*/
module Workspace {
  import opened Wrappers
  import opened Conversation
  import opened ChatInput
  import opened Preview

  /** The preview shows the page's current artifact. */
  ghost predicate InSync(home: Home, preview: PreviewPanel)
    reads home, preview
  {
    preview.tsxCode == home.generatedCode.tsx && preview.cssCode == home.generatedCode.css
  }

  /**
    One browser event on a settled page, followed by the re-render: a forwarded message runs
    one whole submission, and the preview is re-rendered with whatever artifact results, so
    the iframe is remounted exactly when the artifact's text changed.
  */
  method Step(home: Home, chat: ChatPanel, preview: PreviewPanel, event: UiEvent,
              generate: string -> Option<GenerateOutput>,
              refine: (string, string) -> Option<RefineOutput>)
    returns (request: Option<Request>)
    requires home.Settled() && preview.Valid() && InSync(home, preview)
    modifies home, chat, preview
    ensures home.Settled() && preview.Valid() && InSync(home, preview)
    ensures request.None? ==> home.chatHistory == old(home.chatHistory)
                              && home.generatedCode == old(home.generatedCode)
                              && preview.iframeKey == old(preview.iframeKey)
    ensures request.Some? ==> |home.chatHistory| == |old(home.chatHistory)| + 2
                              || home.chatHistory == old(home.chatHistory)
    ensures preview.iframeKey != old(preview.iframeKey) <==> home.generatedCode != old(home.generatedCode)
  {
    var sent := chat.Dispatch(event, home.isLoading);
    request := None;
    match sent {
      case Some(m) =>
        var call, outcome := home.SendMessage(m, generate, refine);
        request := Some(call);
      case None =>
    }
    preview.Render(home.generatedCode.tsx, home.generatedCode.css);
  }

  /**
    A second submission attempted while a call is outstanding, wired as in Step: the page may
    change only through what the chat panel forwards, and the disabled controls forward nothing,
    so `handleSendMessage` is never reached and the page's history and artifact are untouched.
  */
  method EventWhileLoading(home: Home, chat: ChatPanel, event: UiEvent)
    returns (sent: Option<string>)
    requires home.isLoading
    modifies home, chat
    ensures sent == None && chat.message == old(chat.message)
    ensures home.chatHistory == old(home.chatHistory) && home.generatedCode == old(home.generatedCode)
    ensures home.isLoading
  {
    sent := chat.Dispatch(event, home.isLoading);
    match sent {
      case Some(m) =>
        // Step would run home.SendMessage(m, ...) here; Dispatch forwards nothing while loading.
        assert false;
      case None =>
    }
  }
}
