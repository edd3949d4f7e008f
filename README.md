# ComponentCraft AI workspace core, in Dafny

ComponentCraft AI is a Next.js page where a user describes a React component in a chat. Two
AI flows produce or refine the component's TSX and CSS, and a live-preview panel shows the
result in a sandboxed iframe. This project models the sequential logic inside three of the
page's components and proves what it promises:

- **The preview panel** (`preview-panel.tsx`), split across three modules.
  - `ComponentNames` holds the component-name resolver `getComponentName`. It also holds the
    strip of the first `export default \w+;` statement. Each regular expression is a greedy
    scanner. Each scanner is proved to agree, at every start position, with a declarative
    statement of what the expression matches, and the search returns the leftmost match.
  - `Preview` holds the `srcDoc` document built from a template.
  - `Preview` also holds the clipboard text, the two download files, and the `PreviewPanel`
    class whose `iframeKey` is renewed by the prop effect and by the refresh button.
- **The conversation orchestrator** (`page.tsx`), module `Conversation`.
  - The `Home` class keeps `chatHistory`, `generatedCode` and `isLoading`.
  - `handleSendMessage` is split at its `await`. `BeginSend` captures the pre-submit history
    and code the closure sees. `CompleteSend` applies the outcome of the AI call. `SendMessage`
    runs both with the two flows given as functions.
  - `handleNewSession` is `NewSession`.
  - The initial placeholder artifact is `InitialCode`.
- **The chat input gate** (`chat-panel.tsx`), module `ChatInput`.
  - The `ChatPanel` class keeps the message buffer.
  - It has `onChange`, `handleSend`, `handleKeyPress` and the send button's `disabled` condition
    `SendButtonDisabled`.
  - The textarea's `disabled` condition depends only on `isLoading`. It is the module-level
    predicate `TextareaDisabled`.
  - `Dispatch` delivers one browser event and drops events aimed at a disabled control.
- `Workspace` wires the three together, as the page's render does.
- `JsText` holds the JavaScript string semantics used throughout: `\s`, `\w`, `[A-Z]`, maximal
  runs and `trim`.

Collaborators are parameters.
- `generate: string -> Option<GenerateOutput>` stands for `generateComponentCode`, and
  `refine: (string, string) -> Option<RefineOutput>` for `refineComponentCode`. `None` is a
  rejected promise.
- `Date.now()` is a counter that only grows.
- React state setters take effect in program order.

Behaviour of the code worth noting:
- The preview effect depends on the TSX and CSS strings, and React compares them by value. So
  the iframe key is renewed exactly when the text changes, and a new artifact with identical
  text keeps the old iframe (`Preview.PreviewPanel.Render`).
- `GeneratedCode` is declared with the fields `jsx` and `css` but is read and written as `tsx`
  and `css` everywhere. The model uses `tsx`.
- The failure path restores the history captured when the call began. The success path appends
  the acknowledgement to the history as it is at that moment. The two differ when two sends
  overlap (`Conversation.OverlappingFailure`). They also differ when a new session starts
  during a send (`Conversation.NewSessionDuringSend`).
- The "New Session" button of `session-sidebar.tsx` has no click handler, and the page passes
  `onNewSession` to a component that takes no props. So `handleNewSession` is unreachable from
  the interface. `NewSession` models the handler itself.

## Model

| member | source | states |
|---|---|---|
| JsText.RunEnd | src/components/app/preview-panel.tsx:13-17 | the greedy end of a `\s*`/`\w*` run from `j`: every character consumed is in the class and the next one is not |
| JsText.RunStart | src/components/app/chat-panel.tsx:36 | the start of the maximal whitespace-class run ending at `j`, used by the trailing half of `trim` |
| JsText.RunEndUnique | src/components/app/preview-panel.tsx:13-17 | any position reached through class characters and not followed by one is the greedy end, so the scanners never need to backtrack |
| JsText.TrimBounds | src/components/app/chat-panel.tsx:36 | the bounds of `trim()`: everything outside them is whitespace, the kept text starts and ends with non-whitespace, and an empty result means all whitespace |
| JsText.Trim | src/components/app/chat-panel.tsx:36 | `message.trim()` is the slice between its bounds, no longer than the input, and begins and ends with non-whitespace |
| JsText.BlankIffAllSpace | src/components/app/chat-panel.tsx:36 | the trimmed text is empty exactly when every character is whitespace |
| ComponentNames.DeclarationAt | src/components/app/preview-panel.tsx:13-17 | `keyword\s+([A-Z]\w*)\s*terminator` scanned greedily, for `const`/`=` and `function`/`(` (MatchAtIff) |
| ComponentNames.DefaultExportAt | src/components/app/preview-panel.tsx:15 | `export\s+default\s+([A-Z]\w*);` scanned greedily (MatchAtIff) |
| ComponentNames.ExportStatementAt | src/components/app/preview-panel.tsx:78 | `export default \w+;` scanned greedily (MatchAtIff) |
| ComponentNames.MatchAt | src/components/app/preview-panel.tsx:13-17 | a match at `i` has its identifier strictly inside it and made of word characters, and for the three resolver patterns the identifier starts upper-case |
| ComponentNames.MatchAtIff | src/components/app/preview-panel.tsx:13-17 | the scanner at `i` returns capture `c` exactly when the regular expression matches at `i` with `c`, in both directions |
| ComponentNames.MatchAtSound | src/components/app/preview-panel.tsx:13-17 | every capture a scanner returns is a match of its regular expression |
| ComponentNames.MatchAtComplete | src/components/app/preview-panel.tsx:13-17 | every match of a regular expression is found by its scanner at the match's start |
| ComponentNames.DeclarationComplete | src/components/app/preview-panel.tsx:13-17 | completeness of the `const` and `function` declaration scanners |
| ComponentNames.DefaultExportComplete | src/components/app/preview-panel.tsx:15 | completeness of the `export\s+default\s+([A-Z]\w*);` scanner |
| ComponentNames.DefaultExportScan | src/components/app/preview-panel.tsx:15 | the scanner retraces a default export given where its `default` keyword starts |
| ComponentNames.FindFrom | src/components/app/preview-panel.tsx:13-17 | a returned capture is the scanner's match at its own start, at or after `i` |
| ComponentNames.FindFromFirst | src/components/app/preview-panel.tsx:13-17 | no position from `i` before the returned match, and none at all when nothing is returned, starts a match |
| ComponentNames.Find | src/components/app/preview-panel.tsx:13-17 | `code.match(re)` without the `g` flag: the match at the first position that has one (FindIff, FindNoneIff) |
| ComponentNames.FindIff | src/components/app/preview-panel.tsx:13-17 | `match` without the `g` flag returns `c` exactly when `c` is a match and no match starts earlier |
| ComponentNames.FindNoneIff | src/components/app/preview-panel.tsx:13-17 | `match` returns null exactly when the expression matches nowhere in the text |
| ComponentNames.ComponentName | src/components/app/preview-panel.tsx:12-20 | the resolved name is never empty, starts with an ASCII upper-case letter and consists of word characters |
| ComponentNames.NameFromConst | src/components/app/preview-panel.tsx:13-14 | with a `const` declaration the name is its leftmost identifier, whatever default export or function comes earlier |
| ComponentNames.NameFromDefaultExport | src/components/app/preview-panel.tsx:15-16 | with no `const` declaration the name is the identifier of the leftmost default export |
| ComponentNames.NameFromFunction | src/components/app/preview-panel.tsx:17-18 | with neither of those the name is the identifier of the leftmost function declaration |
| ComponentNames.NameFallback | src/components/app/preview-panel.tsx:19 | with no match of any of the three the name is exactly `Component` |
| ComponentNames.CaptureIsMaximalRun | src/components/app/preview-panel.tsx:13-17 | a captured identifier is a maximal word run: the characters right before and after it are not word characters |
| ComponentNames.StripDefaultExport | src/components/app/preview-panel.tsx:78 | the strip never makes the text longer |
| ComponentNames.StripWithoutStatement | src/components/app/preview-panel.tsx:78 | text without `export default \w+;` is returned unchanged |
| ComponentNames.StripRemovesFirstStatement | src/components/app/preview-panel.tsx:78 | the removed text is exactly the first `export default <word>;`, everything before and after it (later occurrences included) is kept, and the length drops by its length |
| Preview.SrcDoc | src/components/app/preview-panel.tsx:29-91 | the `srcDoc` template literal: the fixed head, token stylesheet and mount code of the source character for character, with the CSS and the script spliced in (FillEmbeds, SrcDocStylePrefix, SrcDocEmbedsStyles, SrcDocStyleClose, SrcDocEmbedsScript, SrcDocScriptTail) |
| Preview.ScriptBody | src/components/app/preview-panel.tsx:78-79 | what the `try` block runs before mounting: the stripped TSX, then the binding of `Component` (SrcDocEmbedsScript) |
| Preview.ComponentBinding | src/components/app/preview-panel.tsx:79 | the line `const Component = <name>;` with the source's indentation |
| Preview.TemplateDelimiters | src/components/app/preview-panel.tsx:38-77 | the fixed text opens `<style>` right before the CSS, closes it right after, and opens `try {` right before the TSX |
| Preview.FillEmbeds | src/components/app/preview-panel.tsx:29-91 | in any filled template the prefix, the CSS, the closing text, the script and the tail stand verbatim at their offsets |
| Preview.FillStylePrefix | src/components/app/preview-panel.tsx:30-71 | in any filled template the text before the CSS is the head, the token stylesheet and the indent |
| Preview.FillStyleClose | src/components/app/preview-panel.tsx:71-72 | in any filled template the style-closing text stands verbatim right after the CSS |
| Preview.FillStyleSlot | src/components/app/preview-panel.tsx:71 | in any filled template the CSS stands verbatim right after the style prefix |
| Preview.SrcDocStylePrefix | src/components/app/preview-panel.tsx:30-71 | the document up to the CSS is exactly the head, the token stylesheet and the indent, whatever the TSX |
| Preview.SrcDocStyleClose | src/components/app/preview-panel.tsx:71-72 | the text right after the CSS is the style-closing text, which starts with `</style>` (TemplateDelimiters), so the CSS lies inside the one style block |
| Preview.SrcDocEmbedsStyles | src/components/app/preview-panel.tsx:38-72 | the document holds the CSS verbatim after the token stylesheet, inside the `<style>` block, for any TSX |
| Preview.FillScriptSlot | src/components/app/preview-panel.tsx:77-79 | in any filled template the script stands verbatim right after the text that follows the CSS |
| Preview.SrcDocEmbedsScript | src/components/app/preview-panel.tsx:77-79 | the document holds the stripped TSX followed by `const Component = <resolved name>;` verbatim, right after the text that ends in `try {` (TemplateDelimiters) |
| Preview.FillTail | src/components/app/preview-panel.tsx:80-91 | in any filled template the tail closes the document, right after the script |
| Preview.SrcDocScriptTail | src/components/app/preview-panel.tsx:79-91 | the rest of the document after the script is exactly the fixed mount code, the `catch` clause and the closing tags, so the script lies inside the `try` block (TailOpensCatch) |
| Preview.TailOpensCatch | src/components/app/preview-panel.tsx:80-83 | the tail starts with the three mount lines, followed by `} catch(e) {`, which closes the `try` block |
| Preview.ClipboardText | src/components/app/preview-panel.tsx:95 | the text `handleCopy` writes: the TSX, a blank line, and the CSS inside a `<style>` element (ClipboardRoundTrip) |
| Preview.ClipboardRoundTrip | src/components/app/preview-panel.tsx:95 | the clipboard text is 19 characters longer than TSX and CSS together and splits back into exactly the TSX and the CSS |
| Preview.DownloadBaseName | src/components/app/preview-panel.tsx:111 | the download base name is the resolved component name: the `|| 'Component'` fallback never applies |
| Preview.PreviewPanel.constructor | src/components/app/preview-panel.tsx:149-151 | a mounted panel shows its props and has used two keys: the `useState` key of line 25 and the one of the first effect run |
| Preview.PreviewPanel.NewKey | src/components/app/preview-panel.tsx:158 | a key reassignment takes a key the panel never used before and leaves the artifact alone |
| Preview.PreviewPanel.Render | src/components/app/preview-panel.tsx:149-151 | new props are shown, and the key changes exactly when the TSX or CSS text changed, to a never-used key |
| Preview.PreviewPanel.Refresh | src/components/app/preview-panel.tsx:158 | refresh takes a never-used key and leaves the artifact and the document unchanged |
| Preview.PreviewPanel.Download | src/components/app/preview-panel.tsx:109-133 | two files in order: `<name>.tsx` as `text/typescript-jsx` with the TSX, then `<name>.css` as `text/css` with the CSS, with the same resolved name |
| Conversation.InitialCode | src/app/page.tsx:33-118 | `initialCode`: the placeholder TSX and CSS literals of the source character for character |
| Conversation.AlternatingExchange | src/app/page.tsx:137-163 | appending one user turn and the acknowledgement keeps a history alternating |
| Conversation.Home.constructor | src/app/page.tsx:121-124 | empty history, the placeholder code, not loading |
| Conversation.Home.NewSession | src/app/page.tsx:127-129 | empty history and the placeholder code, `isLoading` untouched |
| Conversation.Home.BeginSend | src/app/page.tsx:137-139 | captures the history and code of the call, appends the user turn and sets loading, without checking `isLoading` |
| Conversation.Home.CompleteSend | src/app/page.tsx:141-175 | success replaces the code (refinement keeps the captured CSS) and appends the acknowledgement to the current history; failure restores the captured history and keeps the code; loading ends false |
| Conversation.Home.SendMessage | src/app/page.tsx:136-176 | exactly one collaborator call chosen by the pre-submit history; success grows the history by the user turn and the acknowledgement; failure leaves history and code as they were; refinement keeps the CSS; loading ends false; a settled page stays settled |
| Conversation.TwoTurnConversation | src/app/page.tsx:143-162 | on a fresh page the first message is a generation, the second is a refinement of the generated TSX if the first succeeded, and the styles after both are the generated CSS |
| Conversation.OverlappingFailure | src/app/page.tsx:137-172 | if a second send starts before the first fails, the first's restore erases the second user turn too |
| Conversation.NewSessionDuringSend | src/app/page.tsx:127-163 | a send that succeeds after a new session leaves a lone acknowledgement and its code in the fresh session |
| Conversation.SendAfterNewSession | src/app/page.tsx:127-145 | after a new session the next submission is a generation from the raw message |
| ChatInput.ChatPanel.constructor | src/components/app/chat-panel.tsx:23 | the buffer starts empty |
| ChatInput.ChatPanel.OnChange | src/components/app/chat-panel.tsx:104 | typing replaces the buffer with the textarea's value |
| ChatInput.ChatPanel.HandleSend | src/components/app/chat-panel.tsx:35-40 | forwards the untrimmed buffer and clears it exactly when its trim is not empty; otherwise sends nothing and keeps the buffer |
| ChatInput.ChatPanel.HandleKeyPress | src/components/app/chat-panel.tsx:42-47 | Enter without Shift prevents the default and sends as `handleSend` does; any other key sends nothing and keeps the buffer |
| ChatInput.TextareaDisabled | src/components/app/chat-panel.tsx:106 | the textarea is disabled exactly while loading |
| ChatInput.ChatPanel.SendButtonDisabled | src/components/app/chat-panel.tsx:113 | the send button is disabled exactly while loading or when every character of the buffer is whitespace |
| ChatInput.ChatPanel.Dispatch | src/components/app/chat-panel.tsx:100-113 | while loading no event changes the buffer or sends; whatever is sent is not blank; typing, key presses and clicks behave as their handlers, and a key press or click that sends nothing keeps the buffer |
| Workspace.Step | src/app/page.tsx:194-212 | one event on a settled page keeps it settled and the preview in sync; nothing sent means nothing changed; the iframe is remounted exactly when the artifact changed |
| Workspace.EventWhileLoading | src/components/app/chat-panel.tsx:106-113 | while a call is outstanding the chat panel forwards nothing, so `handleSendMessage` is never reached: the buffer, the history and the artifact are unchanged, and the page is still loading |

## Left out

- Running the preview document is not modelled: the CDN scripts, Babel, React mounting and the in-document `try`/`catch` error display. The document is a string.
- The iframe's `sandbox` attribute is a constant of the markup. No isolation property is claimed from it.
- Browser I/O is not modelled: the clipboard, `Blob`, object URLs, the anchor clicks of the download, toasts and the chat's smooth scrolling. The copy and download handlers are modelled by the text and files they hand to the browser.
- Preview.PreviewPanel.Download: the toast on failure and a partial download (the TSX file saved, the CSS file not) are not modelled, because the browser calls that could throw are not modelled.
- The AI flows `generateComponentCode` and `refineComponentCode` are model calls. They are the `generate` and `refine` parameters, with `None` for a rejected promise.
- Preview.PreviewPanel.NewKey: `Date.now()` is replaced by a counter that never repeats. Two reassignments within one millisecond would reuse a key, which the model does not capture.
- React's rendering, batching and scheduling are not modelled. State updates take effect in call order. An outstanding call is the pair `BeginSend`/`CompleteSend`, with anything in between.
- The console logging and the error toast of `handleSendMessage` are not modelled.
- The markup-only components are not part of this model: the code panel, the session sidebar, the login page and the authentication form. Neither is the Firebase setup.
