/**
  The live-preview panel: the sandbox document handed to the iframe as `srcDoc`, the
  clipboard text, the two download files, and the iframe key that forces the iframe to be
  recreated. Running the document (the CDN scripts, Babel, React, the in-document
  `try`/`catch`) is not modelled: the document is a string.
*/
module Preview {
  import opened ComponentNames

  /** The document up to and including the opening `<style>` tag: the React, ReactDOM and Babel scripts and the font links. */
  const DocumentHead: string :=
    "\n"
    + "    <html>\n"
    + "      <head>\n"
    + "        <script src=\"https://unpkg.com/react@18/umd/react.development.js\" crossorigin></script>\n"
    + "        <script src=\"https://unpkg.com/react-dom@18/umd/react-dom.development.js\" crossorigin></script>\n"
    + "        <script src=\"https://unpkg.com/@babel/standalone/babel.min.js\" crossorigin></script>\n"
    + "        <link rel=\"preconnect\" href=\"https://fonts.googleapis.com\">\n"
    + "        <link rel=\"preconnect\" href=\"https://fonts.gstatic.com\" crossorigin>\n"
    + "        <link href=\"https://fonts.googleapis.com/css2?family=Inter:wght@400;500;600;700&display=swap\" rel=\"stylesheet\">\n"
    + "        <style>\n"

  /** The fixed design-token stylesheet (`:root` custom properties and the `body` rule). */
  const TokenStylesheet: string :=
    "          :root {\n"
    + "            --background: 250 100% 98%;\n"
    + "            --foreground: 240 10% 3.9%;\n"
    + "            --card: 250 100% 98%;\n"
    + "            --card-foreground: 240 10% 3.9%;\n"
    + "            --popover: 250 100% 98%;\n"
    + "            --popover-foreground: 240 10% 3.9%;\n"
    + "            --primary: 262 84% 60%;\n"
    + "            --primary-foreground: 0 0% 98%;\n"
    + "            --secondary: 255 100% 95%;\n"
    + "            --secondary-foreground: 262 84% 30%;\n"
    + "            --muted: 240 5% 96%;\n"
    + "            --muted-foreground: 240 4% 46%;\n"
    + "            --accent: 338 100% 92.4%;\n"
    + "            --accent-foreground: 338 80% 40%;\n"
    + "            --destructive: 0 84.2% 60.2%;\n"
    + "            --destructive-foreground: 0 0% 98%;\n"
    + "            --border: 255 100% 92%;\n"
    + "            --input: 255 100% 92%;\n"
    + "            --ring: 262 84% 60%;\n"
    + "          }\n"
    + "          body { \n"
    + "            font-family: 'Inter', sans-serif;\n"
    + "            background-color: transparent;\n"
    + "            padding: 1rem;\n"
    + "            display: flex;\n"
    + "            align-items: center;\n"
    + "            justify-content: center;\n"
    + "            height: 100%;\n"
    + "            margin: 0;\n"
    + "            overflow: auto;\n"
    + "          }\n"

  /** The indentation in front of the embedded CSS. */
  const StyleIndent: string :=
    "          "

  /** From the end of the embedded CSS to the opening of the `try` block of the Babel script. */
  const StyleCloseToScript: string :=
    "\n"
    + "        </style>\n"
    + "      </head>\n"
    + "      <body>\n"
    + "        <div id=\"root\"></div>\n"
    + "        <script type=\"text/babel\">\n"
    + "          try {\n"

  /** The indentation in front of the embedded TSX. */
  const ScriptIndent: string :=
    "            "

  /** The mount and `catch` code after the binding, to the end of the document. */
  const DocumentTail: string :=
    "            const container = document.getElementById('root');\n"
    + "            const root = ReactDOM.createRoot(container);\n"
    + "            root.render(<Component />);\n"
    + "          } catch(e) {\n"
    + "            console.error(e);\n"
    + "            const container = document.getElementById('root');\n"
    + "            container.innerHTML = '<div style=\"color: red; text-align: center;\">Error rendering component: ' + e.message + '</div>';\n"
    + "          }\n"
    + "        </script>\n"
    + "      </body>\n"
    + "    </html>\n"
    + "  "

  /** The fixed parts of the sandbox document, in document order, around the CSS and the script. */
  datatype DocumentTemplate = DocumentTemplate(
    head: string, tokens: string, styleIndent: string, styleToScript: string, scriptIndent: string, tail: string)
  {
    /** Everything before the embedded CSS. */
    function StylePrefix(): string {
      head + tokens + styleIndent
    }

    /** Everything between the embedded CSS and the embedded script. */
    function StyleToScript(): string {
      styleToScript + scriptIndent
    }

    /** The template literal with the CSS and the script spliced in. */
    function Fill(css: string, script: string): string {
      StylePrefix() + css + StyleToScript() + script + tail
    }
  }

  /** The template of preview-panel.tsx. */
  const PreviewTemplate: DocumentTemplate :=
    DocumentTemplate(DocumentHead, TokenStylesheet, StyleIndent, StyleCloseToScript, ScriptIndent, DocumentTail)

  /** The line after the embedded TSX that names the component to mount. */
  function ComponentBinding(name: string): string {
    "\n            const Component = " + name + ";\n"
  }

  /** What the Babel script runs inside its `try` block: the stripped TSX and the binding of `Component`. */
  function ScriptBody(tsx: string): string {
    StripDefaultExport(tsx) + ComponentBinding(ComponentName(tsx))
  }

  /** The `srcDoc` of the iframe. */
  function SrcDoc(tsx: string, css: string): string {
    PreviewTemplate.Fill(css, ScriptBody(tsx))
  }

  /** The constant parts open the style block before the CSS, close it right after, and open the `try` block before the TSX. */
  lemma TemplateDelimiters()
    ensures DocumentHead[|DocumentHead| - 8..] == "<style>\n"
    ensures StyleCloseToScript[..17] == "\n        </style>"
    ensures StyleCloseToScript[|StyleCloseToScript| - 6..] == "try {\n"
  {
  }

  /** After the three mount lines (160 characters), the tail opens the `catch` clause that closes the `try` block. */
  lemma TailOpensCatch()
    ensures DocumentTail[160..182] == "          } catch(e) {"
  {
  }

  /**
    In any filled template the CSS and the script stand verbatim: the CSS at the length of
    the style prefix, whatever the script, and the script just before the tail, whatever the CSS.
  */
  lemma {:induction false} FillEmbeds(t: DocumentTemplate, css: string, script: string)
    ensures var d := t.Fill(css, script);
            var a := |t.StylePrefix()|;
            var e := |d| - |t.tail|;
            && a + |css| + |t.StyleToScript()| + |script| == e
            && d[..a] == t.head + t.tokens + t.styleIndent
            && d[a..a + |css|] == css
            && d[a + |css|..][..|t.styleToScript|] == t.styleToScript
            && d[..e - |script|] == t.StylePrefix() + css + t.styleToScript + t.scriptIndent
            && d[e - |script|..e] == script
            && d[e..] == t.tail
  {
    var d := t.Fill(css, script);
    var a := |t.StylePrefix()|;
    var b := a + |css| + |t.StyleToScript()|;
    var front := t.StylePrefix() + css + t.StyleToScript();
    assert d == front + script + t.tail;
    assert d[..b] == front;
    assert front[..a] == t.StylePrefix();
    assert front[a..a + |css|] == css;
    assert front[a + |css|..] == t.StyleToScript();
    assert d[a + |css|..][..|t.styleToScript|] == t.StyleToScript()[..|t.styleToScript|];
    assert d[b..b + |script|] == script;
  }

  /**
    The CSS stands verbatim in the document right after the token stylesheet (FillEmbeds,
    TemplateDelimiters); its offset is the length of the fixed prefix, whatever the TSX.
  */
  lemma SrcDocEmbedsStyles(tsx: string, css: string)
    ensures var d := SrcDoc(tsx, css);
            var a := |PreviewTemplate.StylePrefix()|;
            a + |css| <= |d| && d[a..a + |css|] == css
  {
    FillStyleSlot(PreviewTemplate, css, ScriptBody(tsx));
  }

  /** The document up to the CSS is the fixed head, the token stylesheet and the indent. */
  lemma SrcDocStylePrefix(tsx: string, css: string)
    ensures var d := SrcDoc(tsx, css);
            var a := |PreviewTemplate.StylePrefix()|;
            a <= |d| && d[..a] == DocumentHead + TokenStylesheet + StyleIndent
  {
    FillStylePrefix(PreviewTemplate, css, ScriptBody(tsx));
  }

  /**
    The text right after the CSS is the template's StyleCloseToScript, which starts with the
    tag that closes the `<style>` block (TemplateDelimiters).
  */
  lemma SrcDocStyleClose(tsx: string, css: string)
    ensures var d := SrcDoc(tsx, css);
            var a := |PreviewTemplate.StylePrefix()|;
            var close := PreviewTemplate.styleToScript;
            a + |css| + |close| <= |d| && d[a + |css|..a + |css| + |close|] == close
  {
    FillStyleClose(PreviewTemplate, css, ScriptBody(tsx));
  }

  /**
    The stripped TSX followed by `const Component = <resolved name>;` stands verbatim right
    after the CSS and the fixed text that closes the style block and opens the `try` block
    (FillEmbeds, TemplateDelimiters), and right before the fixed mount code.
  */
  lemma SrcDocEmbedsScript(tsx: string, css: string)
    ensures var d := SrcDoc(tsx, css);
            var b := |PreviewTemplate.StylePrefix()| + |css| + |PreviewTemplate.StyleToScript()|;
            && b + |ScriptBody(tsx)| <= |d|
            && d[b..b + |ScriptBody(tsx)|] == ScriptBody(tsx)
  {
    FillScriptSlot(PreviewTemplate, css, ScriptBody(tsx));
  }

  /**
    What follows the script is the fixed mount code and the `catch` clause that closes the
    `try` block (TemplateDelimiters), up to the end of the document.
  */
  lemma SrcDocScriptTail(tsx: string, css: string)
    ensures var d := SrcDoc(tsx, css);
            var b := |PreviewTemplate.StylePrefix()| + |css| + |PreviewTemplate.StyleToScript()|;
            && b + |ScriptBody(tsx)| + |DocumentTail| == |d|
            && d[|d| - |DocumentTail|..] == DocumentTail
  {
    FillTail(PreviewTemplate, css, ScriptBody(tsx));
  }

  // The five lemmas below each restate one conjunct of FillEmbeds on its own, so that the
  // lemmas about the preview template never have to hold all of FillEmbeds at once.

  lemma FillStyleSlot(t: DocumentTemplate, css: string, script: string)
    ensures var d := t.Fill(css, script);
            var a := |t.StylePrefix()|;
            a + |css| <= |d| && d[a..a + |css|] == css
  {
    FillEmbeds(t, css, script);
  }

  lemma FillStylePrefix(t: DocumentTemplate, css: string, script: string)
    ensures var d := t.Fill(css, script);
            var a := |t.StylePrefix()|;
            a <= |d| && d[..a] == t.head + t.tokens + t.styleIndent
  {
    FillEmbeds(t, css, script);
  }

  lemma FillStyleClose(t: DocumentTemplate, css: string, script: string)
    ensures var d := t.Fill(css, script);
            var a := |t.StylePrefix()|;
            && a + |css| + |t.styleToScript| <= |d|
            && d[a + |css|..a + |css| + |t.styleToScript|] == t.styleToScript
  {
    FillEmbeds(t, css, script);
    var d := t.Fill(css, script);
    var a := |t.StylePrefix()|;
    assert d[a + |css|..a + |css| + |t.styleToScript|] == d[a + |css|..][..|t.styleToScript|];
  }

  lemma FillTail(t: DocumentTemplate, css: string, script: string)
    ensures var d := t.Fill(css, script);
            var b := |t.StylePrefix()| + |css| + |t.StyleToScript()|;
            b + |script| + |t.tail| == |d| && d[|d| - |t.tail|..] == t.tail
  {
    FillEmbeds(t, css, script);
  }

  lemma FillScriptSlot(t: DocumentTemplate, css: string, script: string)
    ensures var d := t.Fill(css, script);
            var b := |t.StylePrefix()| + |css| + |t.StyleToScript()|;
            b + |script| <= |d| && d[b..b + |script|] == script
  {
    FillEmbeds(t, css, script);
  }

  /** `handleCopy`'s clipboard text: the TSX, a blank line, and the CSS wrapped in a `<style>` element. */
  function ClipboardText(tsx: string, css: string): string {
    tsx + "\n\n<style>\n" + css + "\n</style>"
  }

  /** Reads the TSX and the CSS back out of a clipboard text whose TSX is `tsxLength` long. */
  function SplitClipboardText(text: string, tsxLength: nat): (string, string)
    requires tsxLength + 19 <= |text|
  {
    (text[..tsxLength], text[tsxLength + 10..|text| - 9])
  }

  /** The clipboard text keeps both parts verbatim: splitting it back gives the TSX and the CSS. */
  lemma ClipboardRoundTrip(tsx: string, css: string)
    ensures |ClipboardText(tsx, css)| == |tsx| + |css| + 19
    ensures SplitClipboardText(ClipboardText(tsx, css), |tsx|) == (tsx, css)
  {
    var t := ClipboardText(tsx, css);
    assert t == tsx + ("\n\n<style>\n" + css + "\n</style>");
    assert t[|tsx| + 10..|t| - 9] == css;
  }

  /** One file handed to the browser's download by `handleDownload`. */
  datatype DownloadFile = DownloadFile(fileName: string, mimeType: string, content: string)

  /**
    The base name of the downloaded files, `getComponentName(tsxCode) || 'Component'`.
    The resolver never returns the empty string, so the `|| 'Component'` never applies.
  */
  function DownloadBaseName(tsx: string): (r: string)
    ensures r == ComponentName(tsx)
  {
    var name := ComponentName(tsx);
    if name == "" then "Component" else name
  }

  /**
    The preview panel. `tsxCode` and `cssCode` are its props; `iframeKey` is the key of the
    iframe, and a new key makes React discard the iframe and create a fresh one. `Date.now()`
    is abstracted to `clock`, a source of keys that never repeats; `keys` records every key
    the panel has used.
  */
  class PreviewPanel {
    var tsxCode: string
    var cssCode: string
    var iframeKey: nat
    var clock: nat
    ghost var keys: seq<nat>

    ghost predicate Valid()
      reads this
    {
      && |keys| > 0 && iframeKey == keys[|keys| - 1] && keys[|keys| - 1] < clock
      && forall a, b :: 0 <= a < b < |keys| ==> keys[a] < keys[b]
    }

    /** The document the iframe shows. */
    function Document(): string
      reads this
    {
      SrcDoc(tsxCode, cssCode)
    }

    /**
      Mounting: `useState(Date.now())` gives the first key and the effect, which also runs
      after the first render, gives the second.
    */
    constructor (tsx: string, css: string)
      ensures Valid()
      ensures tsxCode == tsx && cssCode == css && |keys| == 2
    {
      tsxCode, cssCode := tsx, css;
      iframeKey, clock := 0, 1;
      keys := [0];
      new;
      NewKey();
    }

    /** `setIframeKey(Date.now())`: a key the panel has never used before. */
    method NewKey()
      requires Valid()
      modifies this
      ensures Valid()
      ensures keys == old(keys) + [iframeKey] && iframeKey !in old(keys)
      ensures iframeKey > old(iframeKey)
      ensures tsxCode == old(tsxCode) && cssCode == old(cssCode)
    {
      iframeKey := clock;
      clock := clock + 1;
      keys := keys + [iframeKey];
    }

    /**
      A render with new props. The effect depends on the two strings, which React compares
      by value, so the key changes exactly when the TSX or the CSS text changes: a new
      artifact with the same text keeps the iframe.
    */
    method Render(tsx: string, css: string)
      requires Valid()
      modifies this
      ensures Valid()
      ensures tsxCode == tsx && cssCode == css
      ensures iframeKey != old(iframeKey) <==> (tsx != old(tsxCode) || css != old(cssCode))
      ensures iframeKey != old(iframeKey) ==> iframeKey !in old(keys) && keys == old(keys) + [iframeKey]
      ensures iframeKey == old(iframeKey) ==> keys == old(keys)
    {
      var changed := tsx != tsxCode || css != cssCode;
      tsxCode, cssCode := tsx, css;
      if changed {
        NewKey();
      }
    }

    /** The refresh button: a fresh key, the same artifact and so the same document. */
    method Refresh()
      requires Valid()
      modifies this
      ensures Valid()
      ensures tsxCode == old(tsxCode) && cssCode == old(cssCode) && Document() == old(Document())
      ensures iframeKey !in old(keys) && keys == old(keys) + [iframeKey]
    {
      NewKey();
    }

    /**
      `handleDownload`: first the TSX file, then the CSS file, both named after the resolved
      component name.
    */
    method Download() returns (files: seq<DownloadFile>)
      ensures |files| == 2
      ensures files[0] == DownloadFile(ComponentName(tsxCode) + ".tsx", "text/typescript-jsx", tsxCode)
      ensures files[1] == DownloadFile(ComponentName(tsxCode) + ".css", "text/css", cssCode)
    {
      var name := DownloadBaseName(tsxCode);
      files := [];
      files := files + [DownloadFile(name + ".tsx", "text/typescript-jsx", tsxCode)];
      files := files + [DownloadFile(name + ".css", "text/css", cssCode)];
    }
  }
}
