/**
 * The `MatrixUI` object of remote-control.js: the page wrapper, the stat
 * line and the file-class helper. The page text, whitespace included, is
 * that of the template literals; the theme's CSS is the `Styles` constant.
 */
module MatrixUi {
  import opened Protocol
  import opened Text

  /** `MatrixUI.styles.base`. */
  const Styles: string :=
    "\n"
    + "            body {\n"
    + "                background-color: black;\n"
    + "                color: #00FF00;\n"
    + "                font-family: 'Courier New', Courier, monospace;\n"
    + "                padding: 20px 20px 20px 0;\n"
    + "                line-height: 1.5;\n"
    + "            }\n"
    + "            h2 {\n"
    + "                color: #00FF00;\n"
    + "                text-align: center;\n"
    + "                margin-bottom: 20px;\n"
    + "            }\n"
    + "            pre {\n"
    + "                margin: 0;\n"
    + "                padding: 0;\n"
    + "                white-space: pre;\n"
    + "                overflow-x: auto;\n"
    + "            }\n"
    + "            ul {\n"
    + "                list-style-type: none;\n"
    + "                padding: 0;\n"
    + "                margin: 0;\n"
    + "            }\n"
    + "            li {\n"
    + "                margin-bottom: 15px;\n"
    + "            }\n"
    + "            .file-exe { color: #00FFFF; }\n"
    + "            .file-cct { color: #FF00FF; }\n"
    + "            .file-txt, .file-lit { color: #00FF00; }\n"
    + "            .file-js { color: #FFFF00; }\n"
    + "            .stat-label { color: #00FFFF; }\n"
    + "            .stat-value { color: #00FF00; }\n"
    + "        "

  // The fixed pieces of the `wrap` template, in page order.
  const TitleLead: string := "\n        <html>\n        <head>\n            "
  const TitleTag: string := "<title>"
  const StyleOpen: string := "</title>\n            <style>"
  const HeadingLead: string := "</style>\n        </head>\n        <body>\n            "
  const HeadingTag: string := "<h2>"
  const HeadingClose: string := "</h2>\n            "
  const WrapTail: string := "\n        </body>\n        </html>\n    "

  /** Everything `wrap` emits before the content; `styles` is `MatrixUI.styles.base`. */
  function WrapHead(styles: string, title: string): string
  {
    TitleLead + TitleTag + title + StyleOpen + styles + HeadingLead + HeadingTag + title + HeadingClose
  }

  /**
   * `MatrixUI.wrap(title, content)`: the themed page, the title in both
   * head and body. The style sheet is a parameter (the agent's is
   * `Styles`), so that what is proved about pages holds for any theme.
   */
  function Wrap(styles: string, title: string, content: string): string
  {
    WrapHead(styles, title) + content + WrapTail
  }

  /** Reads the content back out of a page wrapped with the given style sheet and title. */
  function ContentOf(styles: string, title: string, page: string): Option<string>
  {
    var head := WrapHead(styles, title);
    if |head| + |WrapTail| <= |page| && StartsWith(page, head) && EndsWith(page, WrapTail)
    then Some(page[|head|..|page| - |WrapTail|])
    else None
  }

  /** The content of a wrapped page is recovered from the page, so nothing else is mixed into it. */
  lemma WrapRoundTrip(styles: string, title: string, content: string)
    ensures ContentOf(styles, title, Wrap(styles, title, content)) == Some(content)
  {
    Framed(WrapHead(styles, title), content, WrapTail);
  }

  /** In `a + t + x + b + c + d + h + x + e`, the `x` stands right after `t` and again right after `h`. */
  lemma TitleSlots(a: string, t: string, x: string, b: string, c: string, d: string, h: string, e: string)
    ensures var s, first := a + t + x + b + c + d + h + x + e, |a| + |t|;
            var second := first + |x| + |b| + |c| + |d| + |h|;
            second + |x| <= |s| &&
            s[first - |t|..first] == t && s[first..first + |x|] == x &&
            s[second - |h|..second] == h && s[second..second + |x|] == x
  {
    var front := a + t + x + b + c + d + h;
    var s := front + x + e;
    assert s[..|front|] == front;
    assert s[|front|..|front| + |x|] == x;
  }

  /**
   * The title stands in the page twice: right after `<title>` and again
   * right after `<h2>`.
   */
  lemma WrapShowsTitleTwice(styles: string, title: string, content: string)
    ensures var page, first := Wrap(styles, title, content), |TitleLead| + |TitleTag|;
            var second := first + |title| + |StyleOpen| + |styles| + |HeadingLead| + |HeadingTag|;
            second + |title| <= |page| &&
            page[first - |TitleTag|..first] == TitleTag && page[first..first + |title|] == title &&
            page[second - |HeadingTag|..second] == HeadingTag && page[second..second + |title|] == title
  {
    TitleSlots(TitleLead, TitleTag, title, StyleOpen, styles, HeadingLead, HeadingTag, HeadingClose + content + WrapTail);
    assert Wrap(styles, title, content)
        == TitleLead + TitleTag + title + StyleOpen + styles + HeadingLead + HeadingTag + title
           + (HeadingClose + content + WrapTail);
  }

  // The fixed pieces of the `formatStat` template, in line order.
  const StatLead: string := "\n        <li><span class=\"stat-label\">"
  const StatSeparator: string := ":</span> <span class=\"stat-value\">"
  const StatTail: string := "</span></li>\n    "

  /** `MatrixUI.formatStat(label, value)`, the label written `caption` here. */
  function FormatStat(caption: string, value: string): string
  {
    StatLead + caption + StatSeparator + value + StatTail
  }

  /**
   * `filename.split('.').pop()`: the longest suffix of the name that holds
   * no dot, which is the whole name when there is no dot at all.
   */
  function Extension(filename: string): (ext: string)
    ensures '.' !in ext
    ensures |ext| <= |filename| && ext == filename[|filename| - |ext|..]
    ensures |ext| == |filename| || filename[|filename| - |ext| - 1] == '.'
  {
    if filename == [] then []
    else if filename[|filename| - 1] == '.' then []
    else Extension(filename[..|filename| - 1]) + [filename[|filename| - 1]]
  }

  /** `MatrixUI.getFileClass(filename)`. */
  function FileClass(filename: string): string
  {
    "file-" + Extension(filename)
  }

  /** A name without a dot is its own extension. */
  lemma ExtensionWithoutDot(filename: string)
    requires '.' !in filename
    ensures FileClass(filename) == "file-" + filename
  {
  }

  /** The extension, and so the class, holds only characters of the file name. */
  lemma ExtensionChars(filename: string, c: char)
    requires c !in filename
    ensures c !in Extension(filename)
  {
  }

  /** The extension is what follows the last dot, whatever comes before it. */
  lemma {:induction false} ExtensionAfterLastDot(stem: string, ext: string)
    requires '.' !in ext
    ensures Extension(stem + "." + ext) == ext
  {
    var name := stem + "." + ext;
    if ext == [] {
      assert name[|name| - 1] == '.';
    } else {
      var last := ext[|ext| - 1];
      assert name[|name| - 1] == last;
      assert name[..|name| - 1] == stem + "." + ext[..|ext| - 1];
      ExtensionAfterLastDot(stem, ext[..|ext| - 1]);
      assert ext == ext[..|ext| - 1] + [last];
    }
  }
}
