/** The text copied to the clipboard when a saved query is shared. */
module Share {
  import opened Strings
  import opened Messages

  /** A heading on a line of its own, then the text it heads. */
  function Section(heading: string, content: string): string {
    heading + [NL] + content
  }

  /** Two blocks of text with an empty line between them. */
  function Paragraphs(a: string, b: string): string {
    a + [NL, NL] + b
  }

  /** The share layout for given headings. */
  function Layout(h1: string, h2: string, h3: string, query: string, response: string, recommendation: string): string {
    var body := Paragraphs(Section(h1, query), Section(h2, response));
    if recommendation != [] then Paragraphs(body, Section(h3, recommendation)) else body
  }

  /** The query under its heading, an empty line, the response under its heading, and, only when
      there is a recommendation, another empty line and the recommendation under its title. */
  function ShareText(lang: Lang, query: string, response: string, recommendation: string): string {
    Layout(YourQuery(lang), ResponseHeading(lang), RecommendationTitle(lang), query, response, recommendation)
  }

  lemma SectionLines(heading: string, content: string)
    requires NL !in heading
    ensures Split(Section(heading, content)) == [heading] + Split(content)
  {
    SplitPlain(heading, content);
  }

  lemma ParagraphsLines(a: string, b: string)
    ensures Split(Paragraphs(a, b)) == Split(a) + [""] + Split(b)
  {
    assert Paragraphs(a, b) == a + [NL] + ([] + [NL] + b);
    SplitConcat(a, [] + [NL] + b);
    SplitConcat([], b);
  }

  lemma BodyLines(h1: string, h2: string, query: string, response: string)
    requires NL !in h1 && NL !in h2
    ensures Split(Paragraphs(Section(h1, query), Section(h2, response)))
         == [h1] + Split(query) + ["", h2] + Split(response)
  {
    SectionLines(h1, query);
    SectionLines(h2, response);
    ParagraphsLines(Section(h1, query), Section(h2, response));
    Regroup([h1] + Split(query), "", h2, Split(response));
  }

  lemma LayoutLines(h1: string, h2: string, h3: string, query: string, response: string, recommendation: string)
    requires NL !in h1 && NL !in h2 && NL !in h3
    ensures Split(Layout(h1, h2, h3, query, response, recommendation))
         == [h1] + Split(query) + ["", h2] + Split(response)
            + (if recommendation != [] then ["", h3] + Split(recommendation) else [])
  {
    var body := Paragraphs(Section(h1, query), Section(h2, response));
    var lines := [h1] + Split(query) + ["", h2] + Split(response);
    BodyLines(h1, h2, query, response);
    if recommendation != [] {
      SectionLines(h3, recommendation);
      ParagraphsLines(body, Section(h3, recommendation));
      Regroup(lines, "", h3, Split(recommendation));
    } else {
      assert lines + [] == lines;
    }
  }

  /** Moving the brackets of a concatenation. */
  lemma Regroup<T>(a: seq<T>, x: T, y: T, b: seq<T>)
    ensures a + [x] + ([y] + b) == a + [x, y] + b
    ensures a + [x] + ([y] + b) == a + ([x, y] + b)
  {
  }

  /** The lines of the share text: each heading on a line of its own, followed by the lines of
      what it heads, with one empty line between sections; the recommendation section is there
      exactly when the recommendation is non-empty. */
  lemma ShareLines(lang: Lang, query: string, response: string, recommendation: string)
    ensures Split(ShareText(lang, query, response, recommendation))
         == [YourQuery(lang)] + Split(query) + ["", ResponseHeading(lang)] + Split(response)
            + (if recommendation != [] then ["", RecommendationTitle(lang)] + Split(recommendation) else [])
  {
    LayoutLines(YourQuery(lang), ResponseHeading(lang), RecommendationTitle(lang), query, response, recommendation);
  }

  /** The recommendation section is only ever appended: the share text with a recommendation
      starts with the share text without one. */
  lemma ShareExtends(lang: Lang, query: string, response: string, recommendation: string)
    ensures ShareText(lang, query, response, "") <= ShareText(lang, query, response, recommendation)
  {
  }
}
