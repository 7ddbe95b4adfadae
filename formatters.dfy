/**
 * The tool cases of the executor that only format text: the web-search and scrape formatters,
 * the `web_search`, `fetch_url`, `get_datetime` and `code_executor` cases
 * (supabase/functions/execute-tool/index.ts).  The Firecrawl service and the clock are inputs.
 */
module Formatters {
  import opened Wrappers
  import opened Text

  /** One entry of a Firecrawl search reply (`data.data[i]`). */
  datatype SearchItem = SearchItem(
    title: Option<string>, url: Option<string>, description: Option<string>, markdown: Option<string>)

  /** A scrape reply: `data.markdown` and `data.metadata?.title`. */
  datatype Scrape = Scrape(markdown: Option<string>, title: Option<string>)

  /** What an HTTP call to the search or scrape service came back with. */
  datatype Reply<T> =
    | Answered(data: T)                      // `response.ok` and a decoded body
    | Refused(status: int, body: string)     // `!response.ok`: status and `response.text()`
    | Threw(message: string)                 // the fetch or the decoding threw

  const NoSearchResults := "No search results found."
  const SearchHeader := "[Web Search Results]\n"
  const ScrapeFailed := "Failed to extract content from URL."
  const TruncationNote := "\n\n... (content truncated)"
  const ScrapeLimit := 3000
  const SnippetLimit := 200

  /** `item.description || item.markdown?.substring(0, 200) || "No description"`. */
  function Summary(item: SearchItem): (r: string)
    ensures Truthy(item.description) ==> r == item.description.value
    ensures !Truthy(item.description) && Truthy(item.markdown) ==> r == Take(item.markdown.value, SnippetLimit)
    ensures !Truthy(item.description) && !Truthy(item.markdown) ==> r == "No description"
  {
    if Truthy(item.description) then item.description.value
    else if Truthy(item.markdown) then Take(item.markdown.value, SnippetLimit)
    else "No description"
  }

  /** The block for the `n`-th result (counting from 1). */
  function SearchEntry(n: nat, item: SearchItem): string {
    NatText(n) + ". " + OrElse(item.title, "Untitled") + "\n   URL: " + Shown(item.url) + "\n   "
    + Summary(item)
  }

  /** `formatSearchResults`: a missing or empty result list gives the fixed notice. */
  function FormatSearchResults(data: Option<seq<SearchItem>>): (r: string)
    ensures data.None? || data.value == [] <==> r == NoSearchResults
    ensures data.Some? && data.value != [] ==> SearchHeader <= r
  {
    if data.None? || data.value == [] then NoSearchResults
    else
      var r := SearchHeader + Join(Numbered(data.value, SearchEntry, 0), "\n\n");
      assert r[0] == '[' && NoSearchResults[0] == 'N';
      r
  }

  /** One more search result adds one more block, numbered one past the others. */
  lemma SearchResultsAppend(items: seq<SearchItem>, x: SearchItem)
    requires items != []
    ensures FormatSearchResults(Some(items + [x]))
            == FormatSearchResults(Some(items)) + "\n\n" + SearchEntry(|items| + 1, x)
  {
    var entries := Numbered(items, SearchEntry, 0);
    var last := SearchEntry(|items| + 1, x);
    NumberedAppend(items, x, SearchEntry, 0);
    JoinAppend(entries, last, "\n\n");
    assert Join(Numbered(items + [x], SearchEntry, 0), "\n\n") == Join(entries, "\n\n") + "\n\n" + last;
    assert items + [x] != [];
    Associate(SearchHeader, Join(entries, "\n\n"), "\n\n", last);
  }

  /** A single result is block number 1 after the header. */
  lemma SearchResultsSingle(x: SearchItem)
    ensures FormatSearchResults(Some([x])) == SearchHeader + SearchEntry(1, x)
  {
    assert Numbered([x], SearchEntry, 0) == [SearchEntry(1, x)];
  }

  /** The block of an item starts with its number. */
  lemma SearchEntryNumbered(n: nat, item: SearchItem)
    ensures NatText(n) + ". " <= SearchEntry(n, item)
  {
  }

  function ScrapeHeader(title: Option<string>): string {
    "[Fetched Content]\nTitle: " + OrElse(title, "Untitled") + "\n\n"
  }

  /**
   * `formatScrapedContent`: without markdown the fixed failure text; otherwise the first
   * min(3000, length) characters of the markdown, with the truncation note exactly when some
   * were cut.
   */
  function FormatScrapedContent(data: Option<Scrape>): (r: string)
    ensures !(data.Some? && Truthy(data.value.markdown)) ==> r == ScrapeFailed
    ensures data.Some? && Truthy(data.value.markdown) && |data.value.markdown.value| <= ScrapeLimit
            ==> r == ScrapeHeader(data.value.title) + data.value.markdown.value
    ensures data.Some? && Truthy(data.value.markdown) && |data.value.markdown.value| > ScrapeLimit
            ==> r == ScrapeHeader(data.value.title) + data.value.markdown.value[..ScrapeLimit] + TruncationNote
  {
    if !(data.Some? && Truthy(data.value.markdown)) then ScrapeFailed
    else
      var md := data.value.markdown.value;
      ScrapeHeader(data.value.title) + Take(md, ScrapeLimit) + (if |md| > ScrapeLimit then TruncationNote else "")
  }

  /** The scraped text can be recovered from the reply, and the reply is bounded in length. */
  lemma ScrapedContentRecovered(md: string, title: Option<string>)
    requires md != []
    ensures var r := FormatScrapedContent(Some(Scrape(Some(md), title)));
            var h := |ScrapeHeader(title)|;
            var n := if |md| <= ScrapeLimit then |md| else ScrapeLimit;
            |r| <= h + ScrapeLimit + |TruncationNote|
            && h + n <= |r| && r[h..h + n] == md[..n]
  {
  }

  /** The `web_search` case (lines 81-123). */
  function WebSearch(query: Option<string>, configured: bool, reply: Reply<Option<seq<SearchItem>>>): (r: string)
    ensures !Truthy(query) ==> r == "Error: No search query provided"
    ensures Truthy(query) && !configured ==> "[Web Search for \"" + query.value + "\"]\nNote: " <= r
    ensures Truthy(query) && configured && reply.Answered? ==> r == FormatSearchResults(reply.data)
    ensures Truthy(query) && configured && reply.Threw?
            ==> r == "Error performing web search: " + reply.message
  {
    if !Truthy(query) then "Error: No search query provided"
    else if !configured then
      var head := "[Web Search for \"" + query.value + "\"]\nNote: ";
      var note := "Web search requires Firecrawl API configuration. "
                  + "Please connect Firecrawl in Workspace Settings → Integrations.";
      assert head <= head + note;
      head + note
    else
      match reply
      case Answered(data) => FormatSearchResults(data)
      case Refused(status, body) => "Error performing web search: " + IntText(status) + " - " + body
      case Threw(message) => "Error performing web search: " + message
  }

  /** The `fetch_url` case (lines 125-167). */
  function FetchUrl(url: Option<string>, configured: bool, reply: Reply<Option<Scrape>>): (r: string)
    ensures !Truthy(url) ==> r == "Error: No URL provided"
    ensures Truthy(url) && !configured ==> "[Fetch URL: " + url.value + "]\nNote: " <= r
    ensures Truthy(url) && configured && reply.Answered? ==> r == FormatScrapedContent(reply.data)
    ensures Truthy(url) && configured && reply.Threw? ==> r == "Error fetching URL: " + reply.message
  {
    if !Truthy(url) then "Error: No URL provided"
    else if !configured then
      var head := "[Fetch URL: " + url.value + "]\nNote: ";
      var note := "URL fetching requires Firecrawl API configuration. "
                  + "Please connect Firecrawl in Workspace Settings → Integrations.";
      assert head <= head + note;
      head + note
    else
      match reply
      case Answered(data) => FormatScrapedContent(data)
      case Refused(status, body) => "Error fetching URL: " + IntText(status) + " - " + body
      case Threw(message) => "Error fetching URL: " + message
  }

  /** The clock readings `get_datetime` prints, already rendered by the runtime. */
  datatype Clock = Clock(date: string, time: string, day: string, zone: string, iso: string)

  /** The lines of the `get_datetime` reply. */
  function DateTimeLines(now: Clock): seq<string> {
    ["[Current Date/Time]", "Date: " + now.date, "Time: " + now.time, "Day: " + now.day,
     "Timezone: " + now.zone, "ISO: " + now.iso]
  }

  /** The `get_datetime` case (lines 169-181): one labelled reading per line. */
  function DateTime(now: Clock): (r: string)
    ensures "[Current Date/Time]\nDate: " + now.date + "\n" <= r
    ensures |"ISO: " + now.iso| <= |r| && r[|r| - |"ISO: " + now.iso|..] == "ISO: " + now.iso
  {
    var lines := DateTimeLines(now);
    var tail := Join(lines[2..], "\n");
    assert Join(lines, "\n") == lines[0] + "\n" + (lines[1] + "\n" + tail);
    assert Join(lines[5..], "\n") == lines[5];
    JoinEndsWithLast(lines, "\n");
    Join(lines, "\n")
  }

  lemma {:induction false} JoinEndsWithLast(parts: seq<string>, sep: string)
    requires |parts| >= 1
    ensures |parts[|parts| - 1]| <= |Join(parts, sep)|
    ensures Join(parts, sep)[|Join(parts, sep)| - |parts[|parts| - 1]|..] == parts[|parts| - 1]
  {
    if |parts| > 1 {
      JoinEndsWithLast(parts[1..], sep);
      var last := parts[|parts| - 1];
      var rest := Join(parts[1..], sep);
      assert parts[1..][|parts[1..]| - 1] == last;
      var s := parts[0] + sep + rest;
      assert s[|s| - |last|..] == rest[|rest| - |last|..];
    }
  }

  /** Each clock reading sits on a line of its own, so a reader can split them back out. */
  lemma DateTimeSplits(now: Clock)
    requires '\n' !in now.date && '\n' !in now.time && '\n' !in now.day
    requires '\n' !in now.zone && '\n' !in now.iso
    ensures SplitLines(DateTime(now)) == DateTimeLines(now)
  {
    JoinSplitLines(DateTimeLines(now));
  }

  function CodeHeader(language: Option<string>): string {
    var lang := OrElse(language, "javascript");
    "[Code Execution - " + lang + "]\nCode:\n```" + lang + "\n"
  }

  const CodeNote := "\n```\n\nNote: Secure code execution is not yet implemented. "
    + "I can reason about what this code would do, but cannot execute it directly."

  /** The `code_executor` case (lines 280-289): the code is echoed in a fence, never run. */
  function CodeExecutor(code: Option<string>, language: Option<string>): (r: string)
    ensures CodeHeader(language) <= r
    ensures |CodeNote| <= |r| && r[|r| - |CodeNote|..] == CodeNote
    ensures code.Some? ==> |CodeHeader(language)| + |code.value| + |CodeNote| == |r|
                           && r[|CodeHeader(language)|..|r| - |CodeNote|] == code.value
  {
    var r := CodeHeader(language) + Shown(code) + CodeNote;
    assert r[..|CodeHeader(language)|] == CodeHeader(language);
    assert r[|r| - |CodeNote|..] == CodeNote;
    Middle(CodeHeader(language), Shown(code), CodeNote);
    r
  }

  /** The echoed code can be cut back out of the reply; the language defaults to JavaScript. */
  lemma CodeEchoed(code: string, language: Option<string>)
    ensures var r := CodeExecutor(Some(code), language);
            var h := |CodeHeader(language)|;
            h + |code| <= |r| && r[h..h + |code|] == code
  {
    Middle(CodeHeader(language), code, CodeNote);
  }

  /** Without a language the fence is a JavaScript one. */
  lemma DefaultLanguage(language: Option<string>)
    requires !Truthy(language)
    ensures CodeHeader(language) == "[Code Execution - javascript]\nCode:\n```javascript\n"
  {
  }

  lemma Middle(a: string, b: string, c: string)
    ensures |a| + |b| <= |a + b + c| && (a + b + c)[|a|..|a| + |b|] == b
  {
  }
}
